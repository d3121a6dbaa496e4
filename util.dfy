/** Util: structural equality, the bounds builders, sequence and primary helpers, and
    the declared types of a function's result and parameters. */
module Util {
  import opened Wrappers
  import opened Types
  import opened Syntax
  import IdentifierAndTypeExtractor
  import FormalParamsCollector

  // ---------------------------------------------------------------------------
  // equals
  // ---------------------------------------------------------------------------

  /** Util.equals on two possibly-null nodes, given by their printed text: the same
      object, or either side null, or equal text. */
  predicate Equals(a: Option<Tokens>, b: Option<Tokens>)
  {
    a == b || a.None? || b.None? || a.value == b.value
  }

  /** Null is a wildcard: it equals everything, so equals is not transitive. */
  lemma EqualsNullWildcard(x: Tokens, y: Tokens)
    ensures Equals(None, Some(x)) && Equals(Some(y), None)
    ensures x != y ==> !Equals(Some(x), Some(y))
    ensures Equals(Some(x), Some(y)) <==> x == y
  {
  }

  lemma EqualsSymmetric(a: Option<Tokens>, b: Option<Tokens>)
    ensures Equals(a, b) == Equals(b, a)
  {
  }

  // ---------------------------------------------------------------------------
  // Bounds builders
  // ---------------------------------------------------------------------------

  /** zeroBoundsExpr: the literal 0 as a bounds term. */
  function ZeroBounds(): (r: Bounds)
    ensures RenderBounds(r) == ["0"]
  {
    BLit(Numeric("0"))
  }

  predicate IsZero(b: Bounds)
  {
    RenderBounds(b) == RenderBounds(ZeroBounds())
  }

  function AddBounds(e1: Bounds, e2: Bounds): (r: Bounds)
    ensures RenderBounds(r) == ["("] + RenderBounds(e1) + [")", "+", "("] + RenderBounds(e2) + [")"]
  {
    BSum(BParen(e1), "+", BParen(e2))
  }

  function SubtractBounds(e1: Bounds, e2: Bounds): (r: Bounds)
    ensures RenderBounds(r) == ["("] + RenderBounds(e1) + [")", "-", "("] + RenderBounds(e2) + [")"]
  {
    BSum(BParen(e1), "-", BParen(e2))
  }

  function MultiplyBounds(e1: Bounds, e2: Bounds): (r: Bounds)
    ensures RenderBounds(r) == ["("] + RenderBounds(e1) + [")", "*", "("] + RenderBounds(e2) + [")"]
  {
    BProduct(BParen(e1), "*", BParen(e2))
  }

  lemma {:induction false} RenderBoundsNonEmpty(b: Bounds)
    ensures |RenderBounds(b)| >= 1
  {
    match b
    case BSum(a, _, c) => RenderBoundsNonEmpty(a);
    case BProduct(a, _, c) => RenderBoundsNonEmpty(a);
    case BExp(a, _, c) => RenderBoundsNonEmpty(a);
    case _ =>
  }

  /** Only a one-token term spelled 0 is zero; in particular no sum, difference or
      product built above is. */
  lemma IsZeroShape(b: Bounds)
    ensures IsZero(b) <==> b in {BLit(Numeric("0")), BLit(Boolean("0")), BLookup("0")}
  {
    match b
    case BSum(a, _, c) => RenderBoundsNonEmpty(a); RenderBoundsNonEmpty(c);
    case BProduct(a, _, c) => RenderBoundsNonEmpty(a); RenderBoundsNonEmpty(c);
    case BExp(a, _, c) => RenderBoundsNonEmpty(a); RenderBoundsNonEmpty(c);
    case BEnv(ps) =>
      assert RenderBounds(b)[0] == "env";
    case _ =>
  }

  lemma BuiltBoundsNonZero(e1: Bounds, e2: Bounds)
    ensures !IsZero(AddBounds(e1, e2)) && !IsZero(SubtractBounds(e1, e2)) && !IsZero(MultiplyBounds(e1, e2))
  {
    IsZeroShape(AddBounds(e1, e2));
    IsZeroShape(SubtractBounds(e1, e2));
    IsZeroShape(MultiplyBounds(e1, e2));
  }

  // ---------------------------------------------------------------------------
  // Primaries, sequences and the conversions the substituter needs
  // ---------------------------------------------------------------------------

  /** The literal 0 (defaultPrimaryExpr). */
  function DefaultPrimaryExpr(): (r: Expr)
    ensures Own(r) == PrimaryL && Render(r) == ["0"]
  {
    Literal(Numeric("0"))
  }

  /** IsPrimary: the primary under an expression's wrapper chain, if the expression is
      one. */
  function GetPrimary(e: Expr): (r: Option<Expr>)
    ensures r.Some? <==> Own(e) == PrimaryL
    ensures r.Some? ==> r.value == e
  {
    if Own(e) == PrimaryL then Some(e) else None
  }

  /** toPrimaryExpr: the bare primary if the expression is one, else the expression in
      unlabelled parentheses. */
  function ToPrimaryExpr(e: Expr): (r: Expr)
    ensures Own(r) == PrimaryL
    ensures Own(e) == PrimaryL ==> r == e
    ensures Own(e) != PrimaryL ==> Render(r) == ["("] + Render(e) + [")"]
  {
    if Own(e) == PrimaryL then e else Paren(None, e)
  }

  /** getFuncExpr: the call, when the expression is exactly a function call. */
  function GetFuncExpr(e: Expr): (r: Option<(string, seq<Expr>)>)
    ensures r.Some? <==> e.Func?
    ensures r.Some? ==> e == Func(r.value.0, r.value.1)
  {
    if e.Func? then Some((e.name, e.args)) else None
  }

  /** toNewExpr: the object, when the expression is exactly a `new`. */
  function ToNewExpr(e: Expr): (r: Option<Expr>)
    ensures r.Some? <==> e.New?
    ensures r.Some? ==> r.value == e
  {
    if e.New? then Some(e) else None
  }

  /** toInvokeExpr: the invocation, when the expression is exactly one. */
  function ToInvokeExpr(e: Expr): (r: Option<Expr>)
    ensures r.Some? <==> e.Invoke?
    ensures r.Some? ==> r.value == e
  {
    if e.Invoke? then Some(e) else None
  }

  /** toQuantPrimaryExpr: the parenthesised expression, when the expression is one. */
  function ToQuantPrimaryExpr(e: Expr): (r: Option<Expr>)
    ensures r.Some? <==> e.Paren?
    ensures r.Some? ==> r.value == e
  {
    if e.Paren? then Some(e) else None
  }

  /** Every getter sees through toPrimaryExpr: a primary is kept as it is, and any other
      expression becomes a parenthesis, which none of them takes for a `new`, an
      invocation or a call. */
  lemma GetPrimaryOfToPrimary(e: Expr)
    ensures GetPrimary(ToPrimaryExpr(e)) == Some(ToPrimaryExpr(e))
    ensures GetPrimary(e).Some? <==> ToPrimaryExpr(e) == e
  {
  }

  lemma ToNewExprOfToPrimary(e: Expr)
    ensures ToNewExpr(ToPrimaryExpr(e)) == ToNewExpr(e)
  {
  }

  lemma ToInvokeExprOfToPrimary(e: Expr)
    ensures ToInvokeExpr(ToPrimaryExpr(e)) == ToInvokeExpr(e)
  {
  }

  lemma GetFuncExprOfToPrimary(e: Expr)
    ensures GetFuncExpr(ToPrimaryExpr(e)) == GetFuncExpr(e)
  {
  }

  /** A non-primary expression comes back from toPrimaryExpr as exactly the parenthesis
      toQuantPrimaryExpr finds; when it finds none, toPrimaryExpr changed nothing. */
  lemma ToQuantPrimaryOfToPrimary(e: Expr)
    ensures Own(e) != PrimaryL ==> ToQuantPrimaryExpr(ToPrimaryExpr(e)) == Some(Paren(None, e))
    ensures ToQuantPrimaryExpr(ToPrimaryExpr(e)).None? ==> ToPrimaryExpr(e) == e && !e.Paren?
  {
  }

  /** assignExpr: `id := primary`. */
  function AssignExpr(id: string, primary: Expr): (r: Expr)
    requires Own(primary) == PrimaryL
    ensures Own(r) == AssignL && Render(r) == [id, ":="] + Render(primary)
  {
    Assign(id, primary)
  }

  /** toSequence: literal 0 for no statements, the statement itself for one, and a
      right-nested `e1; (e2; ...)` otherwise. */
  function ToSequence(es: seq<Expr>): (r: Expr)
    ensures es == [] ==> r == DefaultPrimaryExpr()
    ensures |es| == 1 ==> r == es[0]
    ensures |es| > 1 ==> r.Seq? && r.left == es[0]
  {
    if es == [] then DefaultPrimaryExpr()
    else if |es| == 1 then es[0]
    else Seq(es[0], ToSequence(es[1..]))
  }

  /** The statements of a right-nested sequence. */
  function Statements(e: Expr): seq<Expr>
  {
    if e.Seq? then [e.left] + Statements(e.right) else [e]
  }

  /** toPrimaryExpr keeps a well-formed expression well-formed. */
  lemma ToPrimaryExprFits(e: Expr)
    requires Fits(e, ExprL)
    ensures Fits(ToPrimaryExpr(e), PrimaryL)
  {
  }

  /** Statements at the assignment level make a well-formed logic-level sequence. */
  lemma {:induction false} ToSequenceFits(es: seq<Expr>)
    requires forall i :: 0 <= i < |es| ==> Fits(es[i], AssignL)
    ensures Fits(ToSequence(es), LogicL)
  {
    if |es| > 1 {
      ToSequenceFits(es[1..]);
      assert Fits(es[0], AssignL);
    }
  }

  /** Reading the statements back gives the list toSequence was given, when no element
      is itself a sequence (an assign-level expression never is). */
  lemma {:induction false} ToSequenceStatements(es: seq<Expr>)
    requires es != []
    requires forall i :: 0 <= i < |es| ==> Rank(Own(es[i])) >= Rank(AssignL)
    ensures Statements(ToSequence(es)) == es
  {
    if |es| > 1 {
      ToSequenceStatements(es[1..]);
    }
  }

  /** negateProp: `!(p)`. */
  function NegateProp(p: Prop): (r: Prop)
    ensures RenderProp(r) == ["!", "("] + RenderProp(p) + [")"]
  {
    PNot(PParen(p))
  }

  /** Util.toExpr on a substitute: a node of the sum, arith, bool, assign, logic or
      primary level is wrapped up to an expression; any other node raises. */
  function TermToExpr(t: Term): (r: Outcome<Expr>)
    requires !t.Null?
    ensures r.Success? <==> t.At? && t.level in {SumL, ArithL, BoolL, AssignL, LogicL, PrimaryL}
    ensures r.Success? ==> r.value == t.e
  {
    if t.At? && t.level in {SumL, ArithL, BoolL, AssignL, LogicL, PrimaryL} then Success(t.e)
    else Failure(Internal("Unable to convert node of type class " + ClassName(t) + " to expr"))
  }

  /** An expression seen at its own level converts back to itself whenever that level is
      one toExpr accepts, which is every level but the product level; a primary made by
      toPrimaryExpr always does. */
  lemma TermToExprOwnLevel(e: Expr)
    ensures Own(e) != ProductL ==> TermToExpr(At(e, Own(e))) == Success(e)
    ensures TermToExpr(At(ToPrimaryExpr(e), PrimaryL)) == Success(ToPrimaryExpr(e))
    ensures TermToExpr(At(e, ProductL)).Failure?
  {
  }

  /** exprNodeToBoundsExprNode: the sum / product / primary chain of an expression
      rebuilt as bounds; only sums, the two wrappers below them, lookups and literals
      convert. */
  function ExprToBoundsNode(e: Expr, l: Level): (r: Outcome<Bounds>)
    decreases e, 8 - Rank(l)
  {
    if IsWrapper(e, l) && l == SumL then ExprToBoundsNode(e, ProductL)
    else if IsWrapper(e, l) && l == ProductL then ExprToBoundsNode(e, PrimaryL)
    else if !IsWrapper(e, l) && e.Sum? && l == SumL then
      var a :- ExprToBoundsNode(e.left, ProductL);
      var b :- ExprToBoundsNode(e.right, SumL);
      Success(BSum(a, e.op, b))
    else if !IsWrapper(e, l) && e.Lookup? then Success(BLookup(e.id))
    else if !IsWrapper(e, l) && e.Literal? then Success(BLit(e.lit))
    else Failure(Internal("Unable to convert class " + ClassName(At(e, l)) + " to bounds expr node"))
  }

  /** Conversion of lookups, literals and sums of them succeeds and prints the same
      tokens; a product, a parenthesis or any other operator does not convert. */
  lemma {:induction false} ExprToBoundsNodeText(e: Expr, l: Level)
    requires ExprToBoundsNode(e, l).Success?
    ensures RenderBounds(ExprToBoundsNode(e, l).value) == Render(e)
    ensures !e.Product? && !e.Paren?
    decreases e, 8 - Rank(l)
  {
    if IsWrapper(e, l) && l == SumL {
      ExprToBoundsNodeText(e, ProductL);
    } else if IsWrapper(e, l) && l == ProductL {
      ExprToBoundsNodeText(e, PrimaryL);
    } else if !IsWrapper(e, l) && e.Sum? && l == SumL {
      ExprToBoundsNodeText(e.left, ProductL);
      ExprToBoundsNodeText(e.right, SumL);
    }
  }

  /** toBoundsExpr(exprNodeToBoundsExprNode(t)): only a converted sum-level node is a
      complete bounds expression. */
  function TermToBounds(t: Term): (r: Outcome<Bounds>)
    requires !t.Null?
    ensures r.Success? ==> t.At? && t.level == SumL && r == ExprToBoundsNode(t.e, SumL)
  {
    if !t.At? then Failure(Internal("Unable to convert class " + ClassName(t) + " to bounds expr node"))
    else
      var b :- ExprToBoundsNode(t.e, t.level);
      if t.level == SumL then Success(b)
      else Failure(Internal("Unable to convert class " + ConvertedClassName(b, t.level) + " to bounds expr"))
  }

  /** The class of the bounds node exprNodeToBoundsExprNode builds for an expression
      converted below the sum level: the product wrapper, or the lookup or literal. */
  function ConvertedClassName(b: Bounds, l: Level): string
  {
    "com.amazon.quivela.parser.node." +
    if l == ProductL then "AExponentBoundsExprProductBoundsExpr"
    else if b.BLookup? then "ALookupPrimaryBoundsExpr"
    else "ALiteralPrimaryBoundsExpr"
  }

  /** A lookup converted below the sum level is a bounds node, but not a complete bounds
      expression, so toBoundsExpr raises; seen at the sum level it converts. */
  lemma PrimaryLookupNotBounds(x: string)
    ensures TermToBounds(At(Lookup(x), PrimaryL)).Failure?
    ensures TermToBounds(At(Lookup(x), ProductL)).Failure?
    ensures TermToBounds(At(Lookup(x), SumL)) == Success(BLookup(x))
  {
    assert ExprToBoundsNode(Lookup(x), PrimaryL) == Success(BLookup(x));
    assert ExprToBoundsNode(Lookup(x), ProductL) == Success(BLookup(x));
  }

  // ---------------------------------------------------------------------------
  // Declared function types
  // ---------------------------------------------------------------------------

  /** functionReturnType: Opaque, or Bitstring for a pure function, unless a return
      annotation overrides it. */
  function FunctionReturnType(f: FuncDecl): (r: Outcome<Type>)
    ensures f.returnType.None? ==> r == Success(if f.isPure then Bitstring else Opaque)
    ensures f.returnType.Some? ==> r == IdentifierAndTypeExtractor.SuffixType(f.returnType.value)
  {
    if f.returnType.Some? then IdentifierAndTypeExtractor.SuffixType(f.returnType.value)
    else Success(if f.isPure then Bitstring else Opaque)
  }

  /** The result and the parameters share one default, and an annotation is read back as
      the type it denotes: annotating a function's result with the annotation of a type
      makes that type its return type. An annotated result is never Opaque. */
  lemma FunctionReturnTypeAnnotated(f: FuncDecl, t: Type)
    ensures f.returnType.None? ==> FunctionReturnType(f) == Success(DefaultParamType(f))
    ensures f.returnType.Some? && FunctionReturnType(f).Success? ==> FunctionReturnType(f).value != Opaque
    ensures IdentifierAndTypeExtractor.Annotation(t).Some? ==>
      FunctionReturnType(f.(returnType := IdentifierAndTypeExtractor.Annotation(t))) == Success(t)
  {
    IdentifierAndTypeExtractor.SuffixTypeRoundTrip(t, if f.returnType.Some? then f.returnType.value else IntType);
  }

  /** The default of an unannotated parameter. */
  function DefaultParamType(f: FuncDecl): (r: Type)
  {
    if f.isPure then Bitstring else Opaque
  }

  /** The collected parameter types with every null replaced by the default. */
  function WithDefault(ts: seq<Option<Type>>, d: Type): (r: seq<Type>)
    ensures |r| == |ts|
    ensures forall i :: 0 <= i < |ts| ==> r[i] == if ts[i].Some? then ts[i].value else d
  {
    if ts == [] then [] else [if ts[0].Some? then ts[0].value else d] + WithDefault(ts[1..], d)
  }

  /** functionParameterTypes as a value. */
  function ParameterTypes(f: FuncDecl): (r: Outcome<seq<Type>>)
    ensures r.Success? <==> FormalParamsCollector.Collected(f.formals).Success?
    ensures r.Success? ==> |r.value| == |f.formals|
  {
    var c :- FormalParamsCollector.Collected(f.formals);
    Success(WithDefault(c.1, DefaultParamType(f)))
  }

  /** Each parameter's type is its annotation's type, or the default when it has none. */
  lemma ParameterTypeAt(f: FuncDecl, i: nat)
    requires ParameterTypes(f).Success? && i < |f.formals|
    ensures f.formals[i].annotation.None? ==> ParameterTypes(f).value[i] == DefaultParamType(f)
    ensures f.formals[i].annotation.Some? ==>
      Success(ParameterTypes(f).value[i]) == IdentifierAndTypeExtractor.SuffixType(f.formals[i].annotation.value)
  {
  }

  /** The in-place loop of functionParameterTypes: each null entry is set to the default. */
  method FunctionParameterTypes(f: FuncDecl) returns (r: Outcome<seq<Type>>)
    ensures r == ParameterTypes(f)
  {
    var collected := FormalParamsCollector.Collect(f.formals);
    if collected.Failure? {
      return Failure(collected.error);
    }
    var result := WithDefaultLoop(collected.value.1, DefaultParamType(f));
    r := Success(result);
  }

  /** The loop over the collected types, replacing each null by the default. */
  method WithDefaultLoop(types: seq<Option<Type>>, d: Type) returns (result: seq<Type>)
    ensures result == WithDefault(types, d)
  {
    result := [];
    var i := 0;
    while i < |types|
      invariant 0 <= i <= |types|
      invariant result == WithDefault(types[..i], d)
    {
      WithDefaultSnoc(types[..i], types[i], d);
      assert types[..i + 1] == types[..i] + [types[i]];
      result := result + [if types[i].Some? then types[i].value else d];
      i := i + 1;
    }
    assert types[..i] == types;
  }

  lemma WithDefaultSnoc(ts: seq<Option<Type>>, t: Option<Type>, d: Type)
    ensures WithDefault(ts + [t], d) == WithDefault(ts, d) + [if t.Some? then t.value else d]
  {
  }
}
