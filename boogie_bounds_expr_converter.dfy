/** BoogieBoundsExprConverter: the translation of a bounds expression (the distance of a
    hybrid step) into a Boogie term. Numbers stay integers until a real operand, a
    division or an exponent makes the term real; env terms become interned expression
    constants. The value stack is modelled by the recursion. */
module BoogieBoundsExprConverter {
  import opened Wrappers
  import opened Syntax
  import Types
  import opened BoogieTypes
  import opened BoogieValue
  import opened PrettyPrint
  import BoogieUtil
  import BoogieConstants
  import BoogieFunctions
  import SymbolTable
  import Util
  import BoogiePropConverter

  /** What the converter reads: the symbol table and the declared functions. */
  datatype Context = Context(symbols: SymbolTable.Scopes, functions: BoogieFunctions.Table)

  /** What it updates: the constants table and the stream the constant declarations
      go to. */
  datatype BState = BState(constants: BoogieConstants.Constants, out: Printer)

  /** The operator as Boogie writes it: `^` is `**`, the others are unchanged. */
  function Operator(op: string): (r: string)
    ensures op == "^" ==> r == "**"
    ensures op != "^" ==> r == op
  {
    if op == "^" then "**" else op
  }

  /** The type of a sum: real if either operand is real, otherwise integer. */
  function SumType(l: BoogieType, r: BoogieType): BoogieType
  {
    if l == Real || r == Real then Real else Integer
  }

  /** The type of a product: a division is always real, the other operators follow
      the rule of sums. */
  function ProductType(op: string, l: BoogieType, r: BoogieType): BoogieType
  {
    if op == "/" then Real else SumType(l, r)
  }

  /** Both operands coerced to the result type and combined with the operator. */
  function Arith(t: BoogieType, l: Value, op: string, r: Value): (v: Outcome<Value>)
    ensures v.Success? <==> GetValue(l, t).Success? && GetValue(r, t).Success?
    ensures v.Success? ==> v.value.t == t
  {
    var a :- GetValue(l, t);
    var b :- GetValue(r, t);
    Success(Value(t, "(" + a + Operator(op) + b + ")"))
  }

  /** An exponent: real_pow of the two operands coerced to reals. */
  function Power(l: Value, r: Value): (v: Outcome<Value>)
    ensures v.Success? <==> ToRealString(l).Success? && ToRealString(r).Success?
    ensures v.Success? ==> v.value.t == Real
  {
    var a :- ToRealString(l);
    var b :- ToRealString(r);
    Success(Value(Real, "real_pow(" + a + "," + b + ")"))
  }

  /** The text an env term is interned under. */
  function EnvText(b: Bounds): string
  {
    Text(RenderBounds(b))
  }

  /** The env terms of a bounds expression, in order of conversion. */
  function EnvTexts(b: Bounds): set<string>
  {
    match b
    case BLit(_) => {}
    case BLookup(_) => {}
    case BParen(x) => EnvTexts(x)
    case BFunc(_, args) => EnvTextsOfArgs(args)
    case BEnv(_) => {EnvText(b)}
    case BSum(l, _, r) => EnvTexts(l) + EnvTexts(r)
    case BProduct(l, _, r) => EnvTexts(l) + EnvTexts(r)
    case BExp(l, _, r) => EnvTexts(l) + EnvTexts(r)
  }

  function EnvTextsOfArgs(args: seq<Bounds>): set<string>
  {
    if args == [] then {} else EnvTexts(args[0]) + EnvTextsOfArgs(args[1..])
  }

  /** What every conversion keeps: a valid constants table stays valid, and only
      expression constants are added, exactly those of the given env terms. */
  predicate Interns(a: BState, b: BState, texts: set<string>)
  {
    (BoogieConstants.Valid(a.constants) ==> BoogieConstants.Valid(b.constants)) &&
    b.constants.exprs.Keys == a.constants.exprs.Keys + texts &&
    (forall k :: k in a.constants.exprs ==> b.constants.exprs[k] == a.constants.exprs[k]) &&
    b.constants.(exprs := a.constants.exprs) == a.constants
  }

  lemma InternsTransitive(a: BState, b: BState, c: BState, t1: set<string>, t2: set<string>)
    requires Interns(a, b, t1) && Interns(b, c, t2)
    ensures Interns(a, c, t1 + t2)
  {
  }

  /** An env term: its text is interned as an expression constant, which is its value. */
  function Intern(st: BState, text: string): (r: (Value, BState))
    ensures Interns(st, r.1, {text})
    ensures r.0.t == BoogieType.Expr && r.1.constants.exprs[text] == r.0.v
    ensures text in st.constants.exprs ==> r.1 == st && r.0.v == st.constants.exprs[text]
  {
    var added := BoogieConstants.AddExprValue(st.constants, text, st.out);
    assert Interns(st, BState(added.1, added.2), {text}) by {
      if BoogieConstants.Valid(st.constants) {
        BoogieConstants.AddExprSpec(st.constants, text, st.out);
      }
    }
    (Value(BoogieType.Expr, added.0), BState(added.1, added.2))
  }

  /** The value of a bounds expression and the state after it. */
  function Convert(ctx: Context, st: BState, b: Bounds): (r: Outcome<(Value, BState)>)
    ensures r.Success? ==> Interns(st, r.value.1, EnvTexts(b))
    ensures b.BLit? && b.lit.Numeric? ==> r == Success((Value(Integer, b.lit.digits), st))
    ensures b.BLit? && b.lit.Boolean? ==> r == Success((Value(BoogieType.Boolean, b.lit.word), st))
    ensures b.BLookup? ==> (r.Success? <==> SymbolTable.TypeOf(ctx.symbols, b.id).Some?)
    ensures b.BFunc? && BoogieFunctions.GetByName(ctx.functions, b.name).None? ==>
      r == InternalFail("function not declared: " + b.name)
    ensures b.BFunc? && r.Success? ==> BoogieFunctions.GetByName(ctx.functions, b.name).value.isPure
    decreases b
  {
    match b
    case BLit(lit) =>
      if lit.Numeric? then Success((Value(Integer, lit.digits), st))
      else Success((Value(BoogieType.Boolean, lit.word), st))
    case BLookup(id) =>
      var t :- BoogieUtil.ToBoogieTypeOf(SymbolTable.TypeOf(ctx.symbols, id));
      Success((Value(t, id), st))
    case BParen(x) => Convert(ctx, st, x)
    case BFunc(name, args) =>
      var d := BoogieFunctions.GetByName(ctx.functions, name);
      if d.None? then InternalFail("function not declared: " + name)
      else
        var decl := d.value;
        var ts :- Util.ParameterTypes(decl);
        var a :- ConvertArgs(ctx, st, args, ts);
        var ret :- Util.FunctionReturnType(decl);
        if decl.isPure then
          Success((Value(BoogieUtil.ToBoogieType(ret), name + "(" + BoogiePropConverter.Joined(a.0, ",") + ")"), a.1))
        else InternalFail("Only pure functions allowed in bounds expressions.")
    case BEnv(_) =>
      var i := Intern(st, EnvText(b));
      Success(i)
    case BSum(l, op, r) =>
      var x :- Convert(ctx, st, l);
      var y :- Convert(ctx, x.1, r);
      var v :- Arith(SumType(x.0.t, y.0.t), x.0, op, y.0);
      InternsTransitive(st, x.1, y.1, EnvTexts(l), EnvTexts(r));
      Success((v, y.1))
    case BProduct(l, op, r) =>
      var x :- Convert(ctx, st, l);
      var y :- Convert(ctx, x.1, r);
      var v :- Arith(ProductType(op, x.0.t, y.0.t), x.0, op, y.0);
      InternsTransitive(st, x.1, y.1, EnvTexts(l), EnvTexts(r));
      Success((v, y.1))
    case BExp(l, _, r) =>
      var x :- Convert(ctx, st, l);
      var y :- Convert(ctx, x.1, r);
      var v :- Power(x.0, y.0);
      InternsTransitive(st, x.1, y.1, EnvTexts(l), EnvTexts(r));
      Success((v, y.1))
  }

  /** The arguments of a call, each converted and then coerced to its formal's type;
      an argument beyond the formals raises once it is converted. */
  function ConvertArgs(ctx: Context, st: BState, args: seq<Bounds>, ts: seq<Types.Type>): (r: Outcome<(seq<string>, BState)>)
    ensures r.Success? ==> Interns(st, r.value.1, EnvTextsOfArgs(args))
    ensures r.Success? ==> |r.value.0| == |args| && |args| <= |ts|
    decreases args
  {
    if args == [] then Success(([], st))
    else
      var x :- Convert(ctx, st, args[0]);
      if ts == [] then InternalFail("IndexOutOfBoundsException")
      else
        var s :- GetValue(x.0, BoogieUtil.ToBoogieType(ts[0]));
        var rest :- ConvertArgs(ctx, x.1, args[1..], ts[1..]);
        InternsTransitive(st, x.1, rest.1, EnvTexts(args[0]), EnvTextsOfArgs(args[1..]));
        Success(([s] + rest.0, rest.1))
  }

  // ---------------------------------------------------------------------------
  // The type of a bounds term
  // ---------------------------------------------------------------------------

  /** The Boogie type of a bounds expression, computed from the expression, the
      symbol table and the declared functions alone. */
  function BoundsTag(ctx: Context, b: Bounds): Option<BoogieType>
  {
    match b
    case BLit(lit) => Some(if lit.Numeric? then Integer else BoogieType.Boolean)
    case BLookup(id) =>
      var t := SymbolTable.TypeOf(ctx.symbols, id);
      if t.Some? then Some(BoogieUtil.ToBoogieType(t.value)) else None
    case BParen(x) => BoundsTag(ctx, x)
    case BFunc(name, _) =>
      var d := BoogieFunctions.GetByName(ctx.functions, name);
      if d.Some? && Util.FunctionReturnType(d.value).Success?
      then Some(BoogieUtil.ToBoogieType(Util.FunctionReturnType(d.value).value)) else None
    case BEnv(_) => Some(BoogieType.Expr)
    case BSum(l, _, r) =>
      var a := BoundsTag(ctx, l);
      var c := BoundsTag(ctx, r);
      if a.Some? && c.Some? then Some(SumType(a.value, c.value)) else None
    case BProduct(l, op, r) =>
      var a := BoundsTag(ctx, l);
      var c := BoundsTag(ctx, r);
      if op == "/" then Some(Real)
      else if a.Some? && c.Some? then Some(SumType(a.value, c.value)) else None
    case BExp(_, _, _) => Some(Real)
  }

  /** The promotion rules: every successful conversion yields a value of the type the
      expression has on its own. In particular a sum or a product is real exactly when
      an operand is real or the product is a division, and an exponent is real. */
  lemma {:induction false} ConvertTag(ctx: Context, st: BState, b: Bounds)
    ensures var r := Convert(ctx, st, b);
      r.Success? ==> BoundsTag(ctx, b).Some? && r.value.0.t == BoundsTag(ctx, b).value
    decreases b
  {
    match b
    case BParen(x) => ConvertTag(ctx, st, x);
    case BSum(l, _, r) =>
      var x := Convert(ctx, st, l);
      ConvertTag(ctx, st, l);
      if x.Success? {
        ConvertTag(ctx, x.value.1, r);
      }
    case BProduct(l, _, r) =>
      var x := Convert(ctx, st, l);
      ConvertTag(ctx, st, l);
      if x.Success? {
        ConvertTag(ctx, x.value.1, r);
      }
    case _ =>
  }

  /** Converting the same env term twice, or two occurrences of it, yields one constant
      and declares it once. */
  lemma EnvInternedOnce(ctx: Context, st: BState, b: Bounds)
    requires b.BEnv? && BoogieConstants.Valid(st.constants)
    ensures var r := Convert(ctx, st, b);
      r.Success? && Convert(ctx, r.value.1, b) == Success((r.value.0, r.value.1))
  {
    var r := Convert(ctx, st, b);
    assert EnvText(b) in r.value.1.constants.exprs;
  }

  // ---------------------------------------------------------------------------
  // The converter object
  // ---------------------------------------------------------------------------

  /** The converter of a bounds expression, with its value stack. */
  class BoundsConverter {
    const ctx: Context
    var constants: BoogieConstants.Constants
    var out: Printer
    var values: seq<Value>

    constructor (ctx: Context, constants: BoogieConstants.Constants, out: Printer)
      ensures this.ctx == ctx && this.constants == constants && this.out == out && values == []
    {
      this.ctx := ctx;
      this.constants := constants;
      this.out := out;
      this.values := [];
    }

    /** apply: convert and push the value. A failing conversion raises and leaves the
        converter as it was. */
    method Apply(b: Bounds) returns (r: Outcome<Value>)
      modifies this
      ensures var c := Convert(ctx, old(BState(constants, out)), b);
        (c.Success? ==> r == Success(c.value.0) && BState(constants, out) == c.value.1 && values == [c.value.0] + old(values)) &&
        (c.Failure? ==> r == Failure(c.error) && constants == old(constants) && out == old(out) && values == old(values))
    {
      var c := Convert(ctx, BState(constants, out), b);
      if c.Failure? {
        return Failure(c.error);
      }
      constants, out := c.value.1.constants, c.value.1.out;
      values := [c.value.0] + values;
      r := Success(c.value.0);
    }

    /** getValue: the one value on the stack (None, Java null, when there is none). */
    method GetValue() returns (r: Outcome<Option<Value>>)
      ensures |values| > 1 <==> r == InternalFail("Values lost during conversion")
      ensures |values| <= 1 ==> r == Success(if values == [] then None else Some(values[0]))
    {
      if |values| > 1 {
        return InternalFail("Values lost during conversion");
      }
      r := Success(if values == [] then None else Some(values[0]));
    }
  }
}
