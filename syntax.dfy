/** Abstract syntax of the calculus the checker works on.

    The parser produces a SableCC tree in which every operator has its own grammar
    level (expr, logic, assign, bool, arith, sum, product, primary) and an expression of
    a tighter level sits in a looser slot through a chain of one-child wrapper nodes
    (AExpr, AAssignExprLogicExpr, ABoolAssignExpr, AArithExprBoolExpr, AArithExpr,
    AProductSumExpr, APrimaryExprProductExpr). Here each expression is stored once, as
    its innermost real node, and the wrapper chain is implicit: the node seen at level L
    for an expression e is a wrapper exactly when L is looser than e's own level. Every
    pass that looks at wrappers (the unifier, the substituter, the rewriter) takes the
    level as an explicit argument. */
module Syntax {
  import opened Wrappers

  /** Grammar levels, loosest first. */
  datatype Level = ExprL | LogicL | AssignL | BoolL | ArithL | SumL | ProductL | PrimaryL

  function Rank(l: Level): nat
  {
    match l
    case ExprL => 0
    case LogicL => 1
    case AssignL => 2
    case BoolL => 3
    case ArithL => 4
    case SumL => 5
    case ProductL => 6
    case PrimaryL => 7
  }

  function Next(l: Level): Level
    requires l != PrimaryL
  {
    match l
    case ExprL => LogicL
    case LogicL => AssignL
    case AssignL => BoolL
    case BoolL => ArithL
    case ArithL => SumL
    case SumL => ProductL
    case ProductL => PrimaryL
  }

  datatype Lit = Numeric(digits: string) | Boolean(word: string)

  /** Type annotations `: int`, `: bits`, `: real`, `: map`, `: expr`; any other type
      expression of the grammar is kept as its text. */
  datatype TypeExpr = IntType | BitsType | RealType | MapType | ExprType | OtherType(text: string)

  datatype FormalParam = FormalParam(id: string, annotation: Option<TypeExpr>)

  datatype Expr =
    // primary level
    | Lookup(id: string)
    | Literal(lit: Lit)
    | Func(name: string, args: seq<Expr>)
    | Invoke(target: Expr, methodName: string, args: seq<Expr>, classes: Option<seq<string>>)
    | New(classIdent: Option<string>, params: seq<NewParam>, methods: seq<MethodDef>)
    | Paren(exprLabel: Option<string>, inner: Expr)
    | Ref(inner: Expr)
    | MapLookup(mapExpr: Expr, index: Expr)
    | MapUpdate(mapExpr: Expr, index: Expr, value: Expr)
    | Hole
    | DotDotDot
    | ToBits(inner: Expr)
    | Assert(prop: Prop)
    | Admit(prop: Prop)
    // product level: left is a primary, right a product
    | Product(left: Expr, op: string, right: Expr)
    // sum level: left is a product, right a sum
    | Sum(left: Expr, op: string, right: Expr)
    // bool level: left is an arith (sum), right a bool
    | RelOp(left: Expr, op: string, right: Expr)
    | Not(inner: Expr)
    // assign level: the value is a bool
    | Assign(variable: string, value: Expr)
    // logic level: left is an assign, right a logic
    | Seq(left: Expr, right: Expr)
    | LogicOp(left: Expr, op: string, right: Expr)
    | Ternary(test: Expr, ifso: Expr, ifnot: Expr)

  /** A constructor parameter `id := value` of a `new` expression. */
  datatype NewParam = NewParam(id: string, value: Expr)

  /** A method of a `new` expression; the body may be absent. */
  datatype MethodDef = MethodDef(name: string, formals: seq<FormalParam>, body: Option<Expr>)

  /** Propositions of assert/admit, bisimulation invariants and facts. */
  datatype Prop =
    | FieldsEqualPositional
    | FieldsEqualExcept(except: Option<seq<string>>)
    | PToBits(p: Prop)
    | IsBits(p: Prop)
    | PEnv(params: seq<Expr>)
    | ObjEq(left: Prop, right: Prop)
    | PLiteral(lit: Lit)
    | PSum(left: Prop, op: string, right: Prop)
    | PProduct(left: Prop, op: string, right: Prop)
    | Independence(heap: Prop, left: Prop, right: Prop)
    | ObjectIs(obj: Prop, classId: string)
    | FrameAll
    | Frame(left: Prop, right: Prop)
    | FrameHeap(leftHeap: Prop, rightHeap: Prop, left: Prop, right: Prop)
    | FromHeapHeap(heap: Prop, ref: Prop)
    | ObjLr(side: string)
    | HeapLr(side: string)
    | FromHeapObject(heap: Prop, ref: Prop)
    | PLookup(id: string)
    | PFunc(name: string, args: seq<Prop>)
    | PParen(p: Prop)
    | PMapLookup(mapProp: Prop, index: Prop)
    | PMapUpdate(mapProp: Prop, index: Prop, value: Prop)
    | ObjectLookup(obj: Prop, field: string)
    | PRelOp(left: Prop, op: string, right: Prop)
    | Quantified(isForall: bool, formals: seq<FormalParam>, body: Prop)
    | PLogicOp(left: Prop, op: string, right: Prop)
    | PNot(p: Prop)

  /** The scope clause of a bisimulation property: it holds as an invariant, or at a pair
      of checkpoints named by their labels on the left and the right. */
  datatype BisimScope = InvariantScope | CheckpointScope(leftLabel: string, rightLabel: string)

  /** A property of a bisim tactic with its optional scope clause. */
  datatype BisimProp = BisimProp(prop: Prop, scopes: Option<seq<BisimScope>>)

  /** Bounds (distance) expressions. */
  datatype Bounds =
    | BLit(lit: Lit)
    | BLookup(id: string)
    | BParen(inner: Bounds)
    | BFunc(name: string, args: seq<Bounds>)
    | BEnv(params: seq<Expr>)
    | BSum(left: Bounds, op: string, right: Bounds)
    | BProduct(left: Bounds, op: string, right: Bounds)
    | BExp(left: Bounds, op: string, right: Bounds)

  /** A function declaration: `pure` / `static` modifiers, formals, optional return type
      annotation and optional body. */
  datatype FuncDecl = FuncDecl(name: string, isPure: bool, isStatic: bool, formals: seq<FormalParam>,
                               returnType: Option<TypeExpr>, body: Option<Expr>)

  /** A parser node as the unifier and the substituter handle it: an expression seen at
      a level, the AFuncExpr inside a function-call primary, the AAssignAssignValue of an
      assignment, an identifier token, an expression label, or Java null. */
  datatype Term =
    | Null
    | At(e: Expr, level: Level)
    | FuncNode(name: string, args: seq<Expr>)
    | AssignValue(value: Expr)
    | Ident(id: string)
    | LabelNode(name: string)

  function LabelTerm(l: Option<string>): Term
  {
    if l.Some? then LabelNode(l.value) else Null
  }

  /** The level of e's own (non-wrapper) node. */
  function Own(e: Expr): Level
  {
    match e
    case Product(_, _, _) => ProductL
    case Sum(_, _, _) => SumL
    case RelOp(_, _, _) => BoolL
    case Not(_) => BoolL
    case Assign(_, _) => AssignL
    case Seq(_, _) => LogicL
    case LogicOp(_, _, _) => LogicL
    case Ternary(_, _, _) => LogicL
    case _ => PrimaryL
  }

  /** The node for e seen at level l is a wrapper node. */
  predicate IsWrapper(e: Expr, l: Level)
  {
    Rank(l) < Rank(Own(e))
  }

  /** e may stand at level l, with every child in a slot it may stand in. */
  predicate Fits(e: Expr, l: Level)
  {
    Rank(l) <= Rank(Own(e)) &&
    match e
    case Func(_, args) => forall i :: 0 <= i < |args| ==> Fits(args[i], ExprL)
    case Invoke(t, _, args, _) => Fits(t, PrimaryL) && forall i :: 0 <= i < |args| ==> Fits(args[i], ExprL)
    case New(_, ps, ms) =>
      (forall i :: 0 <= i < |ps| ==> Fits(ps[i].value, ExprL)) &&
      (forall i :: 0 <= i < |ms| ==> ms[i].body.Some? ==> Fits(ms[i].body.value, ExprL))
    case Paren(_, x) => Fits(x, ExprL)
    case Ref(x) => Fits(x, ExprL)
    case MapLookup(m, i) => Fits(m, PrimaryL) && Fits(i, ExprL)
    case MapUpdate(m, i, v) => Fits(m, PrimaryL) && Fits(i, ExprL) && Fits(v, ExprL)
    case ToBits(x) => Fits(x, ExprL)
    case Product(a, _, b) => Fits(a, PrimaryL) && Fits(b, ProductL)
    case Sum(a, _, b) => Fits(a, ProductL) && Fits(b, SumL)
    case RelOp(a, _, b) => Fits(a, ArithL) && Fits(b, BoolL)
    case Not(x) => Fits(x, BoolL)
    case Assign(_, v) => Fits(v, BoolL)
    case Seq(a, b) => Fits(a, AssignL) && Fits(b, LogicL)
    case LogicOp(a, _, b) => Fits(a, AssignL) && Fits(b, LogicL)
    case Ternary(c, a, b) => Fits(c, AssignL) && Fits(a, ExprL) && Fits(b, ExprL)
    case _ => true
  }

  /** The simple name of the parser class of the node seen at a level. */
  function NodeName(e: Expr, l: Level): string
  {
    if IsWrapper(e, l) then
      match l
      case ExprL => "AExpr"
      case LogicL => "AAssignExprLogicExpr"
      case AssignL => "ABoolAssignExpr"
      case BoolL => "AArithExprBoolExpr"
      case ArithL => "AArithExpr"
      case SumL => "AProductSumExpr"
      case ProductL => "APrimaryExprProductExpr"
      case PrimaryL => "APrimaryExprProductExpr"
    else
      match e
      case Lookup(_) => "ALookupPrimaryExpr"
      case Literal(_) => "ALiteralPrimaryExpr"
      case Func(_, _) => "AFuncExprPrimaryExpr"
      case Invoke(_, _, _, _) => "AInvokeExprPrimaryExpr"
      case New(_, _, _) => "ANewExprPrimaryExpr"
      case Paren(_, _) => "AQuantPrimaryExpr"
      case Ref(_) => "ARefPrimaryExpr"
      case MapLookup(_, _) => "AMapLookupPrimaryExpr"
      case MapUpdate(_, _, _) => "AMapUpdatePrimaryExpr"
      case Hole => "AHolePrimaryExpr"
      case DotDotDot => "ADotdotdotPrimaryExpr"
      case ToBits(_) => "ATobitsPrimaryExpr"
      case Assert(_) => "AAssertPrimaryExpr"
      case Admit(_) => "AAdmitPrimaryExpr"
      case Product(_, _, _) => "AProductProductExpr"
      case Sum(_, _, _) => "ASumSumExpr"
      case RelOp(_, _, _) => "ARelOpBoolExpr"
      case Not(_) => "ANotBoolExpr"
      case Assign(_, _) => "AAssignAssignExpr"
      case Seq(_, _) => "ASequenceLogicExpr"
      case LogicOp(_, _, _) => "ALogicOpLogicExpr"
      case Ternary(_, _, _) => "ATernaryOpLogicExpr"
  }

  /** Java's Class.getName() of a term's node. */
  function ClassName(t: Term): string
    requires !t.Null?
  {
    "com.amazon.quivela.parser.node." +
    match t
    case At(e, l) => NodeName(e, l)
    case FuncNode(_, _) => "AFuncExpr"
    case AssignValue(_) => "AAssignAssignValue"
    case Ident(_) => "TIdentifier"
    case LabelNode(_) => "AExprLabel"
  }

  // ---------------------------------------------------------------------------
  // Rendering. Util.equals compares the parser nodes' printed text, which is the
  // sequence of the node's tokens; wrapper nodes have no tokens, so the text of an
  // expression does not depend on the level it is seen at.
  // ---------------------------------------------------------------------------

  type Tokens = seq<string>

  /** A node's printed text (its toString): each token followed by one space. */
  function Text(ts: Tokens): string
  {
    if ts == [] then "" else ts[0] + " " + Text(ts[1..])
  }

  /** toString().trim(): the tokens separated by single spaces (the tokens themselves
      carry no surrounding white space). */
  function TrimmedText(ts: Tokens): string
  {
    if ts == [] then "" else if |ts| == 1 then ts[0] else ts[0] + " " + TrimmedText(ts[1..])
  }

  /** Trimming removes exactly the space that ends a node's text. */
  lemma {:induction false} TextTrimmed(ts: Tokens)
    requires ts != []
    ensures Text(ts) == TrimmedText(ts) + " "
  {
    if |ts| > 1 {
      TextTrimmed(ts[1..]);
    } else {
      assert ts[1..] == [];
    }
  }

  function RenderLit(l: Lit): Tokens
  {
    match l
    case Numeric(d) => [d]
    case Boolean(w) => [w]
  }

  function Join(parts: seq<Tokens>): Tokens
  {
    if parts == [] then []
    else if |parts| == 1 then parts[0]
    else parts[0] + [","] + Join(parts[1..])
  }

  function RenderIds(ids: seq<string>): Tokens
  {
    if ids == [] then []
    else if |ids| == 1 then [ids[0]]
    else [ids[0], ","] + RenderIds(ids[1..])
  }

  function RenderType(t: TypeExpr): Tokens
  {
    match t
    case IntType => ["int"]
    case BitsType => ["bits"]
    case RealType => ["real"]
    case MapType => ["map"]
    case ExprType => ["expr"]
    case OtherType(text) => [text]
  }

  function RenderFormal(f: FormalParam): Tokens
  {
    [f.id] + if f.annotation.Some? then [":"] + RenderType(f.annotation.value) else []
  }

  function RenderFormals(fs: seq<FormalParam>): Tokens
  {
    if fs == [] then []
    else if |fs| == 1 then RenderFormal(fs[0])
    else RenderFormal(fs[0]) + [","] + RenderFormals(fs[1..])
  }

  function Render(e: Expr): Tokens
  {
    match e
    case Lookup(x) => [x]
    case Literal(l) => RenderLit(l)
    case Func(n, args) => [n, "("] + RenderArgs(args) + [")"]
    case Invoke(t, m, args, cls) =>
      Render(t) + [".", m] + (if cls.Some? then ["<"] + RenderIds(cls.value) + [">"] else [])
      + ["("] + RenderArgs(args) + [")"]
    case New(c, ps, ms) =>
      ["new"] + (if c.Some? then ["[", c.value, "]"] else []) + ["("] + RenderParams(ps) + [")"]
      + ["{"] + RenderMethods(ms) + ["}"]
    case Paren(lbl, x) => (if lbl.Some? then [lbl.value, ":"] else []) + ["("] + Render(x) + [")"]
    case Ref(x) => ["ref", "("] + Render(x) + [")"]
    case MapLookup(m, i) => Render(m) + ["["] + Render(i) + ["]"]
    case MapUpdate(m, i, v) => Render(m) + ["["] + Render(i) + ["=>"] + Render(v) + ["]"]
    case Hole => ["[]"]
    case DotDotDot => ["..."]
    case ToBits(x) => ["tobits", "("] + Render(x) + [")"]
    case Assert(p) => ["assert", "("] + RenderProp(p) + [")"]
    case Admit(p) => ["admit", "("] + RenderProp(p) + [")"]
    case Product(a, op, b) => Render(a) + [op] + Render(b)
    case Sum(a, op, b) => Render(a) + [op] + Render(b)
    case RelOp(a, op, b) => Render(a) + [op] + Render(b)
    case Not(x) => ["!"] + Render(x)
    case Assign(t, v) => [t, ":="] + Render(v)
    case Seq(a, b) => Render(a) + [";"] + Render(b)
    case LogicOp(a, op, b) => Render(a) + [op] + Render(b)
    case Ternary(c, a, b) => Render(c) + ["?"] + Render(a) + [":"] + Render(b)
  }

  function RenderArgs(args: seq<Expr>): Tokens
  {
    if args == [] then []
    else if |args| == 1 then Render(args[0])
    else Render(args[0]) + [","] + RenderArgs(args[1..])
  }

  function RenderParams(ps: seq<NewParam>): Tokens
  {
    if ps == [] then []
    else
      [ps[0].id, ":="] + Render(ps[0].value) + (if |ps| == 1 then [] else [","] + RenderParams(ps[1..]))
  }

  function RenderMethods(ms: seq<MethodDef>): Tokens
  {
    if ms == [] then []
    else
      ["method", ms[0].name, "("] + RenderFormals(ms[0].formals) + [")"]
      + (if ms[0].body.Some? then ["{"] + Render(ms[0].body.value) + ["}"] else [])
      + RenderMethods(ms[1..])
  }

  function RenderProp(p: Prop): Tokens
  {
    match p
    case FieldsEqualPositional => ["fieldsEqual"]
    case FieldsEqualExcept(ex) => ["fieldsEqualExcept"] + (if ex.Some? then ["("] + RenderIds(ex.value) + [")"] else [])
    case PToBits(q) => ["tobits", "("] + RenderProp(q) + [")"]
    case IsBits(q) => ["isbits", "("] + RenderProp(q) + [")"]
    case PEnv(ps) => ["env"] + RenderEnvParams(ps)
    case ObjEq(a, b) => ["objeq", "("] + RenderProp(a) + [","] + RenderProp(b) + [")"]
    case PLiteral(l) => RenderLit(l)
    case PSum(a, op, b) => RenderProp(a) + [op] + RenderProp(b)
    case PProduct(a, op, b) => RenderProp(a) + [op] + RenderProp(b)
    case Independence(h, a, b) => ["independent", "("] + RenderProp(h) + [","] + RenderProp(a) + [","] + RenderProp(b) + [")"]
    case ObjectIs(o, c) => ["objectIs", "("] + RenderProp(o) + [",", c, ")"]
    case FrameAll => ["frameAll"]
    case Frame(a, b) => ["frame", "("] + RenderProp(a) + [","] + RenderProp(b) + [")"]
    case FrameHeap(h1, h2, a, b) =>
      ["frame", "("] + RenderProp(h1) + [","] + RenderProp(h2) + [","] + RenderProp(a) + [","] + RenderProp(b) + [")"]
    case FromHeapHeap(h, r) => ["fromHeap", "("] + RenderProp(h) + [","] + RenderProp(r) + [")"]
    case ObjLr(s) => [s]
    case HeapLr(s) => ["heap", s]
    case FromHeapObject(h, r) => ["fromHeapObject", "("] + RenderProp(h) + [","] + RenderProp(r) + [")"]
    case PLookup(x) => [x]
    case PFunc(n, args) => [n, "("] + RenderPropArgs(args) + [")"]
    case PParen(q) => ["("] + RenderProp(q) + [")"]
    case PMapLookup(m, i) => RenderProp(m) + ["["] + RenderProp(i) + ["]"]
    case PMapUpdate(m, i, v) => RenderProp(m) + ["["] + RenderProp(i) + ["=>"] + RenderProp(v) + ["]"]
    case ObjectLookup(o, f) => RenderProp(o) + [".", f]
    case PRelOp(a, op, b) => RenderProp(a) + [op] + RenderProp(b)
    case Quantified(all, fs, body) => [if all then "forall" else "exists"] + RenderFormals(fs) + ["."] + RenderProp(body)
    case PLogicOp(a, op, b) => RenderProp(a) + [op] + RenderProp(b)
    case PNot(q) => ["!"] + RenderProp(q)
  }

  function RenderPropArgs(args: seq<Prop>): Tokens
  {
    if args == [] then []
    else if |args| == 1 then RenderProp(args[0])
    else RenderProp(args[0]) + [","] + RenderPropArgs(args[1..])
  }

  function RenderEnvParams(ps: seq<Expr>): Tokens
  {
    if ps == [] then [] else ["("] + Render(ps[0]) + [")"] + RenderEnvParams(ps[1..])
  }

  function RenderBounds(b: Bounds): Tokens
  {
    match b
    case BLit(l) => RenderLit(l)
    case BLookup(x) => [x]
    case BParen(x) => ["("] + RenderBounds(x) + [")"]
    case BFunc(n, args) => [n, "("] + RenderBoundsArgs(args) + [")"]
    case BEnv(ps) => ["env"] + RenderEnvParams(ps)
    case BSum(a, op, c) => RenderBounds(a) + [op] + RenderBounds(c)
    case BProduct(a, op, c) => RenderBounds(a) + [op] + RenderBounds(c)
    case BExp(a, op, c) => RenderBounds(a) + [op] + RenderBounds(c)
  }

  function RenderBoundsArgs(args: seq<Bounds>): Tokens
  {
    if args == [] then []
    else if |args| == 1 then RenderBounds(args[0])
    else RenderBounds(args[0]) + [","] + RenderBoundsArgs(args[1..])
  }

  /** The printed text of a term; None for Java null. */
  function RenderTerm(t: Term): Option<Tokens>
  {
    match t
    case Null => None
    case At(e, _) => Some(Render(e))
    case FuncNode(n, args) => Some(Render(Func(n, args)))
    case AssignValue(v) => Some([":="] + Render(v))
    case Ident(x) => Some([x])
    case LabelNode(x) => Some([x, ":"])
  }

  // ---------------------------------------------------------------------------
  // Identifier tokens: every TIdentifier below a node, whatever its role (variable,
  // function, method, field, label, class or parameter name).
  // ---------------------------------------------------------------------------

  function Identifiers(e: Expr): set<string>
  {
    match e
    case Lookup(x) => {x}
    case Literal(_) => {}
    case Func(n, args) => {n} + IdentifiersOfArgs(args)
    case Invoke(t, m, args, cls) =>
      Identifiers(t) + {m} + IdentifiersOfArgs(args) + (if cls.Some? then SetOf(cls.value) else {})
    case New(c, ps, ms) =>
      (if c.Some? then {c.value} else {}) + IdentifiersOfParams(ps) + IdentifiersOfMethods(ms)
    case Paren(lbl, x) => (if lbl.Some? then {lbl.value} else {}) + Identifiers(x)
    case Ref(x) => Identifiers(x)
    case MapLookup(m, i) => Identifiers(m) + Identifiers(i)
    case MapUpdate(m, i, v) => Identifiers(m) + Identifiers(i) + Identifiers(v)
    case Hole => {}
    case DotDotDot => {}
    case ToBits(x) => Identifiers(x)
    case Assert(p) => IdentifiersOfProp(p)
    case Admit(p) => IdentifiersOfProp(p)
    case Product(a, _, b) => Identifiers(a) + Identifiers(b)
    case Sum(a, _, b) => Identifiers(a) + Identifiers(b)
    case RelOp(a, _, b) => Identifiers(a) + Identifiers(b)
    case Not(x) => Identifiers(x)
    case Assign(t, v) => {t} + Identifiers(v)
    case Seq(a, b) => Identifiers(a) + Identifiers(b)
    case LogicOp(a, _, b) => Identifiers(a) + Identifiers(b)
    case Ternary(c, a, b) => Identifiers(c) + Identifiers(a) + Identifiers(b)
  }

  function SetOf(ids: seq<string>): set<string>
  {
    set i | 0 <= i < |ids| :: ids[i]
  }

  function IdentifiersOfArgs(args: seq<Expr>): set<string>
  {
    if args == [] then {} else Identifiers(args[0]) + IdentifiersOfArgs(args[1..])
  }

  function IdentifiersOfParams(ps: seq<NewParam>): set<string>
  {
    if ps == [] then {} else {ps[0].id} + Identifiers(ps[0].value) + IdentifiersOfParams(ps[1..])
  }

  function IdentifiersOfMethods(ms: seq<MethodDef>): set<string>
  {
    if ms == [] then {}
    else
      {ms[0].name} + SetOf(FormalIds(ms[0].formals))
      + (if ms[0].body.Some? then Identifiers(ms[0].body.value) else {})
      + IdentifiersOfMethods(ms[1..])
  }

  function FormalIds(fs: seq<FormalParam>): seq<string>
  {
    if fs == [] then [] else [fs[0].id] + FormalIds(fs[1..])
  }

  function IdentifiersOfProp(p: Prop): set<string>
  {
    match p
    case FieldsEqualPositional => {}
    case FieldsEqualExcept(ex) => if ex.Some? then SetOf(ex.value) else {}
    case PToBits(q) => IdentifiersOfProp(q)
    case IsBits(q) => IdentifiersOfProp(q)
    case PEnv(ps) => IdentifiersOfArgs(ps)
    case ObjEq(a, b) => IdentifiersOfProp(a) + IdentifiersOfProp(b)
    case PLiteral(_) => {}
    case PSum(a, _, b) => IdentifiersOfProp(a) + IdentifiersOfProp(b)
    case PProduct(a, _, b) => IdentifiersOfProp(a) + IdentifiersOfProp(b)
    case Independence(h, a, b) => IdentifiersOfProp(h) + IdentifiersOfProp(a) + IdentifiersOfProp(b)
    case ObjectIs(o, c) => IdentifiersOfProp(o) + {c}
    case FrameAll => {}
    case Frame(a, b) => IdentifiersOfProp(a) + IdentifiersOfProp(b)
    case FrameHeap(h1, h2, a, b) =>
      IdentifiersOfProp(h1) + IdentifiersOfProp(h2) + IdentifiersOfProp(a) + IdentifiersOfProp(b)
    case FromHeapHeap(h, r) => IdentifiersOfProp(h) + IdentifiersOfProp(r)
    case ObjLr(_) => {}
    case HeapLr(_) => {}
    case FromHeapObject(h, r) => IdentifiersOfProp(h) + IdentifiersOfProp(r)
    case PLookup(x) => {x}
    case PFunc(n, args) => {n} + IdentifiersOfPropArgs(args)
    case PParen(q) => IdentifiersOfProp(q)
    case PMapLookup(m, i) => IdentifiersOfProp(m) + IdentifiersOfProp(i)
    case PMapUpdate(m, i, v) => IdentifiersOfProp(m) + IdentifiersOfProp(i) + IdentifiersOfProp(v)
    case ObjectLookup(o, f) => IdentifiersOfProp(o) + {f}
    case PRelOp(a, _, b) => IdentifiersOfProp(a) + IdentifiersOfProp(b)
    case Quantified(_, fs, body) => SetOf(FormalIds(fs)) + IdentifiersOfProp(body)
    case PLogicOp(a, _, b) => IdentifiersOfProp(a) + IdentifiersOfProp(b)
    case PNot(q) => IdentifiersOfProp(q)
  }

  function IdentifiersOfPropArgs(args: seq<Prop>): set<string>
  {
    if args == [] then {} else IdentifiersOfProp(args[0]) + IdentifiersOfPropArgs(args[1..])
  }

  /** Identifier tokens of a term (Unifier.IdentifierCollector). */
  function TermIdentifiers(t: Term): set<string>
  {
    match t
    case Null => {}
    case At(e, _) => Identifiers(e)
    case FuncNode(n, args) => Identifiers(Func(n, args))
    case AssignValue(v) => Identifiers(v)
    case Ident(x) => {x}
    case LabelNode(x) => {x}
  }

  // ---------------------------------------------------------------------------
  // The sub-propositions of a proposition, in source order
  // ---------------------------------------------------------------------------

  /** The immediate sub-propositions of p, left to right (env parameters, which are
      expressions, are not among them). */
  function PropChildren(p: Prop): (cs: seq<Prop>)
    ensures forall i :: 0 <= i < |cs| ==> cs[i] < p
  {
    match p
    case PToBits(q) => [q]
    case IsBits(q) => [q]
    case ObjEq(a, b) => [a, b]
    case PSum(a, _, b) => [a, b]
    case PProduct(a, _, b) => [a, b]
    case Independence(h, a, b) => [h, a, b]
    case ObjectIs(o, _) => [o]
    case Frame(a, b) => [a, b]
    case FrameHeap(h1, h2, a, b) => [h1, h2, a, b]
    case FromHeapHeap(h, r) => [h, r]
    case FromHeapObject(h, r) => [h, r]
    case PFunc(_, args) => args
    case PParen(q) => [q]
    case PMapLookup(m, i) => [m, i]
    case PMapUpdate(m, i, v) => [m, i, v]
    case ObjectLookup(o, _) => [o]
    case PRelOp(a, _, b) => [a, b]
    case Quantified(_, _, body) => [body]
    case PLogicOp(a, _, b) => [a, b]
    case PNot(q) => [q]
    case _ => []
  }

  /** p with its immediate sub-propositions replaced, in order, by cs. */
  function WithPropChildren(p: Prop, cs: seq<Prop>): (r: Prop)
    ensures |cs| == |PropChildren(p)| ==> PropChildren(r) == cs
    ensures p.PEnv? <==> r.PEnv?
    ensures p.Quantified? ==> r.Quantified? && r.formals == p.formals
  {
    if |cs| != |PropChildren(p)| then p
    else match p
    case PToBits(_) => PToBits(cs[0])
    case IsBits(_) => IsBits(cs[0])
    case ObjEq(_, _) => ObjEq(cs[0], cs[1])
    case PSum(_, op, _) => PSum(cs[0], op, cs[1])
    case PProduct(_, op, _) => PProduct(cs[0], op, cs[1])
    case Independence(_, _, _) => Independence(cs[0], cs[1], cs[2])
    case ObjectIs(_, c) => ObjectIs(cs[0], c)
    case Frame(_, _) => Frame(cs[0], cs[1])
    case FrameHeap(_, _, _, _) => FrameHeap(cs[0], cs[1], cs[2], cs[3])
    case FromHeapHeap(_, _) => FromHeapHeap(cs[0], cs[1])
    case FromHeapObject(_, _) => FromHeapObject(cs[0], cs[1])
    case PFunc(n, _) => PFunc(n, cs)
    case PParen(_) => PParen(cs[0])
    case PMapLookup(_, _) => PMapLookup(cs[0], cs[1])
    case PMapUpdate(_, _, _) => PMapUpdate(cs[0], cs[1], cs[2])
    case ObjectLookup(_, f) => ObjectLookup(cs[0], f)
    case PRelOp(_, op, _) => PRelOp(cs[0], op, cs[1])
    case Quantified(q, fs, _) => Quantified(q, fs, cs[0])
    case PLogicOp(_, op, _) => PLogicOp(cs[0], op, cs[1])
    case PNot(_) => PNot(cs[0])
    case _ => p
  }

  lemma WithOwnPropChildren(p: Prop)
    ensures WithPropChildren(p, PropChildren(p)) == p
  {
  }

  lemma WithPropChildrenTwice(p: Prop, a: seq<Prop>, b: seq<Prop>)
    requires |a| == |b| == |PropChildren(p)|
    ensures WithPropChildren(WithPropChildren(p, a), b) == WithPropChildren(p, b)
  {
    match p
    case PToBits(_) =>
    case IsBits(_) =>
    case ObjEq(_, _) =>
    case PSum(_, _, _) =>
    case PProduct(_, _, _) =>
    case Independence(_, _, _) =>
    case ObjectIs(_, _) =>
    case Frame(_, _) =>
    case FrameHeap(_, _, _, _) =>
    case FromHeapHeap(_, _) =>
    case FromHeapObject(_, _) =>
    case PFunc(_, _) =>
    case PParen(_) =>
    case PMapLookup(_, _) =>
    case PMapUpdate(_, _, _) =>
    case ObjectLookup(_, _) =>
    case PRelOp(_, _, _) =>
    case Quantified(_, _, _) =>
    case PLogicOp(_, _, _) =>
    case PNot(_) =>
    case _ =>
  }

  // ---------------------------------------------------------------------------
  // Identifiers of the parts of a tree are identifiers of the tree
  // ---------------------------------------------------------------------------

  lemma {:induction false} ArgIdentifiers(args: seq<Expr>, i: nat)
    requires i < |args|
    ensures Identifiers(args[i]) <= IdentifiersOfArgs(args)
    decreases i
  {
    if i > 0 {
      ArgIdentifiers(args[1..], i - 1);
      assert args[1..][i - 1] == args[i];
    }
  }

  lemma {:induction false} ParamIdentifiers(ps: seq<NewParam>, i: nat)
    requires i < |ps|
    ensures Identifiers(ps[i].value) <= IdentifiersOfParams(ps)
    ensures ps[i].id in IdentifiersOfParams(ps)
    decreases i
  {
    if i > 0 {
      ParamIdentifiers(ps[1..], i - 1);
      assert ps[1..][i - 1] == ps[i];
    }
  }

  lemma {:induction false} MethodIdentifiers(ms: seq<MethodDef>, i: nat)
    requires i < |ms|
    ensures ms[i].body.Some? ==> Identifiers(ms[i].body.value) <= IdentifiersOfMethods(ms)
    ensures ms[i].name in IdentifiersOfMethods(ms)
    decreases i
  {
    if i > 0 {
      MethodIdentifiers(ms[1..], i - 1);
      assert ms[1..][i - 1] == ms[i];
    }
  }

  lemma {:induction false} PropArgIdentifiers(args: seq<Prop>, i: nat)
    requires i < |args|
    ensures IdentifiersOfProp(args[i]) <= IdentifiersOfPropArgs(args)
    decreases i
  {
    if i > 0 {
      PropArgIdentifiers(args[1..], i - 1);
      assert args[1..][i - 1] == args[i];
    }
  }

  lemma PropChildIdentifiers(p: Prop, i: nat)
    requires i < |PropChildren(p)|
    ensures IdentifiersOfProp(PropChildren(p)[i]) <= IdentifiersOfProp(p)
  {
    if p.PFunc? {
      PropArgIdentifiers(p.args, i);
    }
  }

  lemma EnvParamIdentifiers(p: Prop, i: nat)
    requires p.PEnv? && i < |p.params|
    ensures Identifiers(p.params[i]) <= IdentifiersOfProp(p)
  {
    ArgIdentifiers(p.params, i);
  }

  // ---------------------------------------------------------------------------
  // The sub-expressions of an expression, in source order
  // ---------------------------------------------------------------------------

  function ParamValues(ps: seq<NewParam>): (r: seq<Expr>)
    ensures |r| == |ps| && forall i :: 0 <= i < |ps| ==> r[i] == ps[i].value
  {
    seq(|ps|, i requires 0 <= i < |ps| => ps[i].value)
  }

  /** The bodies of the methods that have one, in order. */
  function Bodies(ms: seq<MethodDef>): (r: seq<Expr>)
    ensures forall i :: 0 <= i < |r| ==> exists j :: 0 <= j < |ms| && ms[j].body == Some(r[i])
  {
    if ms == [] then []
    else
      var rest := Bodies(ms[1..]);
      assert forall i :: 0 <= i < |rest| ==> exists j :: 0 <= j < |ms| && ms[j].body == Some(rest[i]) by {
        forall i | 0 <= i < |rest| ensures exists j :: 0 <= j < |ms| && ms[j].body == Some(rest[i]) {
          var j :| 0 <= j < |ms[1..]| && ms[1..][j].body == Some(rest[i]);
          assert ms[j + 1].body == Some(rest[i]);
        }
      }
      if ms[0].body.Some? then [ms[0].body.value] + rest else rest
  }

  /** The immediate sub-expressions of e, left to right: for a `new`, the parameter
      values and then the method bodies (propositions are not among them). */
  function ExprChildren(e: Expr): (cs: seq<Expr>)
    ensures forall i :: 0 <= i < |cs| ==> cs[i] < e
  {
    match e
    case Func(_, args) => args
    case Invoke(t, _, args, _) => [t] + args
    case New(_, ps, ms) =>
      var vs := ParamValues(ps);
      var bs := Bodies(ms);
      assert forall i :: 0 <= i < |vs| ==> vs[i] < e by {
        forall i | 0 <= i < |vs| ensures vs[i] < e {
          assert vs[i] == ps[i].value;
        }
      }
      vs + bs
    case Paren(_, x) => [x]
    case Ref(x) => [x]
    case ToBits(x) => [x]
    case Not(x) => [x]
    case Assign(_, v) => [v]
    case MapLookup(m, i) => [m, i]
    case MapUpdate(m, i, v) => [m, i, v]
    case Product(a, _, b) => [a, b]
    case Sum(a, _, b) => [a, b]
    case RelOp(a, _, b) => [a, b]
    case LogicOp(a, _, b) => [a, b]
    case Seq(a, b) => [a, b]
    case Ternary(c, a, b) => [c, a, b]
    case _ => []
  }

  /** The parameter names of a `new` expression, in order. */
  function ParamNames(ps: seq<NewParam>): (r: seq<string>)
    ensures |r| == |ps| && forall i :: 0 <= i < |ps| ==> r[i] == ps[i].id
  {
    seq(|ps|, i requires 0 <= i < |ps| => ps[i].id)
  }

  function WithValues(ps: seq<NewParam>, vs: seq<Expr>): (r: seq<NewParam>)
    requires |vs| == |ps|
    ensures |r| == |ps| && forall i :: 0 <= i < |ps| ==> r[i] == NewParam(ps[i].id, vs[i])
  {
    seq(|ps|, i requires 0 <= i < |ps| => NewParam(ps[i].id, vs[i]))
  }

  function WithBodies(ms: seq<MethodDef>, bs: seq<Expr>): (r: seq<MethodDef>)
    requires |bs| == |Bodies(ms)|
    ensures |r| == |ms| && Bodies(r) == bs
    ensures forall i :: 0 <= i < |ms| ==> r[i].name == ms[i].name && r[i].formals == ms[i].formals
    ensures forall i :: 0 <= i < |ms| ==> r[i].body.Some? == ms[i].body.Some?
  {
    if ms == [] then []
    else if ms[0].body.Some? then
      var w := [ms[0].(body := Some(bs[0]))] + WithBodies(ms[1..], bs[1..]);
      assert w[1..] == WithBodies(ms[1..], bs[1..]);
      w
    else
      var w := [ms[0]] + WithBodies(ms[1..], bs);
      assert w[1..] == WithBodies(ms[1..], bs);
      w
  }

  lemma {:induction false} WithOwnBodies(ms: seq<MethodDef>)
    ensures WithBodies(ms, Bodies(ms)) == ms
  {
    if ms != [] {
      WithOwnBodies(ms[1..]);
      assert ms == [ms[0]] + ms[1..];
    }
  }

  /** e with its immediate sub-expressions replaced, in order, by cs. */
  function WithExprChildren(e: Expr, cs: seq<Expr>): (r: Expr)
    ensures |cs| == |ExprChildren(e)| ==> ExprChildren(r) == cs
    ensures Own(r) == Own(e)
  {
    if |cs| != |ExprChildren(e)| then e
    else match e
    case Func(n, _) => Func(n, cs)
    case Invoke(_, m, _, cls) =>
      var w := Invoke(cs[0], m, cs[1..], cls);
      assert [cs[0]] + cs[1..] == cs;
      w
    case New(c, ps, ms) =>
      var w := New(c, WithValues(ps, cs[..|ps|]), WithBodies(ms, cs[|ps|..]));
      assert ParamValues(WithValues(ps, cs[..|ps|])) == cs[..|ps|];
      assert cs[..|ps|] + cs[|ps|..] == cs;
      w
    case Paren(l, _) => Paren(l, cs[0])
    case Ref(_) => Ref(cs[0])
    case ToBits(_) => ToBits(cs[0])
    case Not(_) => Not(cs[0])
    case Assign(t, _) => Assign(t, cs[0])
    case MapLookup(_, _) => MapLookup(cs[0], cs[1])
    case MapUpdate(_, _, _) => MapUpdate(cs[0], cs[1], cs[2])
    case Product(_, op, _) => Product(cs[0], op, cs[1])
    case Sum(_, op, _) => Sum(cs[0], op, cs[1])
    case RelOp(_, op, _) => RelOp(cs[0], op, cs[1])
    case LogicOp(_, op, _) => LogicOp(cs[0], op, cs[1])
    case Seq(_, _) => Seq(cs[0], cs[1])
    case Ternary(_, _, _) => Ternary(cs[0], cs[1], cs[2])
    case _ => e
  }

  lemma WithOwnExprChildren(e: Expr)
    ensures WithExprChildren(e, ExprChildren(e)) == e
  {
    match e
    case Invoke(t, _, args, _) =>
      assert ([t] + args)[1..] == args;
    case New(c, ps, ms) =>
      var cs := ExprChildren(e);
      assert cs[..|ps|] == ParamValues(ps);
      assert cs[|ps|..] == Bodies(ms);
      assert WithValues(ps, ParamValues(ps)) == ps;
      WithOwnBodies(ms);
    case _ =>
  }

  lemma {:induction false} ArgsIdentifiersAppend(a: seq<Expr>, b: seq<Expr>)
    ensures IdentifiersOfArgs(a + b) == IdentifiersOfArgs(a) + IdentifiersOfArgs(b)
    decreases a
  {
    if a != [] {
      assert (a + b)[0] == a[0] && (a + b)[1..] == a[1..] + b;
      ArgsIdentifiersAppend(a[1..], b);
    } else {
      assert a + b == b;
    }
  }

  lemma {:induction false} ParamValuesIdentifiers(ps: seq<NewParam>)
    ensures IdentifiersOfArgs(ParamValues(ps)) <= IdentifiersOfParams(ps)
    decreases ps
  {
    if ps != [] {
      assert ParamValues(ps)[1..] == ParamValues(ps[1..]);
      ParamValuesIdentifiers(ps[1..]);
    }
  }

  lemma {:induction false} BodiesIdentifiers(ms: seq<MethodDef>)
    ensures IdentifiersOfArgs(Bodies(ms)) <= IdentifiersOfMethods(ms)
    decreases ms
  {
    if ms != [] {
      BodiesIdentifiers(ms[1..]);
      if ms[0].body.Some? {
        assert Bodies(ms)[1..] == Bodies(ms[1..]);
      }
    }
  }

  /** The identifiers of every sub-expression are identifiers of the expression. */
  lemma ExprChildIdentifiers(e: Expr, i: nat)
    requires i < |ExprChildren(e)|
    ensures Identifiers(ExprChildren(e)[i]) <= Identifiers(e)
  {
    var cs := ExprChildren(e);
    ArgIdentifiers(cs, i);
    match e
    case Invoke(t, _, args, _) =>
      assert cs[1..] == args;
    case New(_, ps, ms) =>
      ArgsIdentifiersAppend(ParamValues(ps), Bodies(ms));
      ParamValuesIdentifiers(ps);
      BodiesIdentifiers(ms);
    case _ =>
  }
}
