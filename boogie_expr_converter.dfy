/** BoogieExprConverter: the translation of a method body into Boogie statements. Each
    expression yields one value (the visitor's value stack is modelled by the recursion)
    and may write statements first; control flow, calls and object creation go through
    temporaries. */
module BoogieExprConverter {
  import opened Wrappers
  import opened Syntax
  import Types
  import opened BoogieTypes
  import opened BoogieValue
  import opened PrettyPrint
  import BoogieUtil
  import BoogieConstants
  import BoogieFunctions
  import BoogieMethods
  import BoogieClasses
  import SymbolTable
  import Util
  import Fresh
  import BoogiePropConverter

  /** What the converter reads: the renaming of variables, the declared functions,
      the procedure of each invoked method and the interned classes. */
  datatype XEnv = XEnv(varMap: map<string, string>, functions: BoogieFunctions.Table,
                       methods: BoogieMethods.Methods, classes: BoogieClasses.Classes)

  /** What the converter updates: the statement stream, the temporaries with their
      declared types, the let-assigned names, the recorded checkpoints (label to
      whether the labelled expression is an invocation) and the shared symbol table. */
  datatype XState = XState(out: Printer, temporaries: map<string, string>, letDecls: set<string>,
                           checkpoints: map<string, bool>, symbols: SymbolTable.Scopes)

  function LookupString(env: XEnv, id: string): string
  {
    if id in env.varMap then env.varMap[id] else id
  }

  // ---------------------------------------------------------------------------
  // Temporaries
  // ---------------------------------------------------------------------------

  const TmpPrefix := "internal.tmp"

  predicate IsTemporaryName(k: string)
  {
    |TmpPrefix| <= |k| && k[..|TmpPrefix|] == TmpPrefix
  }

  /** newTemporary: the first "internal.tmp<i>" that is not a temporary yet, recorded
      with its type. */
  function NewTemporary(temps: map<string, string>, ty: string): (r: (string, map<string, string>))
    ensures r.0 !in temps && IsTemporaryName(r.0)
    ensures r.1 == temps[r.0 := ty]
    ensures r.0 == Fresh.FreshName(TmpPrefix, temps.Keys)
  {
    var name := Fresh.FreshName(TmpPrefix, temps.Keys);
    Fresh.FreshNameSmallest(TmpPrefix, temps.Keys, 0);
    (name, temps[name := ty])
  }

  /** One step further than another: a temporary once allocated keeps its type and
      every new one has the temporary prefix. */
  predicate TempsExtend(a: map<string, string>, b: map<string, string>)
  {
    (forall k :: k in a ==> k in b && b[k] == a[k]) &&
    (forall k :: k in b && k !in a ==> IsTemporaryName(k))
  }

  /** What every conversion preserves: the tab level is restored, a conversion that
      starts at the start of a line ends at the start of a line, temporaries, let
      declarations and checkpoints only grow, and the symbol table keeps its depth and
      changes in its top frame only. */
  predicate Grows(a: XState, b: XState)
  {
    b.out.tab == a.out.tab && (a.out.newLine ==> b.out.newLine) &&
    TempsExtend(a.temporaries, b.temporaries) && a.letDecls <= b.letDecls &&
    a.checkpoints.Keys <= b.checkpoints.Keys &&
    |b.symbols| == |a.symbols| && Outer(b.symbols) == Outer(a.symbols)
  }

  /** The frames below the top one. */
  function Outer(sc: SymbolTable.Scopes): SymbolTable.Scopes
  {
    if sc == [] then [] else sc[1..]
  }

  /** Only the stream and the temporaries change, and no temporary is lost. */
  predicate Keeps(a: XState, b: XState)
  {
    TempsExtend(a.temporaries, b.temporaries) && b.letDecls == a.letDecls &&
    b.checkpoints == a.checkpoints && b.symbols == a.symbols
  }

  lemma GrowsTransitive(a: XState, b: XState, c: XState)
    requires Grows(a, b) && Grows(b, c)
    ensures Grows(a, c)
  {
  }

  /** A temporary allocated on the current state. */
  function WithTemporary(st: XState, ty: string): (r: (string, XState))
    ensures r.0 !in st.temporaries && IsTemporaryName(r.0)
    ensures r.1 == st.(temporaries := st.temporaries[r.0 := ty])
    ensures Grows(st, r.1)
  {
    var t := NewTemporary(st.temporaries, ty);
    (t.0, st.(temporaries := t.1))
  }

  function Line(st: XState, s: string): (r: XState)
    ensures r == st.(out := PrintLine(st.out, s)) && Grows(st, r)
  {
    st.(out := PrintLine(st.out, s))
  }

  function Push(st: XState): (r: XState)
    ensures r == st.(out := PushedTab(st.out))
  {
    st.(out := PushedTab(st.out))
  }

  function Pop(st: XState): (r: XState)
    ensures r == st.(out := PoppedTab(st.out))
  {
    st.(out := PoppedTab(st.out))
  }

  /** getDeclaredVars: the temporaries with their types and every let-assigned name as
      an opaque "T"; a let name that is also a temporary is declared "T". */
  function DeclaredVars(st: XState): (r: map<string, string>)
    ensures r.Keys == st.temporaries.Keys + st.letDecls
    ensures forall k :: k in st.letDecls ==> r[k] == "T"
    ensures forall k :: k in st.temporaries && k !in st.letDecls ==> r[k] == st.temporaries[k]
  {
    map k | k in st.temporaries.Keys + st.letDecls :: if k in st.letDecls then "T" else st.temporaries[k]
  }

  // ---------------------------------------------------------------------------
  // Operators
  // ---------------------------------------------------------------------------

  /** toBoogieOp of a product: only the remainder is supported. */
  function ProductOp(op: string): (r: Outcome<string>)
    ensures r.Success? <==> op == "%"
    ensures r.Success? ==> r.value == " mod "
    ensures r.Failure? ==> r == InternalFail("Unsupported operation: " + op)
  {
    if op == "%" then Success(" mod ") else InternalFail("Unsupported operation: " + op)
  }

  /** toBoogieOp of a sum: only addition is supported. */
  function SumOp(op: string): (r: Outcome<string>)
    ensures r.Success? <==> op == "+"
    ensures r.Success? ==> r.value == "+"
    ensures r.Failure? ==> r == InternalFail("Unsupported operation: " + op)
  {
    if op == "+" then Success("+") else InternalFail("Unsupported operation: " + op)
  }

  /** An integer operation: the operator is checked before the operands are coerced. */
  function ArithText(op: Outcome<string>, l: Value, r: Value): (s: Outcome<string>)
    ensures s.Success? <==> op.Success? && ToIntegerString(l).Success? && ToIntegerString(r).Success?
  {
    var o :- op;
    var a :- ToIntegerString(l);
    var b :- ToIntegerString(r);
    Success("(" + a + o + b + ")")
  }

  /** The test of a short-circuit operator: `&` continues when the left value holds,
      `|` when it does not. */
  function LogicTest(op: string, l: Value): (r: Outcome<string>)
    ensures op == "&" ==> r == ToBooleanString(l)
    ensures op == "|" ==> (r.Success? <==> ToBooleanString(l).Success?)
    ensures op == "|" && r.Success? ==> r.value == "!(" + ToBooleanString(l).value + ")"
    ensures op != "&" && op != "|" ==> r == InternalFail("op not supported: " + op)
  {
    if op == "&" then ToBooleanString(l)
    else if op == "|" then
      var b :- ToBooleanString(l);
      Success("!(" + b + ")")
    else InternalFail("op not supported: " + op)
  }

  /** The opaque forms of values, in order. */
  function OpaqueEach(vs: seq<Value>): (r: Outcome<seq<string>>)
    ensures r.Success? <==> forall i :: 0 <= i < |vs| ==> ToOpaqueString(vs[i]).Success?
    ensures r.Success? ==> |r.value| == |vs| && forall i :: 0 <= i < |vs| ==> Success(r.value[i]) == ToOpaqueString(vs[i])
  {
    if vs == [] then Success([])
    else
      var first :- ToOpaqueString(vs[0]);
      var rest :- OpaqueEach(vs[1..]);
      Success([first] + rest)
  }

  /** Each item preceded by a comma. */
  function Commas(xs: seq<string>): string
  {
    if xs == [] then "" else "," + xs[0] + Commas(xs[1..])
  }

  // ---------------------------------------------------------------------------
  // The statement blocks
  // ---------------------------------------------------------------------------

  /** A proposition of assert / admit, converted in a pushed logical frame with a fresh
      constants table and a stream of its own (both discarded afterwards). */
  function PropText(env: XEnv, st: XState, prop: Prop): Outcome<string>
  {
    var penv := BoogiePropConverter.Env(BoogiePropConverter.NoSides(), env.functions, env.varMap);
    var sc := [SymbolTable.FrameValue(SymbolTable.Logical, map[])] + st.symbols;
    var pv :- BoogiePropConverter.Convert(penv, sc, BoogiePropConverter.PState(BoogieConstants.Empty(), Start()), prop);
    ToBooleanString(pv.0)
  }

  /** The statements of a labelled expression: save the checkpoint and record it with
      whether the labelled expression is an invocation. The opaque form of the labelled
      value is computed, and can raise, though the saving does not use it. */
  function Checkpoint(st: XState, name: string, isInvoke: bool, v: Value): (r: Outcome<XState>)
    ensures r.Success? <==> ToOpaqueString(v).Success?
    ensures r.Success? ==> r.value == Saved(st, name, isInvoke)
  {
    match ToOpaqueString(v)
    case Failure(err) => Failure(err)
    case Success(_) => Success(Saved(st, name, isInvoke))
  }

  function Saved(st: XState, name: string, isInvoke: bool): (r: XState)
    ensures Grows(st, r) && r.checkpoints == st.checkpoints[name := isInvoke]
    ensures r.temporaries == st.temporaries && r.letDecls == st.letDecls
  {
    var out := BoogieUtil.SaveCheckpoint(st.out, name);
    st.(out := out, checkpoints := st.checkpoints[name := isInvoke])
  }

  /** `ref`: add the object to the heap unless it is valid already. */
  function RefBlock(st: XState, r: string): (s: XState)
    ensures Grows(st, s) && s.temporaries == st.temporaries && s.letDecls == st.letDecls && s.checkpoints == st.checkpoints
  {
    Line(Pop(Line(Push(Line(st, "if (!objectValid(heap, " + r + ")) {")),
      "heap := addObject(heap, emptyObject[objectIdAttr := " + r + "]);")), "}")
  }

  /** A let assignment: the name is declared, assigned the opaque value and entered in
      the innermost frame as opaque; the value stays the assigned one. Without a frame the
      symbol table dereferences null. */
  function AssignBlock(env: XEnv, st: XState, x: string, v: Value): (r: Outcome<(Value, XState)>)
    ensures r.Success? <==> ToOpaqueString(v).Success? && st.symbols != []
    ensures r.Success? ==> Grows(st, r.value.1) && r.value.0 == v
    ensures r.Success? ==> r.value.1.letDecls == st.letDecls + {x} && r.value.1.temporaries == st.temporaries
    ensures r.Success? ==> r.value.1.checkpoints == st.checkpoints
    ensures r.Success? ==> SymbolTable.TypeOf(r.value.1.symbols, x) == Some(Types.Opaque)
  {
    var o :- ToOpaqueString(v);
    var st1 := Line(st.(letDecls := st.letDecls + {x}), LookupString(env, x) + ":=" + o + ";");
    if st1.symbols == [] then NullPointer()
    else Success((v, st1.(symbols := SymbolTable.AddValue(st1.symbols, x, Some(Types.Opaque)))))
  }

  // The fixed parts of the statements an invocation and a `new` write.
  const TargetClassId := "[targetObject][objectClassIdAttr]"
  const TargetMemory := "[targetObject][objectMemoryAttr]"
  const InvokeSplit := " := invokeSplit(heap, "
  const AssembleHeap := "heap := assembleHeap("
  const IfValid := "if(objectValid(heap, "
  const FreshObjectId := "[objectIdAttr] := freshObjectId(internal.objectId, heap);"
  const AddObject := "heap := addObject(heap, "
  const ObjectIdArg := "(internal.objectId"

  /** The parameter temporaries of an invocation: the values are popped last first, so
      the last argument's temporary is allocated and assigned first; the result lists
      the temporaries in argument order. */
  function InvokeParams(env: XEnv, st: XState, vs: seq<Value>): (r: Outcome<(seq<string>, XState)>)
    ensures r.Success? ==> |r.value.0| == |vs| && Grows(st, r.value.1)
    ensures r.Success? ==> r.value.1.letDecls == st.letDecls && r.value.1.checkpoints == st.checkpoints
    ensures r.Success? ==> forall i :: 0 <= i < |vs| ==> r.value.0[i] !in st.temporaries && r.value.0[i] in r.value.1.temporaries
    ensures r.Success? <==> forall i :: 0 <= i < |vs| ==> ToOpaqueString(vs[i]).Success?
    decreases |vs|
  {
    if vs == [] then Success(([], st))
    else
      var n := |vs| - 1;
      var t := WithTemporary(st, "T");
      var o :- ToOpaqueString(vs[n]);
      var rest :- InvokeParams(env, Line(t.1, t.0 + " := " + o + ";"), vs[..n]);
      assert forall i :: 0 <= i < n ==> vs[..n][i] == vs[i];
      Success((rest.0 + [t.0], rest.1))
  }

  /** The dispatch on the target's class id for the classes an invocation names, each
      branch but the first introduced by `else`. */
  function ClassDispatch(st: XState, classes: seq<string>, first: bool, split: string, res: string,
                         m: string, id: string, params: string): (r: XState)
    ensures Grows(st, r) && r.temporaries == st.temporaries && r.letDecls == st.letDecls && r.checkpoints == st.checkpoints
    decreases |classes|
  {
    if classes == [] then st
    else
      var c := classes[0];
      var st1 := if first then st else st.(out := Printed(st.out, "else "));
      var st2 := Line(st1, "if (" + split + TargetClassId + " == " + c + ") {");
      var st3 := Line(Push(st2), "call " + res + ":= " + c + "." + m + "(" + split + TargetClassId + ", " + id + params + ");");
      ClassDispatch(Line(Pop(st3), "}"), classes[1..], false, split, res, m, id, params)
  }

  /** The call of an invocation inside the valid-target guard: the split heap gives the
      callee the target's part of the heap and its memory, and both are put back after
      the call. */
  function InvokeBody(env: XEnv, st: XState, target: string, m: string, classes: Option<seq<string>>,
                      id: string, res: string, params: string): (r: XState)
    ensures Grows(st, r) && r.letDecls == st.letDecls && r.checkpoints == st.checkpoints
  {
    var sav := WithTemporary(st, "Memory");
    var st1 := Line(sav.1, sav.0 + ":= objectMemory;");
    var split := WithTemporary(st1, "SplitHeap");
    var s := split.0;
    var st2 := Line(Line(Line(split.1, s + InvokeSplit + target + ");"),
      "heap := " + s + "[heapRight];"), "objectMemory := " + s + TargetMemory + ";");
    var st3 := if classes.Some? then Push(Line(ClassDispatch(st2, classes.value, true, s, res, m, id, params), "else {")) else st2;
    var proc := match BoogieMethods.ProcName(env.methods, m) case Some(p) => p case None => "null";
    var st4 := Line(st3, "call " + res + ":=" + proc + "(" + s + TargetClassId + ", " + id + params + ");");
    var st5 := if classes.Some? then Line(Pop(st4), "}") else st4;
    Line(Line(Line(Line(st5, s + TargetMemory + " := objectMemory;"),
      s + "[heapRight] := heap;"), "objectMemory := " + sav.0 + ";"), AssembleHeap + s + ");")
  }

  /** An invocation after its target and arguments are converted. */
  function InvokeBlock(env: XEnv, st: XState, tv: Value, m: string, vs: seq<Value>, classes: Option<seq<string>>): (r: Outcome<(Value, XState)>)
    ensures r.Success? ==> Grows(st, r.value.1) && r.value.1.letDecls == st.letDecls && r.value.1.checkpoints == st.checkpoints
    ensures r.Success? ==> r.value.0.t == Opaque
  {
    var ps :- InvokeParams(env, st, vs);
    var idt := WithTemporary(ps.1, "ObjectId");
    var target :- ToObjectIdString(tv);
    var rt := WithTemporary(Line(idt.1, idt.0 + " := " + target + ";"), "T");
    var res := LookupString(env, rt.0);
    var st1 := Push(Line(Line(rt.1, rt.0 + " := defaultValue;"), IfValid + idt.0 + ")) {"));
    var st2 := InvokeBody(env, st1, target, m, classes, idt.0, res, Commas(ps.0));
    Success((Value(Opaque, res), Pop(Line(st2, "}"))))
  }

  /** A call of a declared function: a pure function is an expression, any other is a
      procedure call into a temporary of the return type. Calls of an undeclared
      function dereference null. */
  function CallBlock(env: XEnv, st: XState, name: string, vs: seq<Value>): (r: Outcome<(Value, XState)>)
    ensures r.Success? ==> Grows(st, r.value.1) && r.value.1.letDecls == st.letDecls && r.value.1.checkpoints == st.checkpoints
    ensures BoogieFunctions.GetByName(env.functions, name).None? ==> r == NullPointer()
    ensures r.Success? ==> (BoogieFunctions.GetByName(env.functions, name).Some? &&
      Util.FunctionReturnType(BoogieFunctions.GetByName(env.functions, name).value).Success? &&
      r.value.0.t == BoogieUtil.ToBoogieType(Util.FunctionReturnType(BoogieFunctions.GetByName(env.functions, name).value).value))
    ensures r.Success? && BoogieFunctions.GetByName(env.functions, name).value.isPure ==> r.value.1 == st
  {
    match BoogieFunctions.GetByName(env.functions, name)
    case None => NullPointer()
    case Some(decl) =>
      var ret :- Util.FunctionReturnType(decl);
      var ty := BoogieUtil.ToBoogieType(ret);
      var ts :- Util.ParameterTypes(decl);
      if decl.isPure then
        var args :- BoogiePropConverter.ArgStrings(vs, ts);
        Success((Value(ty, name + "(" + BoogiePropConverter.Joined(args, ",") + ")"), st))
      else
        var t := WithTemporary(st, BoogieString(ty));
        var tmp := LookupString(env, t.0);
        var args :- BoogiePropConverter.ArgStrings(vs, ts);
        Success((Value(ty, tmp), Line(t.1, "call " + tmp + ":=" + name + ObjectIdArg + Commas(args) + ");")))
  }

  /** `new`: call the interned class's constructor with the opaque arguments, give the
      object a fresh id and add it to the heap. A class that was never interned prints
      as "null". */
  function NewBlock(env: XEnv, st: XState, e: Expr, vs: seq<Value>): (r: Outcome<(Value, XState)>)
    requires e.New?
    ensures r.Success? ==> Grows(st, r.value.1) && r.value.1.letDecls == st.letDecls && r.value.1.checkpoints == st.checkpoints
    ensures r.Success? ==> r.value.0.t == ObjectId
    ensures r.Success? <==> forall i :: 0 <= i < |vs| ==> ToOpaqueString(vs[i]).Success?
  {
    var className := match BoogieClasses.ByDef(env.classes, e) case Some(c) => c case None => "null";
    var obj := WithTemporary(st, "Object");
    var args :- OpaqueEach(vs);
    var st1 := Line(obj.1, "call " + obj.0 + " := " + className + ".new(" + BoogiePropConverter.Joined(args, ",") + ");");
    var st2 := Line(Line(st1, obj.0 + FreshObjectId), AddObject + obj.0 + ");");
    Success((Value(ObjectId, obj.0 + "[objectIdAttr]"), st2))
  }

  // ---------------------------------------------------------------------------
  // What a conversion records
  // ---------------------------------------------------------------------------

  /** The let-assigned names and the checkpoint labels of an expression. */
  datatype Names = Names(lets: set<string>, labels: set<string>)

  function Plus(a: Names, b: Names): Names
  {
    Names(a.lets + b.lets, a.labels + b.labels)
  }

  const NoNames := Names({}, {})

  /** The names of the sub-expressions the converter visits: everything but the
      propositions of assert and admit and the methods of a `new`. */
  function NamesOf(e: Expr): Names
    decreases e, 1
  {
    match e
    case Lookup(_) => NoNames
    case Literal(_) => NoNames
    case DotDotDot => NoNames
    case Hole => NoNames
    case Assert(_) => NoNames
    case Admit(_) => NoNames
    case ToBits(inner) => NamesOf(inner)
    case Not(inner) => NamesOf(inner)
    case Ref(inner) => NamesOf(inner)
    case Paren(tag, inner) =>
      var n := NamesOf(inner);
      if tag.Some? then n.(labels := n.labels + {tag.value}) else n
    case Assign(x, value) =>
      var n := NamesOf(value);
      n.(lets := n.lets + {x})
    case LogicOp(l, _, r) => Plus(NamesOf(l), NamesOf(r))
    case Ternary(a, b, c) => Plus(Plus(NamesOf(a), NamesOf(b)), NamesOf(c))
    case Func(_, args) => NamesOfArgs(args)
    case Invoke(target, _, args, _) => Plus(NamesOf(target), NamesOfArgs(args))
    case New(_, ps, _) => NamesOfParams(ps)
    case MapLookup(m, i) => Plus(NamesOf(m), NamesOf(i))
    case MapUpdate(m, i, x) => Plus(Plus(NamesOf(m), NamesOf(i)), NamesOf(x))
    case Product(l, _, r) => Plus(NamesOf(l), NamesOf(r))
    case Sum(l, _, r) => Plus(NamesOf(l), NamesOf(r))
    case RelOp(l, _, r) => Plus(NamesOf(l), NamesOf(r))
    case Seq(l, r) => Plus(NamesOf(l), NamesOf(r))
  }

  // One unfolding of NamesOf per group of the conversion.

  lemma NamesOfLeaf(e: Expr)
    requires IsLeaf(e)
    ensures NamesOf(e) == NoNames
  {
  }

  lemma NamesOfParen(e: Expr)
    requires e.Paren?
    ensures NamesOf(e).lets == NamesOf(e.inner).lets
    ensures NamesOf(e).labels == NamesOf(e.inner).labels + (if e.exprLabel.Some? then {e.exprLabel.value} else {})
  {
  }

  lemma NamesOfControl(e: Expr)
    requires IsControl(e)
    ensures e.LogicOp? ==> NamesOf(e) == Plus(NamesOf(e.left), NamesOf(e.right))
    ensures e.Ternary? ==> NamesOf(e) == Plus(Plus(NamesOf(e.test), NamesOf(e.ifso)), NamesOf(e.ifnot))
  {
  }

  lemma NamesOfCall(e: Expr)
    requires IsCall(e)
    ensures e.Func? ==> NamesOf(e) == NamesOfArgs(e.args)
    ensures e.Invoke? ==> NamesOf(e) == Plus(NamesOf(e.target), NamesOfArgs(e.args))
    ensures e.New? ==> NamesOf(e) == NamesOfParams(e.params)
  {
  }

  lemma NamesOfBinary(e: Expr)
    requires e.MapLookup? || e.MapUpdate? || e.Product? || e.Sum? || e.RelOp? || e.Seq?
    ensures e.MapUpdate? ==> NamesOf(e) == Plus(Plus(NamesOf(e.mapExpr), NamesOf(e.index)), NamesOf(e.value))
    ensures e.MapLookup? ==> NamesOf(e) == Plus(NamesOf(e.mapExpr), NamesOf(e.index))
    ensures (e.Product? || e.Sum? || e.RelOp? || e.Seq?) ==> NamesOf(e) == Plus(NamesOf(e.left), NamesOf(e.right))
  {
  }

  lemma NamesOfUnary(e: Expr)
    requires e.ToBits? || e.Not? || e.Ref?
    ensures NamesOf(e) == NamesOf(e.inner)
  {
  }

  function NamesOfArgs(args: seq<Expr>): Names
    decreases args
  {
    if args == [] then NoNames else Plus(NamesOf(args[0]), NamesOfArgs(args[1..]))
  }

  function NamesOfParams(ps: seq<NewParam>): Names
    decreases ps
  {
    if ps == [] then NoNames else Plus(NamesOf(ps[0].value), NamesOfParams(ps[1..]))
  }

  /** A successful conversion adds exactly the given names to the let declarations and
      to the checkpoints. */
  predicate Records<T>(st: XState, r: Outcome<(T, XState)>, n: Names)
  {
    r.Success? ==> Adds(st, r.value.1, n)
  }

  /** The names a step of the conversion adds to the let declarations and to the
      checkpoints. */
  predicate Adds(a: XState, b: XState, n: Names)
  {
    b.letDecls == a.letDecls + n.lets && b.checkpoints.Keys == a.checkpoints.Keys + n.labels
  }

  /** No names are added. */
  predicate SameNames(a: XState, b: XState)
  {
    b.letDecls == a.letDecls && b.checkpoints.Keys == a.checkpoints.Keys
  }

  lemma Labelled(st: XState, a: XState, b: XState, n: Names, name: string)
    requires Adds(st, a, n) && Grows(st, a) && Grows(a, b)
    requires b.letDecls == a.letDecls && b.checkpoints.Keys == a.checkpoints.Keys + {name}
    ensures Adds(st, b, Names(n.lets, n.labels + {name})) && Grows(st, b)
  {
    GrowsTransitive(st, a, b);
  }

  lemma AddsThen(a: XState, b: XState, c: XState, d: XState, n1: Names, n2: Names)
    requires Adds(a, b, n1) && SameNames(b, c) && Adds(c, d, n2)
    ensures Adds(a, d, Plus(n1, n2))
  {
  }

  lemma AddsSame(a: XState, b: XState, c: XState, n: Names)
    requires Adds(a, b, n) && SameNames(b, c)
    ensures Adds(a, c, n)
  {
  }

  // ---------------------------------------------------------------------------
  // The conversion
  // ---------------------------------------------------------------------------

  predicate IsLeaf(e: Expr)
  {
    e.Lookup? || e.Literal? || e.DotDotDot? || e.Hole? || e.Assert? || e.Admit?
  }

  predicate IsUnary(e: Expr)
  {
    e.ToBits? || e.Not? || e.Paren? || e.Ref? || e.Assign?
  }

  predicate IsControl(e: Expr)
  {
    e.LogicOp? || e.Ternary?
  }

  predicate IsCall(e: Expr)
  {
    e.Func? || e.Invoke? || e.New?
  }

  /** The value of an expression and the state after its statements. */
  function Convert(env: XEnv, st: XState, e: Expr): (r: Outcome<(Value, XState)>)
    ensures Records(st, r, NamesOf(e))
    ensures r.Success? ==> Grows(st, r.value.1)
    decreases e, 2
  {
    if IsLeaf(e) then ConvertLeaf(env, st, e)
    else if e.ToBits? || e.Not? || e.Ref? then ConvertUnary(env, st, e)
    else if e.Paren? then ConvertParen(env, st, e)
    else if e.Assign? then ConvertAssign(env, st, e)
    else if IsControl(e) then ConvertControl(env, st, e)
    else if IsCall(e) then ConvertCall(env, st, e)
    else ConvertBinary(env, st, e)
  }

  /** The expressions without sub-expressions (the propositions of assert and admit are
      not expressions). */
  function ConvertLeaf(env: XEnv, st: XState, e: Expr): (r: Outcome<(Value, XState)>)
    requires IsLeaf(e)
    ensures Records(st, r, NamesOf(e))
    ensures r.Success? ==> Grows(st, r.value.1)
    ensures r.Success? ==> (r.value.1.temporaries == st.temporaries && r.value.1.letDecls == st.letDecls &&
      r.value.1.checkpoints == st.checkpoints && r.value.1.symbols == st.symbols)
    ensures e.Lookup? ==> r == Success((Value(BoogieUtil.ToBoogieTypeOr(SymbolTable.TypeOf(st.symbols, e.id), Types.Opaque),
      LookupString(env, e.id)), st))
    ensures e.DotDotDot? ==> r == InternalFail("Internal error: ... not rewritten to previous expression.")
    ensures (e.Assert? || e.Admit?) ==> (r.Success? <==> PropText(env, st, e.prop).Success?)
    ensures (e.Assert? || e.Admit?) && r.Success? ==> r.value.0 == Value(Bitstring, "nil")
    ensures e.Literal? && r.Success? ==> r.value.0.t == (if e.lit.Numeric? then Integer else BoogieType.Boolean)
    decreases e, 1
  {
    NamesOfLeaf(e);
    match e
    case Lookup(id) =>
      Success((Value(BoogieUtil.ToBoogieTypeOr(SymbolTable.TypeOf(st.symbols, id), Types.Opaque), LookupString(env, id)), st))
    case Literal(lit) =>
      if lit.Numeric? then Success((Value(Integer, lit.digits), st))
      else Success((Value(BoogieType.Boolean, lit.word), st))
    case DotDotDot => InternalFail("Internal error: ... not rewritten to previous expression.")
    case Hole => InternalFail("Conversion of a hole")
    case Assert(prop) =>
      var b :- PropText(env, st, prop);
      Success((Value(Bitstring, "nil"), Line(st, "assert (" + b + ");")))
    case Admit(prop) =>
      var b :- PropText(env, st, prop);
      Success((Value(Bitstring, "nil"), Line(st, "assume (" + b + ");")))
  }

  /** The coercions and `ref`, which keep the statements of their operand. */
  function ConvertUnary(env: XEnv, st: XState, e: Expr): (r: Outcome<(Value, XState)>)
    requires e.ToBits? || e.Not? || e.Ref?
    ensures Records(st, r, NamesOf(e))
    ensures r.Success? ==> Grows(st, r.value.1)
    ensures e.ToBits? && r.Success? ==> r.value.0.t == Bitstring
    ensures e.Not? && r.Success? ==> r.value.0.t == BoogieType.Boolean
    ensures e.Ref? && r.Success? ==> (Convert(env, st, e.inner).Success? && r.value.0 == Convert(env, st, e.inner).value.0)
    decreases e, 1
  {
    NamesOfUnary(e);
    match e
    case ToBits(inner) =>
      var a :- Convert(env, st, inner);
      var b :- ToBitstringString(a.0);
      Success((Value(Bitstring, b), a.1))
    case Not(inner) =>
      var a :- Convert(env, st, inner);
      var b :- ToBooleanString(a.0);
      Success((Value(BoogieType.Boolean, "!(" + b + ")"), a.1))
    case Ref(inner) =>
      var a :- Convert(env, st, inner);
      var w :- ToObjectIdString(a.0);
      Success((a.0, RefBlock(a.1, w)))
  }

  /** A parenthesised expression; with a label it saves a checkpoint under that label. */
  function ConvertParen(env: XEnv, st: XState, e: Expr): (r: Outcome<(Value, XState)>)
    requires e.Paren?
    ensures Records(st, r, NamesOf(e))
    ensures r.Success? ==> Grows(st, r.value.1)
    ensures r.Success? ==> (Convert(env, st, e.inner).Success? && r.value.0 == Convert(env, st, e.inner).value.0)
    decreases e, 1
  {
    NamesOfParen(e);
    var a :- Convert(env, st, e.inner);
    if e.exprLabel.None? then Success(a)
    else
      var st1 :- Checkpoint(a.1, e.exprLabel.value, Util.ToInvokeExpr(e.inner).Some?, a.0);
      Labelled(st, a.1, st1, NamesOf(e.inner), e.exprLabel.value);
      Success((a.0, st1))
  }

  /** A let assignment, which declares its variable. */
  function ConvertAssign(env: XEnv, st: XState, e: Expr): (r: Outcome<(Value, XState)>)
    requires e.Assign?
    ensures Records(st, r, NamesOf(e))
    ensures r.Success? ==> Grows(st, r.value.1)
    ensures r.Success? ==> (Convert(env, st, e.value).Success? && r.value.0 == Convert(env, st, e.value).value.0)
    decreases e, 1
  {
    var a :- Convert(env, st, e.value);
    var b :- AssignBlock(env, a.1, e.variable, a.0);
    GrowsTransitive(st, a.1, b.1);
    AddsThen(st, a.1, a.1, b.1, NamesOf(e.value), Names({e.variable}, {}));
    Success(b)
  }

  /** The start of a short-circuit operator once the left operand is converted: end
      the line, assign the left value to a fresh opaque temporary and open the if
      statement that evaluates the right operand. */
  function LogicEnter(env: XEnv, st: XState, op: string, lv: Value): (r: Outcome<(string, XState)>)
    ensures r.Success? ==> Keeps(st, r.value.1) && r.value.1.out.tab == st.out.tab + 1 && r.value.1.out.newLine
  {
    var st0 := st.(out := Newline(st.out));
    var test :- LogicTest(op, lv);
    var t := WithTemporary(st0, "T");
    var tmp := LookupString(env, t.0);
    var lo :- ToOpaqueString(lv);
    Success((tmp, Push(Line(Line(t.1, tmp + " := " + lo + ";"), "if (" + test + ") {"))))
  }

  /** The end of a branch: assign the branch's value to the temporary, leave the block
      and write the closing line. */
  function BranchExit(st: XState, tmp: string, v: Value, closing: string): (r: Outcome<XState>)
    ensures r.Success? <==> ToOpaqueString(v).Success?
    ensures r.Success? ==> Keeps(st, r.value) && r.value.out.tab == st.out.tab - 1 && r.value.out.newLine
  {
    var o :- ToOpaqueString(v);
    Success(Line(Pop(Line(st, tmp + " := " + o + ";")), closing))
  }

  /** A block entered from a state and left by its statements and the branch exit
      grows the state exactly as its body does. */
  lemma Around(a: XState, b: XState, c: XState, d: XState)
    requires Keeps(a, b) && b.out.tab == a.out.tab + 1
    requires Grows(b, c) && Keeps(c, d) && d.out.tab == c.out.tab - 1 && d.out.newLine
    ensures Grows(a, d) && d.letDecls == c.letDecls && d.checkpoints == c.checkpoints
  {
  }

  /** The short-circuit operators and the conditional, which write an if statement
      assigning a fresh opaque temporary. */
  function ConvertControl(env: XEnv, st: XState, e: Expr): (r: Outcome<(Value, XState)>)
    requires IsControl(e)
    ensures Records(st, r, NamesOf(e))
    ensures r.Success? ==> Grows(st, r.value.1) && r.value.0.t == Opaque
    decreases e, 1
  {
    NamesOfControl(e);
    match e
    case LogicOp(left, op, right) =>
      var a :- Convert(env, st, left);
      var t :- LogicEnter(env, a.1, op, a.0);
      var b :- Convert(env, t.1, right);
      var st1 :- BranchExit(b.1, t.0, b.0, "}");
      Around(a.1, t.1, b.1, st1);
      GrowsTransitive(st, a.1, st1);
      AddsThen(st, a.1, t.1, b.1, NamesOf(left), NamesOf(right));
      AddsSame(st, b.1, st1, NamesOf(e));
      Success((Value(Opaque, t.0), st1))
    case Ternary(test, ifso, ifnot) =>
      var a :- Convert(env, st, test);
      var t := WithTemporary(a.1, "T");
      var tb :- ToBooleanString(a.0);
      var s0 := Push(Line(t.1, "if (" + tb + ") {"));
      var b :- Convert(env, s0, ifso);
      var s1 :- BranchExit(b.1, t.0, b.0, "} else {");
      var c :- Convert(env, Push(s1), ifnot);
      var s2 :- BranchExit(c.1, t.0, c.0, "}");
      Around(t.1, s0, b.1, s1);
      Around(s1, Push(s1), c.1, s2);
      GrowsTransitive(st, a.1, s2);
      AddsThen(st, a.1, s0, b.1, NamesOf(test), NamesOf(ifso));
      AddsThen(st, b.1, Push(s1), c.1, Plus(NamesOf(test), NamesOf(ifso)), NamesOf(ifnot));
      AddsSame(st, c.1, s2, NamesOf(e));
      Success((Value(Opaque, t.0), s2))
  }

  /** Function calls, invocations and object creation. */
  function ConvertCall(env: XEnv, st: XState, e: Expr): (r: Outcome<(Value, XState)>)
    requires IsCall(e)
    ensures Records(st, r, NamesOf(e))
    ensures r.Success? ==> Grows(st, r.value.1)
    ensures e.Func? && r.Success? ==> (BoogieFunctions.GetByName(env.functions, e.name).Some? &&
      Util.FunctionReturnType(BoogieFunctions.GetByName(env.functions, e.name).value).Success? &&
      r.value.0.t == BoogieUtil.ToBoogieType(Util.FunctionReturnType(BoogieFunctions.GetByName(env.functions, e.name).value).value))
    ensures e.Invoke? && r.Success? ==> r.value.0.t == Opaque
    ensures e.New? && r.Success? ==> r.value.0.t == ObjectId
    decreases e, 1
  {
    NamesOfCall(e);
    match e
    case Func(name, args) =>
      var a :- ConvertArgs(env, st, args);
      var b :- CallBlock(env, a.1, name, a.0);
      GrowsTransitive(st, a.1, b.1);
      AddsSame(st, a.1, b.1, NamesOf(e));
      Success(b)
    case Invoke(target, m, args, classes) =>
      var t :- Convert(env, st, target);
      var a :- ConvertArgs(env, t.1, args);
      var b :- InvokeBlock(env, a.1, t.0, m, a.0, classes);
      GrowsTransitive(st, t.1, a.1);
      GrowsTransitive(st, a.1, b.1);
      AddsThen(st, t.1, t.1, a.1, NamesOf(target), NamesOfArgs(args));
      AddsSame(st, a.1, b.1, NamesOf(e));
      Success(b)
    case New(_, params, _) =>
      var a :- ConvertParams(env, st, params);
      var b :- NewBlock(env, a.1, e, a.0);
      GrowsTransitive(st, a.1, b.1);
      AddsSame(st, a.1, b.1, NamesOf(e));
      Success(b)
  }

  /** Map reads and writes, arithmetic, comparisons and sequencing. */
  function ConvertBinary(env: XEnv, st: XState, e: Expr): (r: Outcome<(Value, XState)>)
    requires !IsLeaf(e) && !IsUnary(e) && !IsControl(e) && !IsCall(e)
    ensures Records(st, r, NamesOf(e))
    ensures r.Success? ==> Grows(st, r.value.1)
    ensures e.MapUpdate? && r.Success? ==> r.value.0.t == Memory
    ensures e.MapLookup? && r.Success? ==> r.value.0.t == Opaque
    ensures (e.Product? || e.Sum?) && r.Success? ==> r.value.0.t == Integer
    ensures e.RelOp? && r.Success? ==> r.value.0.t == BoogieType.Boolean
    ensures e.Seq? && r.Success? ==> (Convert(env, st, e.left).Success? &&
      r == Convert(env, Convert(env, st, e.left).value.1, e.right))
    decreases e, 1
  {
    NamesOfBinary(e);
    if e.MapUpdate? then
      var m :- Convert(env, st, e.mapExpr);
      var i :- Convert(env, m.1, e.index);
      var x :- Convert(env, i.1, e.value);
      var b :- ToBitstringString(i.0);
      var o :- ToOpaqueString(x.0);
      AddsThen(st, m.1, m.1, i.1, NamesOf(e.mapExpr), NamesOf(e.index));
      AddsThen(st, i.1, i.1, x.1, Plus(NamesOf(e.mapExpr), NamesOf(e.index)), NamesOf(e.value));
      GrowsTransitive(st, m.1, i.1);
      GrowsTransitive(st, i.1, x.1);
      Success((Value(Memory, "toMemory(" + m.0.v + ")[" + b + " := " + o + "]"), x.1))
    else
      var l := if e.MapLookup? then e.mapExpr else e.left;
      var w := if e.MapLookup? then e.index else e.right;
      var a :- Convert(env, st, l);
      var b :- Convert(env, a.1, w);
      AddsThen(st, a.1, a.1, b.1, NamesOf(l), NamesOf(w));
      GrowsTransitive(st, a.1, b.1);
      var v :- BinaryValue(e, a.0, b.0);
      Success((v, b.1))
  }

  /** The value of a binary expression from the values of its operands: the sequence
      has the value of its right operand. */
  function BinaryValue(e: Expr, a: Value, b: Value): (r: Outcome<Value>)
    requires e.MapLookup? || e.Product? || e.Sum? || e.RelOp? || e.Seq?
    ensures e.Seq? ==> r == Success(b)
    ensures r.Success? && e.MapLookup? ==> r.value.t == Opaque
    ensures r.Success? && (e.Product? || e.Sum?) ==> r.value.t == Integer
    ensures r.Success? && e.RelOp? ==> r.value.t == BoogieType.Boolean
  {
    match e
    case MapLookup(_, _) =>
      var bits :- ToBitstringString(b);
      Success(Value(Opaque, "toMemory(" + a.v + ")[" + bits + "]"))
    case Product(_, op, _) =>
      var s :- ArithText(ProductOp(op), a, b);
      Success(Value(Integer, s))
    case Sum(_, op, _) =>
      var s :- ArithText(SumOp(op), a, b);
      Success(Value(Integer, s))
    case RelOp(_, op, _) =>
      var s :- BoogiePropConverter.RelOpText(a, op, b);
      Success(Value(BoogieType.Boolean, s))
    case Seq(_, _) => Success(b)
  }

  /** The arguments of a call, converted left to right. */
  function ConvertArgs(env: XEnv, st: XState, args: seq<Expr>): (r: Outcome<(seq<Value>, XState)>)
    ensures Records(st, r, NamesOfArgs(args))
    ensures r.Success? ==> |r.value.0| == |args| && Grows(st, r.value.1)
    decreases args
  {
    if args == [] then Success(([], st))
    else
      var a :- Convert(env, st, args[0]);
      var rest :- ConvertArgs(env, a.1, args[1..]);
      Success(([a.0] + rest.0, rest.1))
  }

  /** The constructor arguments of a `new`, converted left to right; its methods are
      not converted here. */
  function ConvertParams(env: XEnv, st: XState, ps: seq<NewParam>): (r: Outcome<(seq<Value>, XState)>)
    ensures Records(st, r, NamesOfParams(ps))
    ensures r.Success? ==> |r.value.0| == |ps| && Grows(st, r.value.1)
    decreases ps
  {
    if ps == [] then Success(([], st))
    else
      var a :- Convert(env, st, ps[0].value);
      var rest :- ConvertParams(env, a.1, ps[1..]);
      Success(([a.0] + rest.0, rest.1))
  }

  // ---------------------------------------------------------------------------
  // The Boogie type of a converted expression
  // ---------------------------------------------------------------------------

  /** The Boogie type of an expression's value where the expression alone settles it:
      a variable's type depends on the symbol table, and a sequence, a parenthesised
      expression, `ref` and an assignment have the type of the expression whose value
      they pass on. */
  function ValueTag(env: XEnv, e: Expr): Option<BoogieType>
  {
    match e
    case Lookup(_) => None
    case Literal(lit) => Some(if lit.Numeric? then Integer else BoogieType.Boolean)
    case DotDotDot => None
    case Hole => None
    case Assert(_) => Some(Bitstring)
    case Admit(_) => Some(Bitstring)
    case ToBits(_) => Some(Bitstring)
    case Not(_) => Some(BoogieType.Boolean)
    case Ref(inner) => ValueTag(env, inner)
    case Paren(_, inner) => ValueTag(env, inner)
    case Assign(_, value) => ValueTag(env, value)
    case LogicOp(_, _, _) => Some(Opaque)
    case Ternary(_, _, _) => Some(Opaque)
    case Func(name, _) => ReturnTag(env, name)
    case Invoke(_, _, _, _) => Some(Opaque)
    case New(_, _, _) => Some(ObjectId)
    case MapLookup(_, _) => Some(Opaque)
    case MapUpdate(_, _, _) => Some(Memory)
    case Product(_, _, _) => Some(Integer)
    case Sum(_, _, _) => Some(Integer)
    case RelOp(_, _, _) => Some(BoogieType.Boolean)
    case Seq(_, right) => ValueTag(env, right)
  }

  /** The Boogie type of a declared function's return type. */
  function ReturnTag(env: XEnv, name: string): Option<BoogieType>
  {
    match BoogieFunctions.GetByName(env.functions, name)
    case None => None
    case Some(decl) =>
      if Util.FunctionReturnType(decl).Success? then Some(BoogieUtil.ToBoogieType(Util.FunctionReturnType(decl).value))
      else None
  }

  /** A successful conversion yields a value of the expression's Boogie type. */
  predicate TagHolds(env: XEnv, st: XState, e: Expr)
  {
    var r := Convert(env, st, e);
    r.Success? && ValueTag(env, e).Some? ==> r.value.0.t == ValueTag(env, e).value
  }

  /** The value of every conversion has the expression's Boogie type, whatever the
      state it starts from. */
  lemma {:induction false} ConvertTag(env: XEnv, st: XState, e: Expr)
    ensures TagHolds(env, st, e)
    decreases e, 2
  {
    if IsLeaf(e) {
      LeafTag(env, st, e);
    } else if IsControl(e) || e.ToBits? || e.Not? {
      SimpleTag(env, st, e);
    } else if e.Ref? || e.Paren? || e.Assign? {
      PassedTag(env, st, e);
    } else if IsCall(e) {
      CallTag(env, st, e);
    } else {
      BinaryTag(env, st, e);
    }
  }

  lemma LeafTag(env: XEnv, st: XState, e: Expr)
    requires IsLeaf(e)
    ensures TagHolds(env, st, e)
  {
  }

  lemma SimpleTag(env: XEnv, st: XState, e: Expr)
    requires IsControl(e) || e.ToBits? || e.Not?
    ensures TagHolds(env, st, e)
  {
  }

  lemma CallTag(env: XEnv, st: XState, e: Expr)
    requires IsCall(e)
    ensures TagHolds(env, st, e)
  {
  }

  /** `ref`, parentheses and assignments pass the value of their operand on. */
  lemma {:induction false} PassedTag(env: XEnv, st: XState, e: Expr)
    requires e.Ref? || e.Paren? || e.Assign?
    ensures TagHolds(env, st, e)
    decreases e, 1
  {
    if e.Assign? {
      ConvertTag(env, st, e.value);
    } else {
      ConvertTag(env, st, e.inner);
    }
  }

  /** The binary operators; a sequence has the value of its right operand, converted
      in the state the left one leaves. */
  lemma {:induction false} BinaryTag(env: XEnv, st: XState, e: Expr)
    requires !IsLeaf(e) && !IsUnary(e) && !IsControl(e) && !IsCall(e)
    ensures TagHolds(env, st, e)
    decreases e, 1
  {
    if e.Seq? {
      var a := Convert(env, st, e.left);
      if a.Success? {
        ConvertTag(env, a.value.1, e.right);
      }
    }
  }

  // ---------------------------------------------------------------------------
  // The converter object
  // ---------------------------------------------------------------------------

  /** The converter of one body of code: it writes to its stream, allocates from the
      temporaries it is given and keeps the value of each converted expression on a
      stack. */
  class ExprConverter {
    const env: XEnv
    var out: Printer
    var temporaries: map<string, string>
    var letDecls: set<string>
    var checkpoints: map<string, bool>
    var symbols: SymbolTable.Scopes
    var values: seq<Value>

    function State(): XState
      reads this
    {
      XState(out, temporaries, letDecls, checkpoints, symbols)
    }

    constructor (env: XEnv, symbols: SymbolTable.Scopes, temporaries: map<string, string>, out: Printer)
      ensures this.env == env && State() == XState(out, temporaries, {}, map[], symbols) && values == []
    {
      this.env := env;
      this.out := out;
      this.temporaries := temporaries;
      this.letDecls := {};
      this.checkpoints := map[];
      this.symbols := symbols;
      this.values := [];
    }

    /** newTemporary: the counting loop over "internal.tmp<i>". */
    method NewTemporary(ty: string) returns (name: string)
      modifies this
      ensures (name, State()) == WithTemporary(old(State()), ty)
      ensures values == old(values)
    {
      var i;
      name, i := Fresh.SmallestFresh(TmpPrefix, temporaries.Keys);
      temporaries := temporaries[name := ty];
    }

    /** getDeclaredVars: the temporaries, then every let-assigned name as "T". */
    method GetDeclaredVars() returns (result: map<string, string>)
      ensures result == DeclaredVars(State())
    {
      result := temporaries;
      var rest := letDecls;
      while rest != {}
        invariant rest <= letDecls
        invariant result.Keys == temporaries.Keys + (letDecls - rest)
        invariant forall k :: k in letDecls - rest ==> result[k] == "T"
        invariant forall k :: k in temporaries && k !in letDecls - rest ==> result[k] == temporaries[k]
        decreases rest
      {
        var x :| x in rest;
        result := result[x := "T"];
        rest := rest - {x};
      }
      assert result.Keys == DeclaredVars(State()).Keys;
    }

    /** apply: convert an expression, writing its statements and pushing its value. A
        failing conversion raises and leaves the converter as it was. */
    method Apply(e: Expr) returns (r: Outcome<Value>)
      modifies this
      ensures var c := Convert(env, old(State()), e);
        (r.Success? <==> c.Success?) &&
        (c.Success? ==> r.value == c.value.0 && State() == c.value.1 && values == [c.value.0] + old(values)) &&
        (c.Failure? ==> r == Failure(c.error) && State() == old(State()) && values == old(values))
    {
      var c := Convert(env, State(), e);
      if c.Failure? {
        return Failure(c.error);
      }
      var st := c.value.1;
      out, temporaries, letDecls, checkpoints, symbols := st.out, st.temporaries, st.letDecls, st.checkpoints, st.symbols;
      values := [c.value.0] + values;
      r := Success(c.value.0);
    }

    /** getValue: the opaque form of the one value on the stack. */
    method GetValue() returns (r: Outcome<string>)
      ensures |values| > 1 ==> r == InternalFail("Values lost during conversion")
      ensures values == [] ==> r == NullPointer()
      ensures |values| == 1 ==> r == ToOpaqueString(values[0])
    {
      if |values| > 1 {
        return InternalFail("Values lost during conversion");
      }
      if values == [] {
        return NullPointer();
      }
      r := ToOpaqueString(values[0]);
    }

    /** getValue(type): the one value on the stack, coerced to a type. */
    method GetValueAs(t: BoogieType) returns (r: Outcome<string>)
      ensures |values| > 1 ==> r == InternalFail("Values lost during conversion")
      ensures values == [] ==> r == NullPointer()
      ensures |values| == 1 ==> r == BoogieValue.GetValue(values[0], t)
    {
      if |values| > 1 {
        return InternalFail("Values lost during conversion");
      }
      if values == [] {
        return NullPointer();
      }
      r := BoogieValue.GetValue(values[0], t);
    }
  }
}
