/** BoogieClassDecls: the declarations a Boogie program needs before its expressions
    can be translated. A depth-first walk over the expressions declares, once per
    method name, an abstract target procedure for invocations, and interns each `new`
    expression as a class: its class id constant, its constructor and method
    procedures, and the field, method and checkpoint constants they use. Children are
    visited first, so a `new` nested in another is interned before the enclosing one. */
module BoogieClassDecls {
  import opened Wrappers
  import opened Syntax
  import Types
  import opened PrettyPrint
  import BoogieUtil
  import BoogieConstants
  import BoogieFunctions
  import BoogieMethods
  import BoogieClasses
  import SymbolTable
  import FormalParamsCollector
  import BoogieExprConverter
  import BoogieObjectConverter
  import Order

  /** The shared tables the walk updates and the stream the declarations go to. */
  datatype DState = DState(symbols: SymbolTable.Scopes, methods: BoogieMethods.Methods,
                           classes: BoogieClasses.Classes, constants: BoogieConstants.Constants,
                           out: Printer)

  // ---------------------------------------------------------------------------
  // Invocations
  // ---------------------------------------------------------------------------

  /** outAInvokeExpr: a method name without a procedure gets a fresh one, declared as
      an abstract target method with as many arguments as this call passes. */
  function InvokeStep(st: DState, e: Expr): (r: DState)
    requires e.Invoke?
    ensures e.methodName in r.methods
    ensures e.methodName in st.methods ==> r == st
    ensures r.symbols == st.symbols && r.classes == st.classes && r.constants == st.constants
  {
    if BoogieMethods.ProcName(st.methods, e.methodName).Some? then st
    else
      var proc := BoogieMethods.FreshProcName(st.methods, e.methodName);
      st.(out := BoogieUtil.DeclareTargetMethod(st.out, proc, |e.args|),
          methods := BoogieMethods.PutValue(st.methods, e.methodName, proc))
  }

  /** No two method names share a procedure. */
  predicate ProcsDistinct(m: BoogieMethods.Methods)
  {
    forall a, b :: a in m && b in m && a != b ==> m[a] != m[b]
  }

  /** A method name is declared once: every later invocation of the name, with any
      number of arguments, reuses its procedure and writes nothing. */
  lemma InvokeOnce(st: DState, e: Expr, e2: Expr)
    requires e.Invoke? && e2.Invoke? && e2.methodName == e.methodName
    ensures InvokeStep(InvokeStep(st, e), e2) == InvokeStep(st, e)
  {
  }

  /** The first invocation of a name declares, with that call's arity, a procedure that
      no other name has. */
  lemma InvokeFresh(st: DState, e: Expr)
    requires e.Invoke? && e.methodName !in st.methods
    ensures var proc := BoogieMethods.FreshProcName(st.methods, e.methodName);
      InvokeStep(st, e).methods == st.methods[e.methodName := proc] &&
      (forall y :: y in st.methods ==> st.methods[y] != proc) &&
      InvokeStep(st, e).out == BoogieUtil.DeclareTargetMethod(st.out, proc, |e.args|)
    ensures ProcsDistinct(st.methods) ==> ProcsDistinct(InvokeStep(st, e).methods)
  {
    BoogieMethods.FreshProcNameUnused(st.methods, e.methodName, e.methodName);
  }

  // ---------------------------------------------------------------------------
  // Constants registered for a class
  // ---------------------------------------------------------------------------

  /** addMethod for each key, in order. */
  function AddMethodsValue(c: BoogieConstants.Constants, ks: seq<string>): (r: BoogieConstants.Constants)
    ensures r.fields == c.fields && r.checkpoints == c.checkpoints && r.methodNames == c.methodNames && r.exprs == c.exprs
    ensures forall d :: d in r.methods <==> d in c.methods || d in ks
    ensures forall d :: d in c.methods ==> r.methods[d] == c.methods[d]
    ensures BoogieConstants.Valid(c) ==> BoogieConstants.Valid(r)
    decreases |ks|
  {
    if ks == [] then c
    else
      var c1 := BoogieConstants.AddMethodValue(c, ks[0]);
      assert BoogieConstants.Valid(c) ==> BoogieConstants.Valid(c1) by {
        if BoogieConstants.Valid(c) {
          BoogieConstants.AddMethodSpec(c, ks[0]);
        }
      }
      assert forall d :: d in ks <==> d == ks[0] || d in ks[1..] by {
        assert ks == [ks[0]] + ks[1..];
      }
      AddMethodsValue(c1, ks[1..])
  }

  /** addCheckpoint for each label, in order: each new label is declared once. */
  function AddCheckpointsValue(c: BoogieConstants.Constants, p: Printer, ks: seq<string>): (r: (BoogieConstants.Constants, Printer))
    ensures r.0.(checkpoints := c.checkpoints) == c
    ensures forall k :: k in r.0.checkpoints <==> k in c.checkpoints || k in ks
    ensures r.1.tab == p.tab && (p.newLine ==> r.1.newLine)
    decreases |ks|
  {
    if ks == [] then (c, p)
    else
      var (c1, p1) := BoogieConstants.AddCheckpointValue(c, ks[0], p);
      assert forall d :: d in ks <==> d == ks[0] || d in ks[1..] by {
        assert ks == [ks[0]] + ks[1..];
      }
      AddCheckpointsValue(c1, p1, ks[1..])
  }

  // ---------------------------------------------------------------------------
  // `new` expressions
  // ---------------------------------------------------------------------------

  /** The class name of a `new`: its class identifier, else the next fresh class id. */
  function ClassNameOf(c: BoogieClasses.Classes, e: Expr): string
    requires e.New?
  {
    if e.classIdent.Some? then e.classIdent.value else BoogieClasses.NextClassId(c)
  }

  function ClassIdDecl(name: string): string
  {
    "const unique " + name + " : ClassId;"
  }

  /** The checkpoints of the constructor parameters: each value is converted on a
      stream of its own, with no variable map and no temporaries, and its checkpoint
      labels are declared on the main stream. */
  function ParamsStep(fns: BoogieFunctions.Table, st: DState, ps: seq<NewParam>): (r: Outcome<DState>)
    ensures r.Success? ==> r.value.methods == st.methods && r.value.classes == st.classes
    ensures r.Success? ==> |r.value.symbols| == |st.symbols| && BoogieExprConverter.Outer(r.value.symbols) == BoogieExprConverter.Outer(st.symbols)
    ensures r.Success? ==> r.value.constants.(checkpoints := st.constants.checkpoints) == st.constants
    ensures r.Success? ==> forall k :: k in r.value.constants.checkpoints <==>
      k in st.constants.checkpoints || k in BoogieExprConverter.NamesOfParams(ps).labels
    ensures r.Success? ==> r.value.out.tab == st.out.tab && (st.out.newLine ==> r.value.out.newLine)
    decreases |ps|
  {
    if ps == [] then Success(st)
    else
      var env := BoogieExprConverter.XEnv(map[], fns, st.methods, st.classes);
      var x0 := BoogieExprConverter.XState(Start(), map[], {}, map[], st.symbols);
      var conv :- BoogieExprConverter.Convert(env, x0, ps[0].value);
      var labels := Order.Sorted(conv.1.checkpoints.Keys);
      var (c, p) := AddCheckpointsValue(st.constants, st.out, labels);
      ParamsStep(fns, st.(symbols := conv.1.symbols, constants := c, out := p), ps[1..])
  }

  /** addFields only adds to the declared fields. */
  lemma FieldsAdded(c: BoogieConstants.Constants, fs: seq<string>, p: Printer)
    ensures var r := BoogieConstants.AddFieldsValue(c, fs, p).0;
      r.exprs == c.exprs && r.methodNames == c.methodNames && r.methods == c.methods &&
      r.checkpoints == c.checkpoints && r.methodProcIdCtr == c.methodProcIdCtr &&
      (forall f :: f in fs ==> f in r.fields)
  {
    BoogieConstants.AddFieldsDeclaresNew(c, fs, p);
  }

  /** What the object converter of a class collected, registered in the constants:
      its fields, its method names and its checkpoints, in that order. */
  function Register(c: BoogieConstants.Constants, p: Printer, os: BoogieObjectConverter.OState): (BoogieConstants.Constants, Printer)
  {
    var (c1, p1) := BoogieConstants.AddFieldsValue(c, os.fields, p);
    var c2 := AddMethodsValue(c1, Order.Sorted(os.methodSigs.Keys));
    AddCheckpointsValue(c2, p1, Order.Sorted(os.checkpoints.Keys))
  }

  /** Registering declares every field, method name and checkpoint label of the object,
      keeps the procedure ids already given out, and keeps the table valid. */
  lemma RegisterEffect(c: BoogieConstants.Constants, p: Printer, os: BoogieObjectConverter.OState)
    ensures var r := Register(c, p, os).0;
      r.exprs == c.exprs && r.methodNames == c.methodNames &&
      (forall f :: f in os.fields ==> f in r.fields) &&
      (forall m :: m in os.methodSigs ==> m in r.methods) &&
      (forall l :: l in os.checkpoints ==> l in r.checkpoints) &&
      c.checkpoints <= r.checkpoints &&
      (forall d :: d in c.methods ==> d in r.methods && r.methods[d] == c.methods[d]) &&
      (BoogieConstants.Valid(c) ==> BoogieConstants.Valid(r))
  {
    var (c1, p1) := BoogieConstants.AddFieldsValue(c, os.fields, p);
    FieldsAdded(c, os.fields, p);
    assert BoogieConstants.Valid(c) ==> BoogieConstants.Valid(c1);
  }

  /** The converter of the class's procedures: named by the class, over the current
      tables, on a stream of its own, with nothing collected yet. */
  function ObjectContext(fns: BoogieFunctions.Table, st: DState, name: string): BoogieObjectConverter.Context
  {
    BoogieObjectConverter.Context(name, name, fns, st.methods, st.classes)
  }

  function ObjectStart(st: DState): BoogieObjectConverter.OState
  {
    BoogieObjectConverter.OState(st.symbols, st.constants, Start(), [], map[], map[], map[])
  }

  /** outANewExpr. A `new` whose class is interned already is skipped; any other is
      interned under its class name. */
  function NewStep(fns: BoogieFunctions.Table, st: DState, e: Expr): (r: Outcome<DState>)
    requires e.New?
  {
    if BoogieClasses.ByDef(st.classes, e).Some? then Success(st)
    else Intern(fns, st, e, ClassNameOf(st.classes, e))
  }

  /** The class id is declared, the object converter translates the `new` on a stream of
      its own, and the checkpoints of its constructor parameters are declared. */
  function Intern(fns: BoogieFunctions.Table, st: DState, e: Expr, name: string): (r: Outcome<DState>)
    requires e.New?
  {
    var os :- BoogieObjectConverter.ConvertNew(ObjectContext(fns, st, name), ObjectStart(st), e);
    var st1 :- ParamsStep(fns, st.(symbols := os.symbols, constants := os.constants,
                                   out := PrintLine(st.out, ClassIdDecl(name))), e.params);
    FinishNew(st1, e, name, os)
  }

  /** The class is put in the table, what the converter collected is registered, and the
      object's procedures follow on the main stream. */
  function FinishNew(st: DState, e: Expr, name: string, os: BoogieObjectConverter.OState): (r: Outcome<DState>)
    requires e.New?
  {
    var classes :- BoogieClasses.PutValue(st.classes, e, name);
    var (c, p) := Register(st.constants, st.out, os);
    Success(st.(classes := classes, constants := c, out := PrintLine(p, os.out.text)))
  }

  lemma FinishEffect(st: DState, e: Expr, name: string, os: BoogieObjectConverter.OState)
    requires e.New? && FinishNew(st, e, name, os).Success?
    ensures var r := FinishNew(st, e, name, os).value;
      BoogieClasses.ByDef(r.classes, e) == Some(name) &&
      st.classes.byDef.Keys <= r.classes.byDef.Keys &&
      r.methods == st.methods && r.symbols == st.symbols &&
      (BoogieConstants.Valid(st.constants) ==> BoogieConstants.Valid(r.constants)) &&
      (BoogieClasses.Inverse(st.classes) ==> BoogieClasses.Inverse(r.classes)) &&
      (forall f :: f in os.fields ==> f in r.constants.fields) &&
      (forall m :: m in os.methodSigs ==> m in r.constants.methods) &&
      (forall l :: l in os.checkpoints ==> l in r.constants.checkpoints)
  {
    RegisterEffect(st.constants, st.out, os);
    BoogieClasses.PutValueSpec(st.classes, e, name);
    if BoogieClasses.Inverse(st.classes) {
      BoogieClasses.PutKeepsInverse(st.classes, e, name);
    }
  }

  lemma {:induction false} InternEffect(fns: BoogieFunctions.Table, st: DState, e: Expr, name: string)
    requires e.New? && Intern(fns, st, e, name).Success?
    ensures var r := Intern(fns, st, e, name).value;
      BoogieClasses.ByDef(r.classes, e) == Some(name) &&
      st.classes.byDef.Keys <= r.classes.byDef.Keys &&
      r.methods == st.methods &&
      |r.symbols| == |st.symbols| && BoogieExprConverter.Outer(r.symbols) == BoogieExprConverter.Outer(st.symbols) &&
      (BoogieConstants.Valid(st.constants) ==> BoogieConstants.Valid(r.constants)) &&
      (BoogieClasses.Inverse(st.classes) ==> BoogieClasses.Inverse(r.classes)) &&
      (forall i :: 0 <= i < |e.params| ==> e.params[i].id in r.constants.fields) &&
      (forall m :: m in BoogieObjectConverter.MethodNames(e.methods, 0) ==> m in r.constants.methods) &&
      (forall l :: l in BoogieObjectConverter.MethodLabels(e.methods, 0) ==> l in r.constants.checkpoints)
  {
    InternTables(fns, st, e, name);
    InternRegisters(fns, st, e, name);
  }

  /** Intern, one step at a time. */
  lemma InternUnfolds(fns: BoogieFunctions.Table, st: DState, e: Expr, name: string)
    requires e.New? && Intern(fns, st, e, name).Success?
    ensures var os := BoogieObjectConverter.ConvertNew(ObjectContext(fns, st, name), ObjectStart(st), e);
      var p := ParamsStep(fns, st.(symbols := os.value.symbols, constants := os.value.constants,
                                   out := PrintLine(st.out, ClassIdDecl(name))), e.params);
      os.Success? && p.Success? && Intern(fns, st, e, name) == FinishNew(p.value, e, name, os.value)
  {
  }

  /** Interning keeps the tables' invariants, gives the definition its class and keeps
      the frames below the top. */
  lemma InternTables(fns: BoogieFunctions.Table, st: DState, e: Expr, name: string)
    requires e.New? && Intern(fns, st, e, name).Success?
    ensures var r := Intern(fns, st, e, name).value;
      BoogieClasses.ByDef(r.classes, e) == Some(name) &&
      st.classes.byDef.Keys <= r.classes.byDef.Keys &&
      r.methods == st.methods &&
      |r.symbols| == |st.symbols| && BoogieExprConverter.Outer(r.symbols) == BoogieExprConverter.Outer(st.symbols) &&
      (BoogieConstants.Valid(st.constants) ==> BoogieConstants.Valid(r.constants)) &&
      (BoogieClasses.Inverse(st.classes) ==> BoogieClasses.Inverse(r.classes))
  {
    InternUnfolds(fns, st, e, name);
    var os := BoogieObjectConverter.ConvertNew(ObjectContext(fns, st, name), ObjectStart(st), e).value;
    var st0 := st.(symbols := os.symbols, constants := os.constants, out := PrintLine(st.out, ClassIdDecl(name)));
    var st1 := ParamsStep(fns, st0, e.params).value;
    FinishEffect(st1, e, name, os);
    ConstantsThroughParams(st0.constants, st1.constants);
  }

  /** Interning registers the object's fields, method names and checkpoint labels. */
  lemma InternRegisters(fns: BoogieFunctions.Table, st: DState, e: Expr, name: string)
    requires e.New? && Intern(fns, st, e, name).Success?
    ensures var r := Intern(fns, st, e, name).value;
      (forall i :: 0 <= i < |e.params| ==> e.params[i].id in r.constants.fields) &&
      (forall m :: m in BoogieObjectConverter.MethodNames(e.methods, 0) ==> m in r.constants.methods) &&
      (forall l :: l in BoogieObjectConverter.MethodLabels(e.methods, 0) ==> l in r.constants.checkpoints)
  {
    InternUnfolds(fns, st, e, name);
    var o0 := ObjectStart(st);
    var os := BoogieObjectConverter.ConvertNew(ObjectContext(fns, st, name), o0, e).value;
    var st0 := st.(symbols := os.symbols, constants := os.constants, out := PrintLine(st.out, ClassIdDecl(name)));
    var st1 := ParamsStep(fns, st0, e.params).value;
    assert BoogieObjectConverter.SigsMatchDefs(o0);
    FinishRegisters(st1, e, name, o0, os);
  }

  /** Finishing a `new` registers what the object converter collected for it. */
  lemma FinishRegisters(st: DState, e: Expr, name: string, o0: BoogieObjectConverter.OState,
                        os: BoogieObjectConverter.OState)
    requires e.New? && FinishNew(st, e, name, os).Success?
    requires os.fields == o0.fields + BoogieObjectConverter.FieldIds(e.params)
    requires BoogieObjectConverter.SigsMatchDefs(os)
    requires os.methodDefs.Keys == o0.methodDefs.Keys + BoogieObjectConverter.MethodNames(e.methods, 0)
    requires os.checkpoints.Keys == o0.checkpoints.Keys + BoogieObjectConverter.MethodLabels(e.methods, 0)
    ensures var r := FinishNew(st, e, name, os).value;
      (forall i :: 0 <= i < |e.params| ==> e.params[i].id in r.constants.fields) &&
      (forall m :: m in BoogieObjectConverter.MethodNames(e.methods, 0) ==> m in r.constants.methods) &&
      (forall l :: l in BoogieObjectConverter.MethodLabels(e.methods, 0) ==> l in r.constants.checkpoints)
  {
    FinishEffect(st, e, name, os);
    var ids := BoogieObjectConverter.FieldIds(e.params);
    forall i | 0 <= i < |e.params|
      ensures e.params[i].id in os.fields
    {
      assert os.fields[|o0.fields| + i] == ids[i];
    }
  }

  /** Declaring checkpoints alone keeps the constants table valid. */
  lemma ConstantsThroughParams(a: BoogieConstants.Constants, b: BoogieConstants.Constants)
    requires b.(checkpoints := a.checkpoints) == a
    ensures BoogieConstants.Valid(a) ==> BoogieConstants.Valid(b)
  {
  }

  /** Interning a `new`: afterwards the definition has a class, the one it already had
      or, when it had none, its class name; the method table and the frames below the
      top are unchanged; a new class has its fields, method names and checkpoint labels
      registered as constants; and both tables keep their invariants. */
  lemma NewEffect(fns: BoogieFunctions.Table, st: DState, e: Expr)
    requires e.New? && NewStep(fns, st, e).Success?
    ensures var r := NewStep(fns, st, e).value;
      BoogieClasses.ByDef(r.classes, e).Some? &&
      (BoogieClasses.ByDef(st.classes, e).Some? ==> r == st) &&
      (BoogieClasses.ByDef(st.classes, e).None? ==> BoogieClasses.ByDef(r.classes, e) == Some(ClassNameOf(st.classes, e))) &&
      st.classes.byDef.Keys <= r.classes.byDef.Keys && r.methods == st.methods &&
      |r.symbols| == |st.symbols| && BoogieExprConverter.Outer(r.symbols) == BoogieExprConverter.Outer(st.symbols) &&
      (BoogieConstants.Valid(st.constants) ==> BoogieConstants.Valid(r.constants)) &&
      (BoogieClasses.Inverse(st.classes) ==> BoogieClasses.Inverse(r.classes))
    ensures var r := NewStep(fns, st, e).value;
      BoogieClasses.ByDef(st.classes, e).None? ==>
        (forall i :: 0 <= i < |e.params| ==> e.params[i].id in r.constants.fields) &&
        (forall m :: m in BoogieObjectConverter.MethodNames(e.methods, 0) ==> m in r.constants.methods) &&
        (forall l :: l in BoogieObjectConverter.MethodLabels(e.methods, 0) ==> l in r.constants.checkpoints)
  {
    if BoogieClasses.ByDef(st.classes, e).None? {
      InternEffect(fns, st, e, ClassNameOf(st.classes, e));
    }
  }

  /** A `new` interned once is skipped from then on: interning twice is interning once. */
  lemma NewOnce(fns: BoogieFunctions.Table, st: DState, e: Expr)
    requires e.New? && NewStep(fns, st, e).Success?
    ensures NewStep(fns, NewStep(fns, st, e).value, e) == NewStep(fns, st, e)
  {
    NewEffect(fns, st, e);
  }

  /** A class name that already names a different definition is rejected: a `new` with
      no class yet cannot be interned under it. */
  lemma RedefinitionRejected(fns: BoogieFunctions.Table, st: DState, e: Expr)
    requires e.New? && e.classIdent.Some? && BoogieClasses.ByDef(st.classes, e).None?
    requires BoogieClasses.ById(st.classes, e.classIdent.value).Some?
    requires BoogieClasses.ById(st.classes, e.classIdent.value).value != BoogieClasses.Key(e)
    ensures NewStep(fns, st, e).Failure?
  {
    var name := e.classIdent.value;
    var c := BoogieObjectConverter.ConvertNew(ObjectContext(fns, st, name), ObjectStart(st), e);
    if c.Success? {
      var os := c.value;
      var s := ParamsStep(fns, st.(symbols := os.symbols, constants := os.constants,
                                   out := PrintLine(st.out, ClassIdDecl(name))), e.params);
      if s.Success? {
        BoogieClasses.PutValueSpec(s.value.classes, e, name);
      }
    }
  }

  // ---------------------------------------------------------------------------
  // The walk
  // ---------------------------------------------------------------------------

  /** The depth-first walk of an expression: the children first, then the node. */
  function Declare(fns: BoogieFunctions.Table, st: DState, e: Expr): (r: Outcome<DState>)
    ensures r.Success? ==> (|r.value.symbols| == |st.symbols| &&
      BoogieExprConverter.Outer(r.value.symbols) == BoogieExprConverter.Outer(st.symbols))
    decreases e, 1
  {
    var st1 :- DeclareAll(fns, st, ExprChildren(e), e);
    if e.Invoke? then Success(InvokeStep(st1, e))
    else if e.New? then
      var w :- NewStep(fns, st1, e);
      NewEffect(fns, st1, e);
      Success(w)
    else Success(st1)
  }

  function DeclareAll(fns: BoogieFunctions.Table, st: DState, es: seq<Expr>, parent: Expr): (r: Outcome<DState>)
    requires forall i :: 0 <= i < |es| ==> es[i] < parent
    ensures r.Success? ==> (|r.value.symbols| == |st.symbols| &&
      BoogieExprConverter.Outer(r.value.symbols) == BoogieExprConverter.Outer(st.symbols))
    decreases parent, 0, |es|
  {
    if es == [] then Success(st)
    else
      var st1 :- Declare(fns, st, es[0]);
      DeclareAll(fns, st1, es[1..], parent)
  }

  /** inAFuncDecl / outAFuncDecl: the parameters of a function declaration are a
      constant frame, opaque, around the walk of its body. */
  function DeclareFunc(fns: BoogieFunctions.Table, st: DState, f: FuncDecl): (r: Outcome<DState>)
    ensures r.Success? ==> r.value.symbols == st.symbols
  {
    var ids :- FormalParamsCollector.CollectIds(f.formals);
    var sc := SymbolTable.AddEach([SymbolTable.FrameValue(SymbolTable.Constant, map[])] + st.symbols,
                                  ids, BoogieObjectConverter.Opaques(|ids|));
    var st1 :- if f.body.Some? then Declare(fns, st.(symbols := sc), f.body.value) else Success(st.(symbols := sc));
    Success(st1.(symbols := BoogieExprConverter.Outer(st1.symbols)))
  }

  // ---------------------------------------------------------------------------
  // What the walk guarantees
  // ---------------------------------------------------------------------------

  /** Every `new` in e has a class and every invoked method name a procedure. */
  predicate Declared(st: DState, e: Expr)
    decreases e
  {
    (e.New? ==> BoogieClasses.ByDef(st.classes, e).Some?) &&
    (e.Invoke? ==> e.methodName in st.methods) &&
    forall i :: 0 <= i < |ExprChildren(e)| ==> Declared(st, ExprChildren(e)[i])
  }

  /** The tables only grow. */
  predicate Extends(a: DState, b: DState)
  {
    a.classes.byDef.Keys <= b.classes.byDef.Keys && a.methods.Keys <= b.methods.Keys
  }

  lemma {:induction false} DeclaredMonotone(a: DState, b: DState, e: Expr)
    requires Declared(a, e) && Extends(a, b)
    ensures Declared(b, e)
    decreases e
  {
    forall i | 0 <= i < |ExprChildren(e)|
      ensures Declared(b, ExprChildren(e)[i])
    {
      DeclaredMonotone(a, b, ExprChildren(e)[i]);
    }
  }

  lemma InvokeExtends(st: DState, e: Expr)
    requires e.Invoke?
    ensures Extends(st, InvokeStep(st, e))
  {
  }

  lemma NewExtends(fns: BoogieFunctions.Table, st: DState, e: Expr)
    requires e.New? && NewStep(fns, st, e).Success?
    ensures Extends(st, NewStep(fns, st, e).value)
  {
    NewEffect(fns, st, e);
  }

  /** After a successful walk every `new` in the expression has a class and every
      invoked method a procedure, and the tables only grew. */
  lemma {:induction false} DeclareDeclares(fns: BoogieFunctions.Table, st: DState, e: Expr)
    requires Declare(fns, st, e).Success?
    ensures Declared(Declare(fns, st, e).value, e) && Extends(st, Declare(fns, st, e).value)
    decreases e, 1
  {
    var cs := ExprChildren(e);
    var st1 := DeclareAll(fns, st, cs, e).value;
    DeclareAllDeclares(fns, st, cs, e);
    var r := Declare(fns, st, e).value;
    if e.Invoke? {
      InvokeExtends(st1, e);
    } else if e.New? {
      NewExtends(fns, st1, e);
      NewEffect(fns, st1, e);
    }
    forall i | 0 <= i < |cs|
      ensures Declared(r, cs[i])
    {
      DeclaredMonotone(st1, r, cs[i]);
    }
  }

  lemma {:induction false} DeclareAllDeclares(fns: BoogieFunctions.Table, st: DState, es: seq<Expr>, parent: Expr)
    requires forall i :: 0 <= i < |es| ==> es[i] < parent
    requires DeclareAll(fns, st, es, parent).Success?
    ensures Extends(st, DeclareAll(fns, st, es, parent).value)
    ensures forall i :: 0 <= i < |es| ==> Declared(DeclareAll(fns, st, es, parent).value, es[i])
    decreases parent, 0, |es|
  {
    if es != [] {
      var st1 := Declare(fns, st, es[0]).value;
      DeclareDeclares(fns, st, es[0]);
      DeclareAllDeclares(fns, st1, es[1..], parent);
      var r := DeclareAll(fns, st, es, parent).value;
      DeclaredMonotone(st1, r, es[0]);
      forall i | 1 <= i < |es|
        ensures Declared(r, es[i])
      {
        assert es[i] == es[1..][i - 1];
      }
    }
  }

  /** Nested classes first: when a `new` is interned, every `new` among its constructor
      arguments and method bodies already has a class, and every method they invoke a
      procedure, so the object converter's lookups find them. */
  lemma NestedFirst(fns: BoogieFunctions.Table, st: DState, e: Expr)
    requires e.New? && DeclareAll(fns, st, ExprChildren(e), e).Success?
    ensures forall i :: 0 <= i < |ExprChildren(e)| ==>
      Declared(DeclareAll(fns, st, ExprChildren(e), e).value, ExprChildren(e)[i])
  {
    DeclareAllDeclares(fns, st, ExprChildren(e), e);
  }

  // ---------------------------------------------------------------------------
  // The walker
  // ---------------------------------------------------------------------------

  /** The walker over the shared symbol table, method, class and constant tables, and
      the declaration stream. */
  class ClassDecls {
    const functions: BoogieFunctions.Table
    const methods: BoogieMethods.BoogieMethods
    const classes: BoogieClasses.BoogieClasses
    const constants: BoogieConstants.BoogieConstants
    const out: PrettyPrintStream
    var symbols: SymbolTable.Scopes

    function State(): DState
      reads this, methods, classes, constants, out
    {
      DState(symbols, methods.methodsMap, classes.Value(), constants.Value(), out.Value())
    }

    constructor (symbols: SymbolTable.Scopes, functions: BoogieFunctions.Table, methods: BoogieMethods.BoogieMethods,
                 classes: BoogieClasses.BoogieClasses, constants: BoogieConstants.BoogieConstants, out: PrettyPrintStream)
      ensures this.functions == functions && this.methods == methods && this.classes == classes
      ensures this.constants == constants && this.out == out && this.symbols == symbols
    {
      this.symbols := symbols;
      this.functions := functions;
      this.methods := methods;
      this.classes := classes;
      this.constants := constants;
      this.out := out;
    }

    /** The walk of one expression. */
    method Visit(e: Expr) returns (r: Outcome<()>)
      modifies this, methods, classes, constants, out
      ensures var d := Declare(functions, old(State()), e);
        (r.Success? <==> d.Success?) && (d.Success? ==> State() == d.value) &&
        (d.Failure? ==> r.Failure? && r.error == d.error)
      decreases e, 1
    {
      r := VisitAll(ExprChildren(e), e);
      if r.Failure? {
        return;
      }
      if e.Invoke? {
        OutInvoke(e);
      } else if e.New? {
        r := OutNew(e);
      }
    }

    method VisitAll(es: seq<Expr>, parent: Expr) returns (r: Outcome<()>)
      requires forall i :: 0 <= i < |es| ==> es[i] < parent
      modifies this, methods, classes, constants, out
      ensures var d := DeclareAll(functions, old(State()), es, parent);
        (r.Success? <==> d.Success?) && (d.Success? ==> State() == d.value) &&
        (d.Failure? ==> r.Failure? && r.error == d.error)
      decreases parent, 0
    {
      for i := 0 to |es|
        invariant DeclareAll(functions, State(), es[i..], parent) == DeclareAll(functions, old(State()), es, parent)
      {
        assert es[i..][0] == es[i] && es[i..][1..] == es[i + 1..];
        r := Visit(es[i]);
        if r.Failure? {
          return;
        }
      }
      return Success(());
    }

    /** The walk of a function declaration. */
    method VisitFunc(f: FuncDecl) returns (r: Outcome<()>)
      modifies this, methods, classes, constants, out
      ensures var d := DeclareFunc(functions, old(State()), f);
        (r.Success? <==> d.Success?) && (d.Success? ==> State() == d.value) &&
        (d.Failure? ==> r.Failure? && r.error == d.error)
    {
      var collected := FormalParamsCollector.CollectIds(f.formals);
      if collected.Failure? {
        return Failure(collected.error);
      }
      var ids := collected.value;
      symbols := [SymbolTable.FrameValue(SymbolTable.Constant, map[])] + symbols;
      symbols := SymbolTable.AddEach(symbols, ids, BoogieObjectConverter.Opaques(|ids|));
      r := Success(());
      if f.body.Some? {
        r := Visit(f.body.value);
        if r.Failure? {
          return;
        }
      }
      symbols := symbols[1..];
    }

    /** outAInvokeExpr. */
    method OutInvoke(e: Expr)
      requires e.Invoke?
      modifies methods, out
      ensures State() == InvokeStep(old(State()), e)
    {
      var proc := methods.GetBoogieProcName(e.methodName);
      if proc.None? {
        var p := methods.FreshMethodProcName(e.methodName);
        DeclareTargetMethod(p, |e.args|);
        methods.Put(e.methodName, p);
      }
    }

    /** declareTargetMethod: the abstract procedure of a method name and its functions. */
    method DeclareTargetMethod(m: string, n: nat)
      modifies out
      ensures out.Value() == BoogieUtil.DeclareTargetMethod(old(out.Value()), m, n)
    {
      out.PrintlnAll(BoogieUtil.TargetMethodLines(m, n));
      out.PrintlnText(BoogieUtil.ClassIdsPreserved);
      out.Println();
    }

    /** outANewExpr. The fresh class id is computed whether or not it is used. */
    method OutNew(e: Expr) returns (r: Outcome<()>)
      requires e.New?
      modifies this, classes, constants, out
      ensures var d := NewStep(functions, old(State()), e);
        (r.Success? <==> d.Success?) && (d.Success? ==> State() == d.value) &&
        (d.Failure? ==> r.Failure? && r.error == d.error)
    {
      if classes.GetByDef(e).Some? {
        return Success(());
      }
      var name := classes.FreshClassId();
      if e.classIdent.Some? {
        name := e.classIdent.value;
      }
      r := InternNew(e, name);
    }

    method InternNew(e: Expr, name: string) returns (r: Outcome<()>)
      requires e.New?
      modifies this, classes, constants, out
      ensures var d := Intern(functions, old(State()), e, name);
        (r.Success? <==> d.Success?) && (d.Success? ==> State() == d.value) &&
        (d.Failure? ==> r.Failure? && r.error == d.error)
    {
      ghost var st0 := State();
      var objOut := new PrettyPrintStream();
      var conv := new BoogieObjectConverter.ObjectConverter(BoogieObjectConverter.Context(name, name, functions, methods.methodsMap, classes.Value()), symbols, constants, objOut);
      out.PrintlnText(ClassIdDecl(name));
      r := conv.Apply(e);
      if r.Failure? {
        return;
      }
      ghost var os := conv.State();
      symbols := conv.symbols;
      assert State() == st0.(symbols := os.symbols, constants := os.constants, out := PrintLine(st0.out, ClassIdDecl(name)));
      r := ParamCheckpoints(e.params);
      if r.Failure? {
        return;
      }
      r := Finish(e, name, conv.fields, conv.methodSigs.Keys, conv.checkpoints.Keys, objOut.text, os);
    }

    method Finish(e: Expr, name: string, fields: seq<string>, sigs: set<string>, labels: set<string>, text: string,
                  ghost os: BoogieObjectConverter.OState) returns (r: Outcome<()>)
      requires e.New?
      requires fields == os.fields && sigs == os.methodSigs.Keys && labels == os.checkpoints.Keys && text == os.out.text
      modifies classes, constants, out
      ensures var d := FinishNew(old(State()), e, name, os);
        (r.Success? <==> d.Success?) && (d.Success? ==> State() == d.value) &&
        (d.Failure? ==> r.Failure? && r.error == d.error)
    {
      r := classes.Put(e, name);
      if r.Failure? {
        return;
      }
      RegisterObject(fields, sigs, labels, os);
      out.PrintlnText(text);
    }

    /** The fields, method names and checkpoints of a converted object, registered. */
    method RegisterObject(fields: seq<string>, sigs: set<string>, labels: set<string>, ghost os: BoogieObjectConverter.OState)
      requires fields == os.fields && sigs == os.methodSigs.Keys && labels == os.checkpoints.Keys
      modifies constants, out
      ensures (constants.Value(), out.Value()) == Register(old(constants.Value()), old(out.Value()), os)
    {
      constants.AddFields(fields, out);
      AddMethods(Order.Sorted(sigs));
      AddCheckpoints(Order.Sorted(labels));
    }

    method AddMethods(ks: seq<string>)
      modifies constants
      ensures constants.Value() == AddMethodsValue(old(constants.Value()), ks)
    {
      for i := 0 to |ks|
        invariant AddMethodsValue(constants.Value(), ks[i..]) == AddMethodsValue(old(constants.Value()), ks)
      {
        assert ks[i..][0] == ks[i] && ks[i..][1..] == ks[i + 1..];
        constants.AddMethod(ks[i]);
      }
    }

    method AddCheckpoints(ks: seq<string>)
      modifies constants, out
      ensures (constants.Value(), out.Value()) == AddCheckpointsValue(old(constants.Value()), old(out.Value()), ks)
    {
      for i := 0 to |ks|
        invariant AddCheckpointsValue(constants.Value(), out.Value(), ks[i..]) ==
                  AddCheckpointsValue(old(constants.Value()), old(out.Value()), ks)
      {
        assert ks[i..][0] == ks[i] && ks[i..][1..] == ks[i + 1..];
        constants.AddCheckpoint(ks[i], out);
      }
    }

    /** The checkpoints of the constructor parameters. */
    method ParamCheckpoints(ps: seq<NewParam>) returns (r: Outcome<()>)
      modifies this, constants, out
      ensures var d := ParamsStep(functions, old(State()), ps);
        (r.Success? <==> d.Success?) && (d.Success? ==> State() == d.value) &&
        (d.Failure? ==> r.Failure? && r.error == d.error)
    {
      for i := 0 to |ps|
        invariant ParamsStep(functions, State(), ps[i..]) == ParamsStep(functions, old(State()), ps)
      {
        assert ps[i..][0] == ps[i] && ps[i..][1..] == ps[i + 1..];
        var env := BoogieExprConverter.XEnv(map[], functions, methods.methodsMap, classes.Value());
        var conv := new BoogieExprConverter.ExprConverter(env, symbols, map[], Start());
        var v := conv.Apply(ps[i].value);
        if v.Failure? {
          return Failure(v.error);
        }
        symbols := conv.symbols;
        AddCheckpoints(Order.Sorted(conv.checkpoints.Keys));
      }
      return Success(());
    }
  }
}
