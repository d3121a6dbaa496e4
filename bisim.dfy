/** Bisim: the bisimulation tactic. Two `new` expressions are translated into one
    Boogie program: the classes they need, a procedure `both.new` that builds both
    objects side by side and establishes the invariants, and for every method a
    procedure `both.<m>` that runs the left and the right method from states
    satisfying the invariants and asks for equal results, equal function states and
    the invariants again. The program becomes one proof task. */
module Bisim {
  import opened Wrappers
  import opened Syntax
  import Types
  import opened BoogieTypes
  import opened BoogieValue
  import opened PrettyPrint
  import BoogieUtil
  import BoogieConstants
  import BoogieFunctions
  import BoogieMethods
  import BoogieClasses
  import SymbolTable
  import BoogieExprConverter
  import BoogieObjectConverter
  import BoogiePropConverter
  import BoogieClassDecls
  import Order
  import Fresh

  type DState = BoogieClassDecls.DState

  /** The proof task a bisimulation becomes: the program, what is being checked, the
      message of a failed proof and the scheduling priority. */
  datatype ProofTask = ProofTask(program: string, description: string, failureMessage: string, priority: int)

  const Description := "Checking bisimulation"
  const FailureMessage := "Bisimulation check failed."
  const SignatureMismatch := "Objects in bisimulation must have identical method signatures."

  // ---------------------------------------------------------------------------
  // The two objects
  // ---------------------------------------------------------------------------

  /** The class id of an interned definition; an unknown one prints as "null". */
  function ClassIdOf(c: BoogieClasses.Classes, e: Expr): string
    requires e.New?
  {
    match BoogieClasses.ByDef(c, e)
    case Some(id) => id
    case None => "null"
  }

  /** The object of one side, once its classes are declared: the object converter
      translates it on a stream that is thrown away (what it adds to the constants and
      the symbol table stays), and its fields are declared on the main stream. */
  function SideObject(fns: BoogieFunctions.Table, st: DState, e: Expr, name: string)
    : (r: Outcome<(BoogieObjectConverter.OState, DState)>)
    requires e.New?
    ensures r.Success? ==> r.value.0.fields == BoogieObjectConverter.FieldIds(e.params)
    ensures r.Success? ==> r.value.0.methodSigs.Keys == BoogieObjectConverter.MethodNames(e.methods, 0)
    ensures r.Success? ==> BoogieObjectConverter.SigsMatchDefs(r.value.0)
    ensures r.Success? ==> r.value.1.methods == st.methods && r.value.1.classes == st.classes
    ensures r.Success? ==> (|r.value.1.symbols| == |st.symbols| &&
      BoogieExprConverter.Outer(r.value.1.symbols) == BoogieExprConverter.Outer(st.symbols))
  {
    var ctx := BoogieObjectConverter.Context(name, ClassIdOf(st.classes, e), fns, st.methods, st.classes);
    var os :- BoogieObjectConverter.ConvertNew(ctx, BoogieClassDecls.ObjectStart(st), e);
    var fs := BoogieConstants.AddFieldsValue(os.constants, os.fields, st.out);
    Success((os, st.(symbols := os.symbols, constants := fs.0, out := fs.1)))
  }

  /** One side: the classes the expression needs are declared, then its object. */
  function Side(fns: BoogieFunctions.Table, st: DState, e: Expr, name: string)
    : (r: Outcome<(BoogieObjectConverter.OState, DState)>)
    requires e.New?
    ensures r.Success? ==> r.value.0.fields == BoogieObjectConverter.FieldIds(e.params)
    ensures r.Success? ==> r.value.0.methodSigs.Keys == BoogieObjectConverter.MethodNames(e.methods, 0)
    ensures r.Success? ==> BoogieObjectConverter.SigsMatchDefs(r.value.0)
    ensures r.Success? ==> r.value.1.methods.Keys >= st.methods.Keys && r.value.1.classes.byDef.Keys >= st.classes.byDef.Keys
    ensures r.Success? ==> BoogieClasses.ByDef(r.value.1.classes, e).Some?
    ensures r.Success? ==> (|r.value.1.symbols| == |st.symbols| &&
      BoogieExprConverter.Outer(r.value.1.symbols) == BoogieExprConverter.Outer(st.symbols))
  {
    var st1 :- BoogieClassDecls.Declare(fns, st, e);
    BoogieClassDecls.DeclareDeclares(fns, st, e);
    SideObject(fns, st1, e, name)
  }

  // ---------------------------------------------------------------------------
  // Invariants
  // ---------------------------------------------------------------------------

  /** A translated proposition, and whether it holds at every procedure boundary. */
  datatype BoogieBisimProp = BoogieBisimProp(prop: string, isInvariant: bool)

  /** A proposition without a scope clause is an invariant; with one, it is an
      invariant when the clause names `invariant`. */
  predicate IsInvariant(b: BisimProp)
  {
    b.scopes.None? || InvariantScope in b.scopes.value
  }

  function Prefixed(prefix: string, fs: seq<string>): (r: seq<string>)
    ensures |r| == |fs| && forall i :: 0 <= i < |fs| ==> r[i] == prefix + fs[i]
  {
    seq(|fs|, i requires 0 <= i < |fs| => prefix + fs[i])
  }

  /** The constant frame a proposition is translated in: every left field as
      "left.<f>" and every right field as "right.<f>", all opaque. */
  function SidesFrame(sc: SymbolTable.Scopes, lf: seq<string>, rf: seq<string>): (r: SymbolTable.Scopes)
    ensures |r| == |sc| + 1 && r[1..] == sc && r[0].kind == SymbolTable.Constant
  {
    SymbolTable.AddEach([SymbolTable.FrameValue(SymbolTable.Constant, map[])] + sc,
                        Prefixed("left.", lf) + Prefixed("right.", rf),
                        BoogieObjectConverter.Opaques(|lf| + |rf|))
  }

  /** The objects as the invariants see them: the two heaps and memories of the
      product program. */
  function InvariantSides(lf: seq<string>, rf: seq<string>): BoogiePropConverter.Sides
  {
    BoogiePropConverter.Sides("heap1", "heap2", "objectMemory1", "objectMemory2", Some(lf), Some(rf))
  }

  /** One conjunct of the default invariant: the i-th left field equals the i-th right
      field. */
  function FieldPair(f: string, g: string): string
  {
    BoogieUtil.FieldAccess("objectMemory1", f) + "==" + BoogieUtil.FieldAccess("objectMemory2", g)
  }

  function FieldPairs(lf: seq<string>, rf: seq<string>): (r: seq<string>)
    ensures |r| == BoogiePropConverter.Min(|lf|, |rf|)
    ensures forall i :: 0 <= i < |r| ==> r[i] == FieldPair(lf[i], rf[i])
  {
    seq(BoogiePropConverter.Min(|lf|, |rf|), i requires 0 <= i < BoogiePropConverter.Min(|lf|, |rf|) => FieldPair(lf[i], rf[i]))
  }

  /** The invariant used when none is given: the heaps are equal and so are the fields
      at the same position, as far as both field lists go. */
  function DefaultInvariant(lf: seq<string>, rf: seq<string>): string
  {
    BoogiePropConverter.Joined(["heap1==heap2"] + FieldPairs(lf, rf), " && ")
  }

  /** The given propositions in order, each translated against the product heaps. */
  function ConvertProps(fns: BoogieFunctions.Table, sc: SymbolTable.Scopes, ps: BoogiePropConverter.PState,
                        lf: seq<string>, rf: seq<string>, props: seq<BisimProp>)
    : (r: Outcome<(seq<BoogieBisimProp>, BoogiePropConverter.PState)>)
    ensures r.Success? ==> (|r.value.0| == |props| &&
      forall i :: 0 <= i < |props| ==> r.value.0[i].isInvariant == IsInvariant(props[i]))
    ensures r.Success? ==> r.value.1.constants.(exprs := ps.constants.exprs) == ps.constants
    ensures r.Success? && BoogieConstants.Valid(ps.constants) ==> BoogieConstants.Valid(r.value.1.constants)
    decreases |props|
  {
    if props == [] then Success(([], ps))
    else
      var c :- BoogiePropConverter.Convert(BoogiePropConverter.Env(InvariantSides(lf, rf), fns, map[]), sc, ps, props[0].prop);
      var s :- ToBooleanString(c.0);
      var rest :- ConvertProps(fns, sc, c.1, lf, rf, props[1..]);
      Success(([BoogieBisimProp(s, IsInvariant(props[0]))] + rest.0, rest.1))
  }

  /** toBoogieProps: with no propositions the default invariant; otherwise each
      proposition translated in the frame of the prefixed fields, which is popped again. */
  function Invariants(fns: BoogieFunctions.Table, st: DState, lf: seq<string>, rf: seq<string>,
                      props: Option<seq<BisimProp>>): (r: Outcome<(seq<BoogieBisimProp>, DState)>)
    ensures props.None? ==> r.Success? && r.value.1 == st
    ensures r.Success? ==> |r.value.0| == (if props.None? then 1 else |props.value|)
    ensures r.Success? ==> forall i :: 0 <= i < |r.value.0| ==>
      r.value.0[i].isInvariant == (props.None? || IsInvariant(props.value[i]))
    ensures r.Success? ==> r.value.1.symbols == st.symbols && r.value.1.methods == st.methods && r.value.1.classes == st.classes
  {
    if props.None? then Success(([BoogieBisimProp(DefaultInvariant(lf, rf), true)], st))
    else
      var c :- ConvertProps(fns, SidesFrame(st.symbols, lf, rf), BoogiePropConverter.PState(st.constants, st.out), lf, rf, props.value);
      Success((c.0, st.(constants := c.1.constants, out := c.1.out)))
  }

  /** The clause of every invariant proposition, under a keyword. */
  function InvariantClauses(bps: seq<BoogieBisimProp>, keyword: string): (r: seq<string>)
    decreases |bps|
  {
    if bps == [] then []
    else (if bps[0].isInvariant then [Clause(keyword, bps[0].prop)] else []) + InvariantClauses(bps[1..], keyword)
  }

  function Clause(keyword: string, p: string): string
  {
    keyword + "(" + p + ");"
  }

  lemma ClauseInjective(keyword: string, p: string, q: string)
    ensures Clause(keyword, p) == Clause(keyword, q) <==> p == q
  {
    if Clause(keyword, p) == Clause(keyword, q) {
      var n := |keyword| + 1;
      assert p == Clause(keyword, p)[n..|Clause(keyword, p)| - 2];
      assert q == Clause(keyword, q)[n..|Clause(keyword, q)| - 2];
    }
  }

  /** A clause is listed exactly when its proposition is an invariant; so the
      requires and the ensures of a method procedure name the same propositions. */
  lemma {:induction false} InvariantClausesExact(bps: seq<BoogieBisimProp>, keyword: string, p: string)
    ensures Clause(keyword, p) in InvariantClauses(bps, keyword) <==>
      exists i :: 0 <= i < |bps| && bps[i].isInvariant && bps[i].prop == p
    decreases |bps|
  {
    if bps != [] {
      InvariantClausesExact(bps[1..], keyword, p);
      ClauseInjective(keyword, p, bps[0].prop);
      if exists i :: 0 <= i < |bps[1..]| && bps[1..][i].isInvariant && bps[1..][i].prop == p {
        var i :| 0 <= i < |bps[1..]| && bps[1..][i].isInvariant && bps[1..][i].prop == p;
        assert bps[i + 1] == bps[1..][i];
      }
      if exists i :: 0 <= i < |bps| && bps[i].isInvariant && bps[i].prop == p {
        var i :| 0 <= i < |bps| && bps[i].isInvariant && bps[i].prop == p;
        if i > 0 {
          assert bps[1..][i - 1] == bps[i];
        }
      }
    }
  }

  lemma RequiresMatchEnsures(bps: seq<BoogieBisimProp>, p: string)
    ensures Clause("requires ", p) in InvariantClauses(bps, "requires ") <==>
      Clause("ensures ", p) in InvariantClauses(bps, "ensures ")
  {
    InvariantClausesExact(bps, "requires ", p);
    InvariantClausesExact(bps, "ensures ", p);
  }

  // ---------------------------------------------------------------------------
  // Checkpoint assertions
  // ---------------------------------------------------------------------------

  /** A proposition to assert where the left object passed one label and the right
      object the other. */
  datatype Obligation = Obligation(prop: Prop, left: string, right: string)

  function ScopesOf(b: BisimProp): seq<BisimScope>
  {
    if b.scopes.None? then [] else b.scopes.value
  }

  /** The checkpoint scopes of one proposition whose two labels were both recorded. */
  function ScopeObligations(p: Prop, ss: seq<BisimScope>, left: set<string>, right: set<string>): (r: seq<Obligation>)
    ensures forall o :: o in r <==> (o.prop == p && o.left in left && o.right in right &&
      CheckpointScope(o.left, o.right) in ss)
    decreases |ss|
  {
    if ss == [] then []
    else
      (if ss[0].CheckpointScope? && ss[0].leftLabel in left && ss[0].rightLabel in right
       then [Obligation(p, ss[0].leftLabel, ss[0].rightLabel)] else []) +
      ScopeObligations(p, ss[1..], left, right)
  }

  /** A proposition is scoped to the checkpoint pair of an obligation. */
  predicate InScope(b: BisimProp, o: Obligation)
  {
    b.prop == o.prop && CheckpointScope(o.left, o.right) in ScopesOf(b)
  }

  function PropObligations(props: seq<BisimProp>, left: set<string>, right: set<string>): (r: seq<Obligation>)
    ensures forall o :: o in r <==> (o.left in left && o.right in right && exists b :: b in props && InScope(b, o))
    decreases |props|
  {
    if props == [] then []
    else
      var head := ScopeObligations(props[0].prop, ScopesOf(props[0]), left, right);
      var w := head + PropObligations(props[1..], left, right);
      forall o: Obligation | o.left in left && o.right in right && exists b :: b in props && InScope(b, o)
        ensures o in w
      {
        var b :| b in props && InScope(b, o);
        if b != props[0] {
          assert b in props[1..];
        }
      }
      forall o | o in w
        ensures exists b :: b in props && InScope(b, o)
      {
        if o in head {
          assert InScope(props[0], o);
        } else {
          var b :| b in props[1..] && InScope(b, o);
          assert b in props;
        }
      }
      w
  }

  /** The assertions to emit: none without propositions; otherwise, for each
      proposition and each of its checkpoint scopes in order, those whose left label
      the left run recorded and whose right label the right run recorded. */
  function Obligations(props: Option<seq<BisimProp>>, left: set<string>, right: set<string>): seq<Obligation>
  {
    if props.None? then [] else PropObligations(props.value, left, right)
  }

  /** The objects as a checkpoint assertion sees them: the heap and memory each run
      saved at its label. */
  function CheckpointSides(lf: seq<string>, rf: seq<string>, o: Obligation): BoogiePropConverter.Sides
  {
    var lid := BoogieUtil.ToCheckpointId(o.left);
    var rid := BoogieUtil.ToCheckpointId(o.right);
    BoogiePropConverter.Sides("checkpoints1[" + lid + "][checkpointHeap]", "checkpoints2[" + rid + "][checkpointHeap]",
                              "checkpoints1[" + lid + "][checkpointMemory]", "checkpoints2[" + rid + "][checkpointMemory]",
                              Some(lf), Some(rf))
  }

  function FunctionStatesAgree(o: Obligation): string
  {
    "assert (checkpoints1[" + BoogieUtil.ToCheckpointId(o.left) + "][checkpointFunctionState]==checkpoints2[" +
      BoogieUtil.ToCheckpointId(o.right) + "][checkpointFunctionState]);"
  }

  /** toBoogieProp: one proposition translated in the frame of the prefixed fields. */
  function CheckpointProp(fns: BoogieFunctions.Table, sc: SymbolTable.Scopes, ps: BoogiePropConverter.PState,
                          lf: seq<string>, rf: seq<string>, o: Obligation): (r: Outcome<(string, BoogiePropConverter.PState)>)
    ensures r.Success? ==> r.value.1.constants.(exprs := ps.constants.exprs) == ps.constants
    ensures r.Success? && BoogieConstants.Valid(ps.constants) ==> BoogieConstants.Valid(r.value.1.constants)
  {
    var c :- BoogiePropConverter.Convert(BoogiePropConverter.Env(CheckpointSides(lf, rf, o), fns, map[]), SidesFrame(sc, lf, rf), ps, o.prop);
    var s :- ToBooleanString(c.0);
    Success((s, c.1))
  }

  /** Each obligation becomes an assertion of its proposition and of equal function
      states at the two labels. */
  function Assertions(fns: BoogieFunctions.Table, sc: SymbolTable.Scopes, ps: BoogiePropConverter.PState,
                      lf: seq<string>, rf: seq<string>, obs: seq<Obligation>): (r: Outcome<BoogiePropConverter.PState>)
    ensures r.Success? ==> r.value.constants.(exprs := ps.constants.exprs) == ps.constants
    ensures r.Success? && BoogieConstants.Valid(ps.constants) ==> BoogieConstants.Valid(r.value.constants)
    ensures obs == [] ==> r == Success(ps)
    decreases |obs|
  {
    if obs == [] then Success(ps)
    else
      var c :- CheckpointProp(fns, sc, ps, lf, rf, obs[0]);
      var p := PrintLines(c.1.out, ["assert (" + c.0 + ");", FunctionStatesAgree(obs[0])]);
      Assertions(fns, sc, BoogiePropConverter.PState(c.1.constants, p), lf, rf, obs[1..])
  }

  /** The assertions on the main state. */
  function AssertAll(fns: BoogieFunctions.Table, st: DState, lf: seq<string>, rf: seq<string>, obs: seq<Obligation>): (r: Outcome<DState>)
    ensures r.Success? ==> r.value.symbols == st.symbols && r.value.methods == st.methods && r.value.classes == st.classes
    ensures obs == [] ==> r == Success(st)
  {
    var a :- Assertions(fns, st.symbols, BoogiePropConverter.PState(st.constants, st.out), lf, rf, obs);
    Success(st.(constants := a.constants, out := a.out))
  }

  // ---------------------------------------------------------------------------
  // both.new
  // ---------------------------------------------------------------------------

  const BothNewHeader := "procedure both.new(internal.objectId : ObjectId) returns (functionState1 : FunctionState, functionState2 : FunctionState)"
  const BothNewModifies := ["modifies objectMemory;", "modifies objectMemory1;", "modifies objectMemory2;",
    "modifies functionState;", "modifies heap1;", "modifies heap2;", "modifies heap;", "modifies checkpoints;",
    "modifies checkpoints1;", "modifies checkpoints2;", "{"]
  const BothNewLocals := ["var initFunctionState : FunctionState;", "var initHeap : Heap;"]
  const LeftNewStart := ["initFunctionState := functionState;", "initHeap := heap;", "// left new",
    "checkpoints := initCheckpoints;", "objectMemory := toMemory(defaultValue);"]
  const LeftNewEnd := ["checkpoints1 := checkpoints;", "objectMemory1 := objectMemory;", "functionState1 := functionState;",
    "heap1 := heap;", "functionState := initFunctionState;", "heap := initHeap;", "// right new",
    "checkpoints := initCheckpoints;", "objectMemory := toMemory(defaultValue);"]
  const RightNewEnd := ["checkpoints2 := checkpoints;", "objectMemory2 := objectMemory;",
    "functionState2 := functionState;", "heap2 := heap;"]

  /** An ensures clause equating two variables. */
  function EqClause(a: string, b: string): string
  {
    "ensures " + a + "==" + b + ";"
  }

  /** The function-state clause of both.new. As written it compares the left function
      state with itself; the clause every method procedure has compares it with the
      right one. */
  function BothNewFunctionStates(asWritten: bool): string
  {
    EqClause("functionState1", if asWritten then "functionState1" else "functionState2")
  }

  /** The state the constructor arguments are converted in: every argument gets a
      converter of its own, but the stream, the temporaries, the checkpoints found and
      the symbol table are shared. */
  datatype ParamsState = ParamsState(out: Printer, temporaries: map<string, string>,
                                     checkpoints: map<string, bool>, symbols: SymbolTable.Scopes)

  /** Each argument's statements, then the store of its value in the field. */
  function NewParams(env: BoogieExprConverter.XEnv, ps: ParamsState, params: seq<NewParam>): (r: Outcome<ParamsState>)
    ensures r.Success? ==> r.value.checkpoints.Keys == ps.checkpoints.Keys + BoogieExprConverter.NamesOfParams(params).labels
    ensures r.Success? ==> ps.temporaries.Keys <= r.value.temporaries.Keys
    ensures r.Success? ==> (|r.value.symbols| == |ps.symbols| &&
      BoogieExprConverter.Outer(r.value.symbols) == BoogieExprConverter.Outer(ps.symbols))
    decreases |params|
  {
    if params == [] then Success(ps)
    else
      var c :- BoogieExprConverter.Convert(env, BoogieExprConverter.XState(ps.out, ps.temporaries, {}, map[], ps.symbols), params[0].value);
      var v :- ToOpaqueString(c.0);
      var x := c.1;
      var store := BoogieUtil.FieldAccess("objectMemory", params[0].id) + " := " + v + ";";
      NewParams(env, ParamsState(PrintLine(x.out, store), BoogieExprConverter.DeclaredVars(x),
                                 ps.checkpoints + x.checkpoints, x.symbols), params[1..])
  }

  /** The constructor arguments of both sides, the right continuing from the left. */
  function BothParams(fns: BoogieFunctions.Table, st: DState, leftNew: Expr, rightNew: Expr): (r: Outcome<(ParamsState, ParamsState)>)
    requires leftNew.New? && rightNew.New?
    ensures r.Success? ==> (r.value.1.checkpoints.Keys ==
      BoogieExprConverter.NamesOfParams(leftNew.params).labels + BoogieExprConverter.NamesOfParams(rightNew.params).labels)
    ensures r.Success? ==> (|r.value.1.symbols| == |st.symbols| &&
      BoogieExprConverter.Outer(r.value.1.symbols) == BoogieExprConverter.Outer(st.symbols))
  {
    var env := BoogieExprConverter.XEnv(map[], fns, st.methods, st.classes);
    var l :- NewParams(env, ParamsState(Start(), map[], map[], st.symbols), leftNew.params);
    var w :- NewParams(env, ParamsState(Start(), l.temporaries, l.checkpoints, l.symbols), rightNew.params);
    Success((l, w))
  }

  /** The signature and the clauses of both.new. */
  function BothNewOpen(p: Printer, bps: seq<BoogieBisimProp>): Printer
  {
    PrintLines(PrintLine(PrintLines(PrintLine(p, BothNewHeader), InvariantClauses(bps, "ensures ")),
                         BothNewFunctionStates(false)), BothNewModifies)
  }

  /** The declarations of both.new and its two constructions. */
  function BothNewRuns(p: Printer, l: ParamsState, r: ParamsState): Printer
  {
    var ks := Order.Sorted(r.temporaries.Keys);
    var p2 := PrintLines(PrintLines(PrintLines(PrintLines(p, BothNewLocals),
      BoogieObjectConverter.VarDecls(r.temporaries, ks)), BoogieObjectConverter.Inits(r.temporaries, ks)), LeftNewStart);
    var p3 := PrintLines(PrintLine(p2, l.out.text), LeftNewEnd);
    PrintLines(PrintLine(p3, r.out.text), RightNewEnd)
  }

  /** both.new: the invariants it establishes, the two constructions one after the
      other, and an assertion for every checkpoint pair whose labels the constructor
      arguments recorded. */
  function BothNew(fns: BoogieFunctions.Table, st: DState, lf: seq<string>, rf: seq<string>, bps: seq<BoogieBisimProp>,
                   props: Option<seq<BisimProp>>, leftNew: Expr, rightNew: Expr): (r: Outcome<DState>)
    requires leftNew.New? && rightNew.New?
    ensures r.Success? ==> (|r.value.symbols| == |st.symbols| &&
      BoogieExprConverter.Outer(r.value.symbols) == BoogieExprConverter.Outer(st.symbols))
    ensures r.Success? ==> r.value.methods == st.methods && r.value.classes == st.classes
  {
    var pr :- BothParams(fns, st, leftNew, rightNew);
    BothNewClose(fns, st.(symbols := pr.1.symbols, out := BothNewRuns(PushedTab(BothNewOpen(st.out, bps)), pr.0, pr.1)), lf, rf, props,
                 pr.1.checkpoints.Keys)
  }

  lemma BothNewParamsFail(fns: BoogieFunctions.Table, st: DState, lf: seq<string>, rf: seq<string>, bps: seq<BoogieBisimProp>,
                          props: Option<seq<BisimProp>>, leftNew: Expr, rightNew: Expr)
    requires leftNew.New? && rightNew.New?
    requires BothParams(fns, st, leftNew, rightNew).Failure?
    ensures BothNew(fns, st, lf, rf, bps, props, leftNew, rightNew) == Failure(BothParams(fns, st, leftNew, rightNew).error)
  {
  }

  lemma BothNewUnfold(fns: BoogieFunctions.Table, st: DState, lf: seq<string>, rf: seq<string>, bps: seq<BoogieBisimProp>,
                      props: Option<seq<BisimProp>>, leftNew: Expr, rightNew: Expr, l: ParamsState, r: ParamsState)
    requires leftNew.New? && rightNew.New?
    requires BothParams(fns, st, leftNew, rightNew) == Success((l, r))
    ensures BothNew(fns, st, lf, rf, bps, props, leftNew, rightNew) ==
            BothNewClose(fns, st.(symbols := r.symbols, out := BothNewRuns(PushedTab(BothNewOpen(st.out, bps)), l, r)), lf, rf, props, r.checkpoints.Keys)
  {
  }

  /** The checkpoint assertions of both.new and its end. */
  function BothNewClose(fns: BoogieFunctions.Table, st: DState, lf: seq<string>, rf: seq<string>,
                        props: Option<seq<BisimProp>>, labels: set<string>): (r: Outcome<DState>)
    ensures r.Success? ==> r.value.symbols == st.symbols && r.value.methods == st.methods && r.value.classes == st.classes
  {
    var a :- AssertAll(fns, st, lf, rf, Obligations(props, labels, labels));
    Success(a.(out := Newline(PrintLine(PoppedTab(a.out), "}"))))
  }

  /** both.new asserts a proposition at a checkpoint pair exactly when the proposition
      is scoped to that pair and both labels occur in constructor arguments. */
  lemma BothNewObligations(fns: BoogieFunctions.Table, st: DState, leftNew: Expr, rightNew: Expr,
                           props: seq<BisimProp>, o: Obligation)
    requires leftNew.New? && rightNew.New?
    requires BothParams(fns, st, leftNew, rightNew).Success?
    ensures var labels := BothParams(fns, st, leftNew, rightNew).value.1.checkpoints.Keys;
      var all := BoogieExprConverter.NamesOfParams(leftNew.params).labels + BoogieExprConverter.NamesOfParams(rightNew.params).labels;
      o in Obligations(Some(props), labels, labels) <==>
        (o.left in all && o.right in all && exists b :: b in props && InScope(b, o))
  {
  }

  /** The function-state clause of both.new as written equates a variable with itself,
      so it says nothing about the right object's construction. */
  lemma BothNewClauseAsWritten()
    ensures exists x :: BothNewFunctionStates(true) == EqClause(x, x)
  {
    assert BothNewFunctionStates(true) == EqClause("functionState1", "functionState1");
  }

  /** Corrected, it is the clause the method procedures end with, and it is not a
      clause equating a variable with itself. */
  lemma BothNewClauseCorrected(x: string)
    ensures BothNewFunctionStates(false) == EqClause("functionState1", "functionState2")
    ensures BothNewFunctionStates(false) != EqClause(x, x)
  {
    var s := BothNewFunctionStates(false);
    var t := EqClause(x, x);
    if |t| == |s| {
      assert |x| == 14;
      assert t[8..22] == x == t[24..38];
      assert s[8..22] != s[24..38] by {
        assert s[21] == '1' && s[37] == '2';
        assert s[8..22][13] == s[21] && s[24..38][13] == s[37];
      }
    }
  }


  // ---------------------------------------------------------------------------
  // both.<m>
  // ---------------------------------------------------------------------------

  function ArgName(i: nat): string
  {
    "a" + Fresh.NatToString(i)
  }

  /** Each parameter of a signature renamed to the argument at its position; a name
      that occurs twice takes its last position. */
  function ArgMap(sig: seq<string>): (r: map<string, string>)
    ensures forall x :: x in r <==> x in sig
    decreases |sig|
  {
    if sig == [] then map[]
    else
      var n := |sig| - 1;
      assert sig == sig[..n] + [sig[n]];
      ArgMap(sig[..n])[sig[n] := ArgName(n)]
  }

  /** A parameter that does not occur again later is renamed to its own position. */
  lemma {:induction false} ArgMapAt(sig: seq<string>, i: nat)
    requires i < |sig| && forall j :: i < j < |sig| ==> sig[j] != sig[i]
    ensures ArgMap(sig)[sig[i]] == ArgName(i)
    decreases |sig|
  {
    var n := |sig| - 1;
    if i < n {
      assert sig[..n][i] == sig[i];
      ArgMapAt(sig[..n], i);
    }
  }

  /** What a method body reads its names through: the fields in the object memory,
      overridden by the arguments. */
  function BodyVarMap(fields: seq<string>, sig: seq<string>): (r: map<string, string>)
    ensures forall x :: x in r <==> x in fields || x in sig
    ensures forall x :: x in fields && x !in sig ==> r[x] == BoogieUtil.FieldAccess("objectMemory", x)
    ensures forall i :: 0 <= i < |sig| && (forall j :: i < j < |sig| ==> sig[j] != sig[i]) ==> r[sig[i]] == ArgName(i)
  {
    forall i | 0 <= i < |sig| && (forall j :: i < j < |sig| ==> sig[j] != sig[i]) {
      ArgMapAt(sig, i);
    }
    BoogieUtil.ScopedVars(fields, "objectMemory") + ArgMap(sig)
  }

  const MethodReturns := ") returns (internal.r1:T, internal.r2:T, functionState1:FunctionState, functionState2:FunctionState)"
  const MethodModifies := ["modifies functionState;", "modifies heap1;", "modifies heap2;", "modifies heap;",
    "modifies objectMemory1;", "modifies objectMemory2;", "modifies objectMemory;", "modifies checkpoints;",
    "modifies checkpoints1;", "modifies checkpoints2;"]
  const ResultsAgree := "ensures internal.r1==internal.r2; {"
  const LeftRunStart := ["initFunctionState := functionState;", "heap := heap1;", "objectMemory := objectMemory1;",
    "checkpoints := initCheckpoints;"]
  const LeftRunEnd := ["functionState1 := functionState;", "heap1 := heap;", "objectMemory1 := objectMemory;",
    "checkpoints1 := checkpoints;", "functionState := initFunctionState;", "heap := heap2;",
    "objectMemory := objectMemory2;", "checkpoints := initCheckpoints;"]
  const RightRunEnd := ["functionState2 := functionState;", "heap2 := heap;", "objectMemory2 := objectMemory;",
    "checkpoints2 := checkpoints;"]

  /** The first line of both.<m>: the object id and n opaque arguments. */
  function MethodHeader(name: string, n: nat): string
  {
    "procedure both." + name + "(internal.objectId : ObjectId" + BoogieUtil.ArgList(",", ":T", n) + MethodReturns
  }

  /** The signature and contract of both.<m>: the invariants are required and ensured,
      and so are equal function states and equal results. */
  function MethodClauses(bps: seq<BoogieBisimProp>, name: string, n: nat): seq<string>
  {
    [MethodHeader(name, n)] + InvariantClauses(bps, "requires ") + MethodModifies + InvariantClauses(bps, "ensures ") +
    [EqClause("functionState1", "functionState2"), ResultsAgree]
  }

  /** The frames of a method body: the fields, the parameters and the body's own. */
  function BodyScopes(sc: SymbolTable.Scopes, fields: seq<string>, sig: seq<string>): (r: SymbolTable.Scopes)
    ensures |r| == |sc| + 3 && r[3..] == sc
  {
    var mutable := SymbolTable.FrameValue(SymbolTable.Mutable, map[]);
    var s1 := SymbolTable.AddEach([mutable] + sc, fields, BoogieObjectConverter.Opaques(|fields|));
    var s2 := SymbolTable.AddEach([mutable] + s1, sig, BoogieObjectConverter.Opaques(|sig|));
    assert s2[1..] == s1 && s1[1..] == sc;
    [mutable] + s2
  }

  /** The three frames popped again. */
  function Popped(sc: SymbolTable.Scopes): SymbolTable.Scopes
  {
    if |sc| < 3 then [] else sc[3..]
  }

  function BodyOf(defs: map<string, MethodDef>, name: string): Option<Expr>
  {
    if name in defs then defs[name].body else None
  }

  /** One side's body, converted on a stream of its own; a method without a body is the
      NullPointerException of calling apply on it. */
  function SideBody(env: BoogieExprConverter.XEnv, temps: map<string, string>, sc: SymbolTable.Scopes,
                    fields: seq<string>, sig: seq<string>, body: Option<Expr>)
    : (r: Outcome<(Value, BoogieExprConverter.XState)>)
    ensures r.Success? ==> Popped(r.value.1.symbols) == sc
    ensures r.Success? ==> BoogieExprConverter.TempsExtend(temps, r.value.1.temporaries)
    ensures r.Success? ==> body.Some? && r.value.1.checkpoints.Keys == BoogieExprConverter.NamesOf(body.value).labels
    ensures body.None? ==> r == NullPointer()
  {
    if body.None? then NullPointer()
    else
      var c :- BoogieExprConverter.Convert(env, BoogieExprConverter.XState(Start(), temps, {}, map[], BodyScopes(sc, fields, sig)), body.value);
      assert c.1.symbols[1..] == BodyScopes(sc, fields, sig)[1..];
      Success(c)
  }

  /** Both bodies: the right one is converted with the left signature's arguments and
      continues the left one's temporaries. */
  function BothBodies(fns: BoogieFunctions.Table, sc: SymbolTable.Scopes, ms: BoogieMethods.Methods, cs: BoogieClasses.Classes,
                  lo: BoogieObjectConverter.OState, ro: BoogieObjectConverter.OState,
                  name: string): (r: Outcome<((Value, BoogieExprConverter.XState), (Value, BoogieExprConverter.XState))>)
    requires name in lo.methodSigs && name in ro.methodSigs
    ensures r.Success? ==> Popped(r.value.1.1.symbols) == sc
  {
    var lsig := lo.methodSigs[name];
    var lenv := BoogieExprConverter.XEnv(BodyVarMap(lo.fields, lsig), fns, ms, cs);
    var l :- SideBody(lenv, map[], sc, lo.fields, lsig, BodyOf(lo.methodDefs, name));
    var renv := BoogieExprConverter.XEnv(BodyVarMap(ro.fields, lsig), fns, ms, cs);
    var w :- SideBody(renv, l.1.temporaries, Popped(l.1.symbols), ro.fields, ro.methodSigs[name], BodyOf(ro.methodDefs, name));
    Success((l, w))
  }

  /** BothBodies, one side at a time. */
  lemma BothBodiesSteps(fns: BoogieFunctions.Table, sc: SymbolTable.Scopes, ms: BoogieMethods.Methods, cs: BoogieClasses.Classes,
                        lo: BoogieObjectConverter.OState, ro: BoogieObjectConverter.OState, name: string)
    requires name in lo.methodSigs && name in ro.methodSigs
    ensures var lsig := lo.methodSigs[name];
      var l := SideBody(BoogieExprConverter.XEnv(BodyVarMap(lo.fields, lsig), fns, ms, cs), map[], sc, lo.fields, lsig,
                        BodyOf(lo.methodDefs, name));
      var c := BothBodies(fns, sc, ms, cs, lo, ro, name);
      (l.Failure? ==> c == Failure(l.error)) &&
      (l.Success? ==>
        var r := SideBody(BoogieExprConverter.XEnv(BodyVarMap(ro.fields, lsig), fns, ms, cs), l.value.1.temporaries,
                          Popped(l.value.1.symbols), ro.fields, ro.methodSigs[name], BodyOf(ro.methodDefs, name));
        (r.Failure? ==> c == Failure(r.error)) && (r.Success? ==> c == Success((l.value, r.value))))
  {
  }

  /** The locals of both runs: the temporaries, which the two converters share, and the
      let-assigned names of either as T. */
  function MethodLocals(l: BoogieExprConverter.XState, r: BoogieExprConverter.XState): (d: map<string, string>)
    ensures d.Keys == r.temporaries.Keys + l.letDecls + r.letDecls
  {
    BoogieExprConverter.DeclaredVars(l.(temporaries := r.temporaries)) + BoogieExprConverter.DeclaredVars(r)
  }

  function SaveAll(p: Printer, labels: seq<string>): (r: Printer)
    ensures r.tab == p.tab && (p.newLine ==> r.newLine)
    decreases |labels|
  {
    if labels == [] then p else SaveAll(BoogieUtil.SaveCheckpoint(p, labels[0]), labels[1..])
  }

  /** The text of both.<m> from its locals to the end of the right run. */
  function RunsText(p: Printer, d: map<string, string>, saves: seq<string>, lText: string, lv: string,
                    rText: string, rv: string): Printer
  {
    var ks := Order.Sorted(d.Keys);
    var inits := BoogieObjectConverter.Inits(d, ks);
    var p1 := Newline(PrintLine(PrintLines(p, BoogieObjectConverter.VarDecls(d, ks)), "var initFunctionState : FunctionState;"));
    var p2 := Newline(PrintLines(PrintLine(SaveAll(PrintLines(p1, LeftRunStart), saves), "// left method"), inits));
    var p3 := PrintLines(PrintLine(PrintLine(p2, lText), "internal.r1 := " + lv + ";"), LeftRunEnd);
    var p4 := Newline(PrintLines(PrintLine(Newline(SaveAll(p3, saves)), "// right method"), inits));
    PrintLines(PrintLine(PrintLine(p4, rText), "internal.r2 := " + rv + ";"), RightRunEnd)
  }

  /** both.<m> up to the end of the right run: the text so far and the states the two
      runs leave. */
  function MethodRuns(fns: BoogieFunctions.Table, st: DState, lo: BoogieObjectConverter.OState, ro: BoogieObjectConverter.OState,
                      bps: seq<BoogieBisimProp>, name: string)
    : (r: Outcome<(Printer, BoogieExprConverter.XState, BoogieExprConverter.XState)>)
    requires name in lo.methodSigs && name in ro.methodSigs
    ensures r.Success? ==> Popped(r.value.2.symbols) == st.symbols
  {
    var n := if |lo.methodSigs[name]| >= |ro.methodSigs[name]| then |lo.methodSigs[name]| else |ro.methodSigs[name]|;
    var p := PushedTab(PrintLines(st.out, MethodClauses(bps, name, n)));
    var b :- BothBodies(fns, st.symbols, st.methods, st.classes, lo, ro, name);
    var l := b.0.1;
    var w := b.1.1;
    var lv :- BoogieValue.GetValue(b.0.0, Opaque);
    var rv :- BoogieValue.GetValue(b.1.0, Opaque);
    Success((RunsText(p, MethodLocals(l, w), Order.Sorted(l.checkpoints.Keys), l.out.text, lv, w.out.text, rv), l, w))
  }

  /** both.<m>. The left checkpoints are saved before either run; the assertions are
      those of the pairs the left run and the right run recorded. */
  function MethodProc(fns: BoogieFunctions.Table, st: DState, lo: BoogieObjectConverter.OState, ro: BoogieObjectConverter.OState,
                      bps: seq<BoogieBisimProp>, props: Option<seq<BisimProp>>, name: string): (r: Outcome<DState>)
    requires name in lo.methodSigs
    ensures name !in ro.methodSigs ==> r == CheckFail(SignatureMismatch)
    ensures r.Success? ==> r.value.symbols == st.symbols && r.value.methods == st.methods && r.value.classes == st.classes
  {
    if name !in ro.methodSigs then CheckFail(SignatureMismatch)
    else
      var m :- MethodRuns(fns, st, lo, ro, bps, name);
      var a :- AssertAll(fns, st.(symbols := Popped(m.2.symbols), out := m.0), lo.fields, ro.fields,
                         Obligations(props, m.1.checkpoints.Keys, m.2.checkpoints.Keys));
      Success(a.(out := Newline(PrintLine(PoppedTab(a.out), "}"))))
  }

  /** The procedures of the given methods, in order. */
  function MethodProcs(fns: BoogieFunctions.Table, st: DState, lo: BoogieObjectConverter.OState, ro: BoogieObjectConverter.OState,
                       bps: seq<BoogieBisimProp>, props: Option<seq<BisimProp>>, names: seq<string>): (r: Outcome<DState>)
    requires forall k :: k in names ==> k in lo.methodSigs
    ensures r.Success? ==> forall k :: k in names ==> k in ro.methodSigs
    ensures r.Success? ==> r.value.symbols == st.symbols && r.value.methods == st.methods && r.value.classes == st.classes
    decreases |names|
  {
    if names == [] then Success(st)
    else
      var st1 :- MethodProc(fns, st, lo, ro, bps, props, names[0]);
      MethodProcs(fns, st1, lo, ro, bps, props, names[1..])
  }

  // ---------------------------------------------------------------------------
  // The check
  // ---------------------------------------------------------------------------

  /** What the check has built before the method procedures: both objects, their
      translated propositions and the state after both.new. */
  datatype Prepared = Prepared(left: BoogieObjectConverter.OState, right: BoogieObjectConverter.OState,
                               bps: seq<BoogieBisimProp>, st: DState)

  /** Both objects, their invariants and both.new. The state passed in is the one the
      prelude, the symbol declarations, the function declarations and the axioms leave. */
  function Prepare(fns: BoogieFunctions.Table, pre: DState, leftNew: Expr, rightNew: Expr,
                   props: Option<seq<BisimProp>>): (r: Outcome<Prepared>)
    requires leftNew.New? && rightNew.New?
    ensures r.Success? ==> r.value.left.methodSigs.Keys == BoogieObjectConverter.MethodNames(leftNew.methods, 0)
    ensures r.Success? ==> r.value.right.methodSigs.Keys == BoogieObjectConverter.MethodNames(rightNew.methods, 0)
    ensures r.Success? ==> (|r.value.st.symbols| == |pre.symbols| &&
      BoogieExprConverter.Outer(r.value.st.symbols) == BoogieExprConverter.Outer(pre.symbols))
  {
    var sides :- Sides(fns, pre, leftNew, rightNew);
    Finish(fns, sides.2, sides.0, sides.1, leftNew, rightNew, props)
  }

  /** The invariants and both.new, once both objects are converted. */
  function Finish(fns: BoogieFunctions.Table, st1: DState, l: BoogieObjectConverter.OState, r: BoogieObjectConverter.OState,
                  leftNew: Expr, rightNew: Expr, props: Option<seq<BisimProp>>): (res: Outcome<Prepared>)
    requires leftNew.New? && rightNew.New?
    ensures res.Success? ==> res.value.left == l && res.value.right == r
    ensures res.Success? ==> (|res.value.st.symbols| == |st1.symbols| &&
      BoogieExprConverter.Outer(res.value.st.symbols) == BoogieExprConverter.Outer(st1.symbols))
  {
    var inv :- Invariants(fns, st1.(out := Newline(st1.out)), l.fields, r.fields, props);
    var st :- BothNew(fns, inv.1, l.fields, r.fields, inv.0, props, leftNew, rightNew);
    Success(Prepared(l, r, inv.0, st))
  }

  /** Both objects, the left one first. */
  function Sides(fns: BoogieFunctions.Table, pre: DState, leftNew: Expr, rightNew: Expr)
    : (r: Outcome<(BoogieObjectConverter.OState, BoogieObjectConverter.OState, DState)>)
    requires leftNew.New? && rightNew.New?
    ensures r.Success? ==> r.value.0.methodSigs.Keys == BoogieObjectConverter.MethodNames(leftNew.methods, 0)
    ensures r.Success? ==> r.value.1.methodSigs.Keys == BoogieObjectConverter.MethodNames(rightNew.methods, 0)
    ensures r.Success? ==> (|r.value.2.symbols| == |pre.symbols| &&
      BoogieExprConverter.Outer(r.value.2.symbols) == BoogieExprConverter.Outer(pre.symbols))
  {
    var l :- Side(fns, pre, leftNew, "left");
    var w :- Side(fns, l.1, rightNew, "right");
    Success((l.0, w.0, w.1))
  }

  /** The signature check, then one procedure per method of the left object. */
  function Procedures(fns: BoogieFunctions.Table, p: Prepared, props: Option<seq<BisimProp>>): (r: Outcome<DState>)
  {
    if !(p.right.methodSigs.Keys <= p.left.methodSigs.Keys) then CheckFail(SignatureMismatch)
    else MethodProcs(fns, p.st, p.left, p.right, p.bps, props, Order.Sorted(p.left.methodSigs.Keys))
  }

  /** check. */
  function CheckValue(fns: BoogieFunctions.Table, pre: DState, leftNew: Expr, rightNew: Expr,
                      props: Option<seq<BisimProp>>): (r: Outcome<DState>)
    requires leftNew.New? && rightNew.New?
  {
    var p :- Prepare(fns, pre, leftNew, rightNew, props);
    Procedures(fns, p, props)
  }

  /** The proof task of a successful check: the whole program, at priority 2. */
  function CheckTask(fns: BoogieFunctions.Table, pre: DState, leftNew: Expr, rightNew: Expr,
                     props: Option<seq<BisimProp>>): (r: Outcome<ProofTask>)
    requires leftNew.New? && rightNew.New?
    ensures r.Success? <==> CheckValue(fns, pre, leftNew, rightNew, props).Success?
    ensures r.Success? ==> (r.value.priority == 2 && r.value.description == Description &&
      r.value.failureMessage == FailureMessage)
  {
    var st :- CheckValue(fns, pre, leftNew, rightNew, props);
    Success(ProofTask(st.out.text, Description, FailureMessage, 2))
  }

  /** The check only succeeds when the two objects offer the same method names: the
      right may have none the left lacks, and every method of the left needs a partner. */
  lemma SignaturesMustAgree(fns: BoogieFunctions.Table, pre: DState, leftNew: Expr, rightNew: Expr,
                            props: Option<seq<BisimProp>>)
    requires leftNew.New? && rightNew.New?
    requires CheckValue(fns, pre, leftNew, rightNew, props).Success?
    ensures BoogieObjectConverter.MethodNames(leftNew.methods, 0) == BoogieObjectConverter.MethodNames(rightNew.methods, 0)
  {
    ProceduresNeedSameNames(fns, Prepare(fns, pre, leftNew, rightNew, props).value, props);
  }

  lemma ProceduresNeedSameNames(fns: BoogieFunctions.Table, p: Prepared, props: Option<seq<BisimProp>>)
    requires Procedures(fns, p, props).Success?
    ensures p.left.methodSigs.Keys == p.right.methodSigs.Keys
  {
    var names := Order.Sorted(p.left.methodSigs.Keys);
    assert p.right.methodSigs.Keys <= p.left.methodSigs.Keys;
    assert MethodProcs(fns, p.st, p.left, p.right, p.bps, props, names).Success?;
    SameKeys(p.left.methodSigs.Keys, p.right.methodSigs.Keys, names);
  }

  /** Two name sets, the second inside the first, agree when a listing of the first lies
      inside the second. */
  lemma SameKeys(a: set<string>, b: set<string>, names: seq<string>)
    requires b <= a && (forall k :: k in names <==> k in a) && (forall k :: k in names ==> k in b)
    ensures a == b
  {
  }

  /** And a right object with a method the left one lacks fails the check with the
      signature message, whatever its invariants. */
  lemma ExtraRightMethodFails(fns: BoogieFunctions.Table, pre: DState, leftNew: Expr, rightNew: Expr,
                              props: Option<seq<BisimProp>>, m: string)
    requires leftNew.New? && rightNew.New?
    requires Prepare(fns, pre, leftNew, rightNew, props).Success?
    requires m in BoogieObjectConverter.MethodNames(rightNew.methods, 0) && m !in BoogieObjectConverter.MethodNames(leftNew.methods, 0)
    ensures CheckValue(fns, pre, leftNew, rightNew, props) == CheckFail(SignatureMismatch)
  {
  }

  // ---------------------------------------------------------------------------
  // The tactic
  // ---------------------------------------------------------------------------

  /** A stage did what its function says: the same outcome, with the function's value
      and new state on success and its error on failure. */
  predicate Agrees<T(==), S(==)>(c: Outcome<(T, S)>, r: Outcome<T>, now: S)
  {
    (r.Success? <==> c.Success?) && (c.Success? ==> r.value == c.value.0 && now == c.value.1) &&
    (c.Failure? ==> r == Failure(c.error))
  }

  /** The same for a stage that only changes state. */
  predicate Reaches<S(==)>(c: Outcome<S>, r: Outcome<()>, now: S)
  {
    (r.Success? <==> c.Success?) && (c.Success? ==> now == c.value) && (c.Failure? ==> r == Failure(c.error))
  }

  /** The shared state as the tables and the stream hold it. */
  function Tables(symbols: SymbolTable.Scopes, methods: BoogieMethods.BoogieMethods, classes: BoogieClasses.BoogieClasses,
                  constants: BoogieConstants.BoogieConstants, out: PrettyPrintStream): DState
    reads methods, classes, constants, out
  {
    BoogieClassDecls.DState(symbols, methods.methodsMap, classes.Value(), constants.Value(), out.Value())
  }

  /** What a proposition conversion wrote: the expression constants and the stream. */
  method Load(constants: BoogieConstants.BoogieConstants, out: PrettyPrintStream, ps: BoogiePropConverter.PState)
    requires ps.constants.(exprs := constants.exprs) == constants.Value()
    modifies constants, out
    ensures constants.Value() == ps.constants && out.Value() == ps.out
  {
    constants.exprs := ps.constants.exprs;
    out.tab, out.newLine, out.text := ps.out.tab, ps.out.newLine, ps.out.text;
  }

  lemma FieldPairsStep(lf: seq<string>, rf: seq<string>, i: nat)
    requires i < |lf|
    ensures i < |rf| ==> FieldPairs(lf[..i + 1], rf) == FieldPairs(lf[..i], rf) + [FieldPair(lf[i], rf[i])]
    ensures i >= |rf| ==> FieldPairs(lf[..i + 1], rf) == FieldPairs(lf[..i], rf)
  {
  }

  /** The translations done first, before the outcome of the rest. */
  function Then(done: seq<BoogieBisimProp>, rest: Outcome<(seq<BoogieBisimProp>, BoogiePropConverter.PState)>)
    : Outcome<(seq<BoogieBisimProp>, BoogiePropConverter.PState)>
  {
    match rest
    case Success(v) => Success((done + v.0, v.1))
    case Failure(e) => Failure(e)
  }

  lemma ThenNothing(rest: Outcome<(seq<BoogieBisimProp>, BoogiePropConverter.PState)>)
    ensures Then([], rest) == rest
  {
    if rest.Success? {
      assert [] + rest.value.0 == rest.value.0;
    }
  }

  /** One proposition translated, after those done already. */
  lemma ConvertPropsStep(fns: BoogieFunctions.Table, sc: SymbolTable.Scopes, ps: BoogiePropConverter.PState,
                         lf: seq<string>, rf: seq<string>, props: seq<BisimProp>, done: seq<BoogieBisimProp>)
    requires props != []
    ensures var c := BoogiePropConverter.Convert(BoogiePropConverter.Env(InvariantSides(lf, rf), fns, map[]), sc, ps, props[0].prop);
      var t := Then(done, ConvertProps(fns, sc, ps, lf, rf, props));
      (c.Failure? ==> t == Failure(c.error)) &&
      (c.Success? && ToBooleanString(c.value.0).Failure? ==> t == Failure(ToBooleanString(c.value.0).error)) &&
      (c.Success? && ToBooleanString(c.value.0).Success? ==>
        t == Then(done + [BoogieBisimProp(ToBooleanString(c.value.0).value, IsInvariant(props[0]))],
                  ConvertProps(fns, sc, c.value.1, lf, rf, props[1..])))
  {
    var c := BoogiePropConverter.Convert(BoogiePropConverter.Env(InvariantSides(lf, rf), fns, map[]), sc, ps, props[0].prop);
    if c.Success? && ToBooleanString(c.value.0).Success? {
      var b := BoogieBisimProp(ToBooleanString(c.value.0).value, IsInvariant(props[0]));
      var rest := ConvertProps(fns, sc, c.value.1, lf, rf, props[1..]);
      if rest.Success? {
        assert done + ([b] + rest.value.0) == done + [b] + rest.value.0;
      }
    }
  }

  /** The assertions of one obligation, then those of the rest. */
  lemma AssertAllStep(fns: BoogieFunctions.Table, st: DState, lf: seq<string>, rf: seq<string>, o: Obligation, later: seq<Obligation>)
    ensures var c := CheckpointProp(fns, st.symbols, BoogiePropConverter.PState(st.constants, st.out), lf, rf, o);
      (c.Failure? ==> AssertAll(fns, st, lf, rf, [o] + later) == Failure(c.error)) &&
      (c.Success? ==> (AssertAll(fns, st, lf, rf, [o] + later) ==
        AssertAll(fns, st.(constants := c.value.1.constants,
                           out := PrintLines(c.value.1.out, ["assert (" + c.value.0 + ");", FunctionStatesAgree(o)])),
                  lf, rf, later)))
  {
    assert ([o] + later)[0] == o && ([o] + later)[1..] == later;
  }

  /** The obligations of one scope, then those of the rest. */
  lemma ScopeObligationsStep(p: Prop, ss: seq<BisimScope>, left: set<string>, right: set<string>, rest: seq<Obligation>)
    requires ss != []
    ensures var later := ScopeObligations(p, ss[1..], left, right) + rest;
      ScopeObligations(p, ss, left, right) + rest ==
      (if ss[0].CheckpointScope? && ss[0].leftLabel in left && ss[0].rightLabel in right
       then [Obligation(p, ss[0].leftLabel, ss[0].rightLabel)] + later else later)
  {
    var head: seq<Obligation> := if ss[0].CheckpointScope? && ss[0].leftLabel in left && ss[0].rightLabel in right
      then [Obligation(p, ss[0].leftLabel, ss[0].rightLabel)] else [];
    var tail := ScopeObligations(p, ss[1..], left, right);
    assert ScopeObligations(p, ss, left, right) == head + tail;
    Regroup(head, tail, rest);
  }

  /** Concatenation regrouped, the empty head dropped. */
  lemma Regroup(head: seq<Obligation>, tail: seq<Obligation>, rest: seq<Obligation>)
    ensures (head + tail) + rest == head + (tail + rest)
    ensures head == [] ==> (head + tail) + rest == tail + rest
  {
  }

  /** The obligations of one proposition, then those of the rest. */
  lemma PropObligationsStep(props: seq<BisimProp>, left: set<string>, right: set<string>)
    requires props != []
    ensures PropObligations(props, left, right) ==
      ScopeObligations(props[0].prop, ScopesOf(props[0]), left, right) + PropObligations(props[1..], left, right)
  {
  }

  /** The loop of toBoogieProps that builds the default invariant. */
  method DefaultInvariantText(lf: seq<string>, rf: seq<string>) returns (s: string)
    ensures s == DefaultInvariant(lf, rf)
  {
    s := "heap1==heap2";
    for i := 0 to |lf|
      invariant s == BoogiePropConverter.Joined(["heap1==heap2"] + FieldPairs(lf[..i], rf), " && ")
    {
      FieldPairsStep(lf, rf, i);
      if i < |rf| {
        var leftMember := BoogieUtil.FieldAccess("objectMemory1", lf[i]);
        var rightMember := BoogieUtil.FieldAccess("objectMemory2", rf[i]);
        ghost var xs := ["heap1==heap2"] + FieldPairs(lf[..i], rf);
        assert ["heap1==heap2"] + FieldPairs(lf[..i + 1], rf) == xs + [FieldPair(lf[i], rf[i])];
        BoogiePropConverter.JoinedSnoc(xs, FieldPair(lf[i], rf[i]), " && ");
        s := s + " && " + (leftMember + "==" + rightMember);
      }
    }
    assert lf[..|lf|] == lf;
  }

  /** One clause per invariant proposition. */
  method PrintClauses(out: PrettyPrintStream, bps: seq<BoogieBisimProp>, keyword: string)
    modifies out
    ensures out.Value() == PrintLines(old(out.Value()), InvariantClauses(bps, keyword))
  {
    for i := 0 to |bps|
      invariant PrintLines(out.Value(), InvariantClauses(bps[i..], keyword)) ==
                PrintLines(old(out.Value()), InvariantClauses(bps, keyword))
    {
      assert bps[i..][0] == bps[i] && bps[i..][1..] == bps[i + 1..];
      ghost var rest := InvariantClauses(bps[i + 1..], keyword);
      if bps[i].isInvariant {
        var c := Clause(keyword, bps[i].prop);
        assert ([c] + rest)[0] == c && ([c] + rest)[1..] == rest;
        out.PrintlnText(c);
      } else {
        assert [] + rest == rest;
      }
    }
  }

  /** argMap: the loop over a signature. */
  method ArgMapOf(sig: seq<string>) returns (m: map<string, string>)
    ensures m == ArgMap(sig)
  {
    m := map[];
    for i := 0 to |sig|
      invariant m == ArgMap(sig[..i])
    {
      assert sig[..i + 1][..i] == sig[..i];
      m := m[sig[i] := "a" + Fresh.NatToString(i)];
    }
    assert sig[..|sig|] == sig;
  }

  lemma ArgListStep(open: string, i: nat)
    ensures open + BoogieUtil.ArgList(",", ":T", i) + ("," + "a" + Fresh.NatToString(i) + ":T") ==
            open + BoogieUtil.ArgList(",", ":T", i + 1)
  {
  }

  /** The first line of both.<m>, one argument at a time. */
  method PrintMethodHeader(out: PrettyPrintStream, name: string, n: nat)
    modifies out
    ensures out.Value() == PrintLine(old(out.Value()), MethodHeader(name, n))
  {
    ghost var p0 := out.Value();
    var open := "procedure both." + name + "(internal.objectId : ObjectId";
    out.Print(open);
    for i := 0 to n
      invariant out.Value() == Printed(p0, open + BoogieUtil.ArgList(",", ":T", i))
    {
      var arg := "," + "a" + Fresh.NatToString(i) + ":T";
      PrintTwice(p0, open + BoogieUtil.ArgList(",", ":T", i), arg);
      ArgListStep(open, i);
      out.Print(arg);
    }
    PrintTwice(p0, open + BoogieUtil.ArgList(",", ":T", n), MethodReturns);
    assert open + BoogieUtil.ArgList(",", ":T", n) + MethodReturns == MethodHeader(name, n);
    out.PrintlnText(MethodReturns);
  }

  /** saveCheckpoint for each label. */
  method SaveCheckpoints(out: PrettyPrintStream, labels: seq<string>)
    modifies out
    ensures out.Value() == SaveAll(old(out.Value()), labels)
  {
    for i := 0 to |labels|
      invariant SaveAll(out.Value(), labels[i..]) == SaveAll(old(out.Value()), labels)
    {
      assert labels[i..][0] == labels[i] && labels[i..][1..] == labels[i + 1..];
      out.PrintlnAll(["// saving checkpoint for label " + labels[i],
        "checkpoints[" + BoogieUtil.ToCheckpointId(labels[i]) + "] := " + BoogieUtil.CheckpointState]);
    }
  }

  /** The constructor arguments of one side: a converter per argument on the shared
      stream, temporaries, checkpoints and symbol table. */
  method ConvertNewParams(env: BoogieExprConverter.XEnv, ps: ParamsState, params: seq<NewParam>) returns (r: Outcome<ParamsState>)
    ensures r == NewParams(env, ps, params)
  {
    var cur := ps;
    for i := 0 to |params|
      invariant NewParams(env, cur, params[i..]) == NewParams(env, ps, params)
    {
      assert params[i..][0] == params[i] && params[i..][1..] == params[i + 1..];
      var conv := new BoogieExprConverter.ExprConverter(env, cur.symbols, cur.temporaries, cur.out);
      var a := conv.Apply(params[i].value);
      if a.Failure? {
        return Failure(a.error);
      }
      var temps := conv.GetDeclaredVars();
      var v := conv.GetValue();
      if v.Failure? {
        return Failure(v.error);
      }
      var store := BoogieUtil.FieldAccess("objectMemory", params[i].id) + " := " + v.value + ";";
      cur := ParamsState(PrintLine(conv.out, store), temps, cur.checkpoints + conv.checkpoints, conv.symbols);
    }
    return Success(cur);
  }

  /** Every name of the right signatures is a name of the left ones. */
  method SignaturesCovered(left: map<string, seq<string>>, right: map<string, seq<string>>) returns (ok: bool)
    ensures ok <==> right.Keys <= left.Keys
  {
    var names := Order.Sorted(right.Keys);
    for i := 0 to |names|
      invariant forall k :: k in names[..i] ==> k in left
    {
      if names[i] !in left {
        return false;
      }
    }
    assert forall k :: k in right ==> k in names[..|names|];
    return true;
  }

  /** The bisimulation tactic over the shared tables of a translation: each check adds
      one proof task. */
  class Bisim {
    const functions: BoogieFunctions.Table
    var symbols: SymbolTable.Scopes
    var tasks: seq<ProofTask>

    constructor (symbols: SymbolTable.Scopes, functions: BoogieFunctions.Table)
      ensures this.symbols == symbols && this.functions == functions && tasks == []
    {
      this.symbols := symbols;
      this.functions := functions;
      tasks := [];
    }

    /** check: on success the program is one more proof task; a failed check adds
        none. */
    method Check(methods: BoogieMethods.BoogieMethods, classes: BoogieClasses.BoogieClasses,
                 constants: BoogieConstants.BoogieConstants, out: PrettyPrintStream,
                 leftNew: Expr, rightNew: Expr, props: Option<seq<BisimProp>>) returns (r: Outcome<()>)
      requires leftNew.New? && rightNew.New?
      modifies this, methods, classes, constants, out
      ensures var c := CheckTask(functions, old(Tables(symbols, methods, classes, constants, out)), leftNew, rightNew, props);
        (r.Success? <==> c.Success?) &&
        (c.Success? ==> tasks == old(tasks) + [c.value]) &&
        (c.Failure? ==> r == Failure(c.error) && tasks == old(tasks))
    {
      var p := PrepareStage(methods, classes, constants, out, leftNew, rightNew, props);
      if p.Failure? {
        return Failure(p.error);
      }
      r := ProceduresStage(methods, classes, constants, out, p.value, props);
      if r.Failure? {
        return;
      }
      tasks := tasks + [ProofTask(out.text, Description, FailureMessage, 2)];
    }

    /** Both objects, their invariants and both.new. */
    method PrepareStage(methods: BoogieMethods.BoogieMethods, classes: BoogieClasses.BoogieClasses,
                        constants: BoogieConstants.BoogieConstants, out: PrettyPrintStream,
                        leftNew: Expr, rightNew: Expr, props: Option<seq<BisimProp>>) returns (r: Outcome<Prepared>)
      requires leftNew.New? && rightNew.New?
      modifies this`symbols, methods, classes, constants, out
      ensures var c := Prepare(functions, old(Tables(symbols, methods, classes, constants, out)), leftNew, rightNew, props);
        (r.Success? <==> c.Success?) && (c.Failure? ==> r == Failure(c.error)) &&
        (c.Success? ==> r.value == c.value && Tables(symbols, methods, classes, constants, out) == c.value.st)
    {
      var sides := SidesStage(methods, classes, constants, out, leftNew, rightNew);
      if sides.Failure? {
        return Failure(sides.error);
      }
      var (lo, ro) := sides.value;
      r := FinishStage(methods, classes, constants, out, lo, ro, leftNew, rightNew, props);
    }

    /** The invariants and both.new. */
    method FinishStage(methods: BoogieMethods.BoogieMethods, classes: BoogieClasses.BoogieClasses,
                       constants: BoogieConstants.BoogieConstants, out: PrettyPrintStream,
                       lo: BoogieObjectConverter.OState, ro: BoogieObjectConverter.OState,
                       leftNew: Expr, rightNew: Expr, props: Option<seq<BisimProp>>) returns (r: Outcome<Prepared>)
      requires leftNew.New? && rightNew.New?
      modifies this`symbols, constants, out
      ensures var c := Finish(functions, old(Tables(symbols, methods, classes, constants, out)), lo, ro, leftNew, rightNew, props);
        (r.Success? <==> c.Success?) && (c.Failure? ==> r == Failure(c.error)) &&
        (c.Success? ==> r.value == c.value && Tables(symbols, methods, classes, constants, out) == c.value.st)
    {
      out.Println();
      var bps := ToBoogieProps(methods, classes, constants, out, lo.fields, ro.fields, props);
      if bps.Failure? {
        return Failure(bps.error);
      }
      var b := BothNewStage(methods, classes, constants, out, lo.fields, ro.fields, bps.value, props, leftNew, rightNew);
      if b.Failure? {
        return Failure(b.error);
      }
      r := Success(Prepared(lo, ro, bps.value, Tables(symbols, methods, classes, constants, out)));
    }

    /** Both objects, the left one first. */
    method SidesStage(methods: BoogieMethods.BoogieMethods, classes: BoogieClasses.BoogieClasses,
                      constants: BoogieConstants.BoogieConstants, out: PrettyPrintStream,
                      leftNew: Expr, rightNew: Expr)
      returns (r: Outcome<(BoogieObjectConverter.OState, BoogieObjectConverter.OState)>)
      requires leftNew.New? && rightNew.New?
      modifies this`symbols, methods, classes, constants, out
      ensures var c := Sides(functions, old(Tables(symbols, methods, classes, constants, out)), leftNew, rightNew);
        (r.Success? <==> c.Success?) && (c.Failure? ==> r == Failure(c.error)) &&
        (c.Success? ==> r.value == (c.value.0, c.value.1) && Tables(symbols, methods, classes, constants, out) == c.value.2)
    {
      var lo := SideStage(methods, classes, constants, out, leftNew, "left");
      if lo.Failure? {
        return Failure(lo.error);
      }
      var ro := SideStage(methods, classes, constants, out, rightNew, "right");
      if ro.Failure? {
        return Failure(ro.error);
      }
      r := Success((lo.value, ro.value));
    }

    /** The signature check and the method procedures. */
    method ProceduresStage(methods: BoogieMethods.BoogieMethods, classes: BoogieClasses.BoogieClasses,
                           constants: BoogieConstants.BoogieConstants, out: PrettyPrintStream,
                           p: Prepared, props: Option<seq<BisimProp>>) returns (r: Outcome<()>)
      requires Tables(symbols, methods, classes, constants, out) == p.st
      modifies this`symbols, constants, out
      ensures Reaches(Procedures(functions, p, props), r, Tables(symbols, methods, classes, constants, out))
    {
      var covered := SignaturesCovered(p.left.methodSigs, p.right.methodSigs);
      if !covered {
        return CheckFail(SignatureMismatch);
      }
      var names := Order.Sorted(p.left.methodSigs.Keys);
      for i := 0 to |names|
        invariant MethodProcs(functions, Tables(symbols, methods, classes, constants, out), p.left, p.right, p.bps, props, names[i..]) ==
                  MethodProcs(functions, p.st, p.left, p.right, p.bps, props, names)
      {
        assert names[i..][0] == names[i] && names[i..][1..] == names[i + 1..];
        r := MethodStage(methods, classes, constants, out, p.left, p.right, p.bps, props, names[i]);
        if r.Failure? {
          return;
        }
      }
      r := Success(());
    }

    /** One side: its classes declared, the object converted on a stream of its own, its
        fields declared. */
    method SideStage(methods: BoogieMethods.BoogieMethods, classes: BoogieClasses.BoogieClasses,
                     constants: BoogieConstants.BoogieConstants, out: PrettyPrintStream,
                     e: Expr, name: string) returns (r: Outcome<BoogieObjectConverter.OState>)
      requires e.New?
      modifies this`symbols, methods, classes, constants, out
      ensures Agrees(Side(functions, old(Tables(symbols, methods, classes, constants, out)), e, name), r, Tables(symbols, methods, classes, constants, out))
    {
      var decls := new BoogieClassDecls.ClassDecls(symbols, functions, methods, classes, constants, out);
      var v := decls.Visit(e);
      if v.Failure? {
        return Failure(v.error);
      }
      symbols := decls.symbols;
      r := ObjectStage(methods, classes, constants, out, e, name);
    }

    /** The object of one side. */
    method ObjectStage(methods: BoogieMethods.BoogieMethods, classes: BoogieClasses.BoogieClasses,
                       constants: BoogieConstants.BoogieConstants, out: PrettyPrintStream,
                       e: Expr, name: string) returns (r: Outcome<BoogieObjectConverter.OState>)
      requires e.New?
      modifies this`symbols, constants, out
      ensures Agrees(SideObject(functions, old(Tables(symbols, methods, classes, constants, out)), e, name), r, Tables(symbols, methods, classes, constants, out))
    {
      var classId := classes.GetByDef(e);
      var ctx := BoogieObjectConverter.Context(name, if classId.Some? then classId.value else "null",
                                               functions, methods.methodsMap, classes.Value());
      var c := ConvertObject(ctx, constants, e);
      if c.Failure? {
        return Failure(c.error);
      }
      symbols := c.value.symbols;
      constants.AddFields(c.value.fields, out);
      r := c;
    }

    /** The object converter, on a stream of its own. */
    method ConvertObject(ctx: BoogieObjectConverter.Context, constants: BoogieConstants.BoogieConstants, e: Expr)
      returns (r: Outcome<BoogieObjectConverter.OState>)
      modifies constants
      ensures r == BoogieObjectConverter.ConvertNew(ctx, old(BoogieObjectConverter.OState(symbols, constants.Value(), Start(), [], map[], map[], map[])), e)
      ensures r.Success? ==> constants.Value() == r.value.constants
    {
      var objOut := new PrettyPrintStream();
      var conv := new BoogieObjectConverter.ObjectConverter(ctx, symbols, constants, objOut);
      var a := conv.Apply(e);
      if a.Failure? {
        return Failure(a.error);
      }
      r := Success(conv.State());
    }

    /** toBoogieProps. */
    method ToBoogieProps(methods: BoogieMethods.BoogieMethods, classes: BoogieClasses.BoogieClasses,
                         constants: BoogieConstants.BoogieConstants, out: PrettyPrintStream,
                         lf: seq<string>, rf: seq<string>, props: Option<seq<BisimProp>>)
      returns (r: Outcome<seq<BoogieBisimProp>>)
      modifies constants, out
      ensures Agrees(Invariants(functions, old(Tables(symbols, methods, classes, constants, out)), lf, rf, props), r, Tables(symbols, methods, classes, constants, out))
    {
      if props.None? {
        var s := DefaultInvariantText(lf, rf);
        return Success([BoogieBisimProp(s, true)]);
      }
      r := ConvertEach(constants, out, SidesFrame(symbols, lf, rf), lf, rf, props.value);
    }

    /** The loop of toBoogieProps over the given propositions. */
    method ConvertEach(constants: BoogieConstants.BoogieConstants, out: PrettyPrintStream, sc: SymbolTable.Scopes,
                       lf: seq<string>, rf: seq<string>, ps: seq<BisimProp>) returns (r: Outcome<seq<BoogieBisimProp>>)
      modifies constants, out
      ensures var c := ConvertProps(functions, sc, old(BoogiePropConverter.PState(constants.Value(), out.Value())), lf, rf, ps);
        (r.Success? <==> c.Success?) &&
        (c.Success? ==> r.value == c.value.0 && constants.Value() == c.value.1.constants && out.Value() == c.value.1.out) &&
        (c.Failure? ==> r == Failure(c.error))
    {
      var acc: seq<BoogieBisimProp> := [];
      ThenNothing(ConvertProps(functions, sc, BoogiePropConverter.PState(constants.Value(), out.Value()), lf, rf, ps));
      assert ps[0..] == ps;
      for i := 0 to |ps|
        invariant ConvertProps(functions, sc, old(BoogiePropConverter.PState(constants.Value(), out.Value())), lf, rf, ps) ==
          Then(acc, ConvertProps(functions, sc, BoogiePropConverter.PState(constants.Value(), out.Value()), lf, rf, ps[i..]))
      {
        assert ps[i..][0] == ps[i] && ps[i..][1..] == ps[i + 1..];
        ConvertPropsStep(functions, sc, BoogiePropConverter.PState(constants.Value(), out.Value()), lf, rf, ps[i..], acc);
        var env := BoogiePropConverter.Env(InvariantSides(lf, rf), functions, map[]);
        var c := BoogiePropConverter.Convert(env, sc, BoogiePropConverter.PState(constants.Value(), out.Value()), ps[i].prop);
        if c.Failure? {
          return Failure(c.error);
        }
        var s := ToBooleanString(c.value.0);
        if s.Failure? {
          return Failure(s.error);
        }
        Load(constants, out, c.value.1);
        acc := acc + [BoogieBisimProp(s.value, IsInvariant(ps[i]))];
      }
      r := Success(acc);
    }

    /** The assertions of the obligations, proposition by proposition and scope by
        scope. */
    method WriteAssertions(methods: BoogieMethods.BoogieMethods, classes: BoogieClasses.BoogieClasses,
                           constants: BoogieConstants.BoogieConstants, out: PrettyPrintStream,
                           lf: seq<string>, rf: seq<string>, props: Option<seq<BisimProp>>,
                           left: set<string>, right: set<string>) returns (r: Outcome<()>)
      modifies constants, out
      ensures Reaches(AssertAll(functions, old(Tables(symbols, methods, classes, constants, out)), lf, rf,
                                 Obligations(props, left, right)), r, Tables(symbols, methods, classes, constants, out))
    {
      if props.None? {
        return Success(());
      }
      var ps := props.value;
      ghost var goal := AssertAll(functions, Tables(symbols, methods, classes, constants, out), lf, rf, PropObligations(ps, left, right));
      assert ps[0..] == ps;
      for i := 0 to |ps|
        invariant AssertAll(functions, Tables(symbols, methods, classes, constants, out), lf, rf, PropObligations(ps[i..], left, right)) == goal
      {
        assert ps[i..][0] == ps[i] && ps[i..][1..] == ps[i + 1..];
        PropObligationsStep(ps[i..], left, right);
        var ss := ScopesOf(ps[i]);
        ghost var rest := PropObligations(ps[i + 1..], left, right);
        assert ss[0..] == ss;
        for j := 0 to |ss|
          invariant AssertAll(functions, Tables(symbols, methods, classes, constants, out), lf, rf,
                              ScopeObligations(ps[i].prop, ss[j..], left, right) + rest) == goal
        {
          assert ss[j..][0] == ss[j] && ss[j..][1..] == ss[j + 1..];
          ScopeObligationsStep(ps[i].prop, ss[j..], left, right, rest);
          if ss[j].CheckpointScope? && ss[j].leftLabel in left && ss[j].rightLabel in right {
            var o := Obligation(ps[i].prop, ss[j].leftLabel, ss[j].rightLabel);
            AssertAllStep(functions, Tables(symbols, methods, classes, constants, out), lf, rf, o,
                          ScopeObligations(ps[i].prop, ss[j + 1..], left, right) + rest);
            var c := CheckpointProp(functions, symbols, BoogiePropConverter.PState(constants.Value(), out.Value()), lf, rf, o);
            if c.Failure? {
              return Failure(c.error);
            }
            Load(constants, out, c.value.1);
            out.PrintlnAll(["assert (" + c.value.0 + ");", FunctionStatesAgree(o)]);
          }
        }
        assert ss[|ss|..] == [] && [] + rest == rest;
      }
      r := Success(());
    }

    /** both.new. */
    method BothNewStage(methods: BoogieMethods.BoogieMethods, classes: BoogieClasses.BoogieClasses,
                        constants: BoogieConstants.BoogieConstants, out: PrettyPrintStream,
                        lf: seq<string>, rf: seq<string>, bps: seq<BoogieBisimProp>, props: Option<seq<BisimProp>>,
                        leftNew: Expr, rightNew: Expr) returns (r: Outcome<()>)
      requires leftNew.New? && rightNew.New?
      modifies this`symbols, constants, out
      ensures Reaches(BothNew(functions, old(Tables(symbols, methods, classes, constants, out)), lf, rf, bps, props, leftNew, rightNew), r, Tables(symbols, methods, classes, constants, out))
    {
      ghost var st := Tables(symbols, methods, classes, constants, out);
      var pr := ParamsStage(methods, classes, constants, out, leftNew, rightNew);
      if pr.Failure? {
        BothNewParamsFail(functions, st, lf, rf, bps, props, leftNew, rightNew);
        return Failure(pr.error);
      }
      var l, rs := pr.value.0, pr.value.1;
      BothNewUnfold(functions, st, lf, rf, bps, props, leftNew, rightNew, l, rs);
      OpenStage(methods, classes, constants, out, bps, l, rs);
      r := CloseStage(methods, classes, constants, out, lf, rf, props, rs.checkpoints.Keys);
    }

    /** both.new up to its checkpoint assertions. */
    method OpenStage(methods: BoogieMethods.BoogieMethods, classes: BoogieClasses.BoogieClasses,
                     constants: BoogieConstants.BoogieConstants, out: PrettyPrintStream,
                     bps: seq<BoogieBisimProp>, l: ParamsState, rs: ParamsState)
      modifies this`symbols, out
      ensures Tables(symbols, methods, classes, constants, out) ==
              old(Tables(symbols, methods, classes, constants, out)).(symbols := rs.symbols,
                out := BothNewRuns(PushedTab(BothNewOpen(old(out.Value()), bps)), l, rs))
    {
      symbols := rs.symbols;
      PrintBothNewStart(out, bps, l, rs);
    }

    /** The checkpoint assertions of both.new and its end. */
    method CloseStage(methods: BoogieMethods.BoogieMethods, classes: BoogieClasses.BoogieClasses,
                      constants: BoogieConstants.BoogieConstants, out: PrettyPrintStream,
                      lf: seq<string>, rf: seq<string>, props: Option<seq<BisimProp>>, labels: set<string>)
      returns (r: Outcome<()>)
      modifies constants, out
      ensures Reaches(BothNewClose(functions, old(Tables(symbols, methods, classes, constants, out)), lf, rf, props, labels),
                      r, Tables(symbols, methods, classes, constants, out))
    {
      r := WriteAssertions(methods, classes, constants, out, lf, rf, props, labels, labels);
      if r.Failure? {
        return;
      }
      out.PopTab();
      out.PrintlnText("}");
      out.Println();
    }

    /** The constructor arguments of both sides, on streams of their own. */
    method ParamsStage(methods: BoogieMethods.BoogieMethods, classes: BoogieClasses.BoogieClasses,
                       constants: BoogieConstants.BoogieConstants, out: PrettyPrintStream,
                       leftNew: Expr, rightNew: Expr) returns (r: Outcome<(ParamsState, ParamsState)>)
      requires leftNew.New? && rightNew.New?
      ensures r == BothParams(functions, Tables(symbols, methods, classes, constants, out), leftNew, rightNew)
    {
      var env := BoogieExprConverter.XEnv(map[], functions, methods.methodsMap, classes.Value());
      var left := ConvertNewParams(env, ParamsState(Start(), map[], map[], symbols), leftNew.params);
      if left.Failure? {
        return Failure(left.error);
      }
      var l := left.value;
      var right := ConvertNewParams(env, ParamsState(Start(), l.temporaries, l.checkpoints, l.symbols), rightNew.params);
      if right.Failure? {
        return Failure(right.error);
      }
      r := Success((l, right.value));
    }

    /** both.<m>. */
    method MethodStage(methods: BoogieMethods.BoogieMethods, classes: BoogieClasses.BoogieClasses,
                       constants: BoogieConstants.BoogieConstants, out: PrettyPrintStream,
                       lo: BoogieObjectConverter.OState, ro: BoogieObjectConverter.OState,
                       bps: seq<BoogieBisimProp>, props: Option<seq<BisimProp>>, name: string) returns (r: Outcome<()>)
      requires name in lo.methodSigs
      modifies this`symbols, constants, out
      ensures Reaches(MethodProc(functions, old(Tables(symbols, methods, classes, constants, out)), lo, ro, bps, props, name), r, Tables(symbols, methods, classes, constants, out))
    {
      if name !in ro.methodSigs {
        return CheckFail(SignatureMismatch);
      }
      var b := RunsStage(methods, classes, constants, out, lo, ro, bps, name);
      if b.Failure? {
        return Failure(b.error);
      }
      r := WriteAssertions(methods, classes, constants, out, lo.fields, ro.fields, props,
                           b.value.0.checkpoints.Keys, b.value.1.checkpoints.Keys);
      if r.Failure? {
        return;
      }
      out.PopTab();
      out.PrintlnText("}");
      out.Println();
    }

    /** both.<m> from its signature to the end of the right run. */
    method RunsStage(methods: BoogieMethods.BoogieMethods, classes: BoogieClasses.BoogieClasses,
                     constants: BoogieConstants.BoogieConstants, out: PrettyPrintStream,
                     lo: BoogieObjectConverter.OState, ro: BoogieObjectConverter.OState,
                     bps: seq<BoogieBisimProp>, name: string) returns (r: Outcome<(BoogieExprConverter.XState, BoogieExprConverter.XState)>)
      requires name in lo.methodSigs && name in ro.methodSigs
      modifies this`symbols, out
      ensures var c := MethodRuns(functions, old(Tables(symbols, methods, classes, constants, out)), lo, ro, bps, name);
        (r.Success? <==> c.Success?) && (c.Failure? ==> r == Failure(c.error)) &&
        (c.Success? ==> r.value == (c.value.1, c.value.2) && out.Value() == c.value.0 && symbols == Popped(c.value.2.symbols))
    {
      var lsig := lo.methodSigs[name];
      var rsig := ro.methodSigs[name];
      var leftArgMap := ArgMapOf(lsig);
      var n := if |lsig| >= |rsig| then |lsig| else |rsig|;
      PrintProcClauses(out, bps, name, n);
      out.PushTab();
      var b, d, lv, rv := ConvertBodies(functions, symbols, methods.methodsMap, classes.Value(), lo, ro, leftArgMap, name);
      if b.Failure? {
        return Failure(b.error);
      }
      var l := b.value.0;
      var rs := b.value.1;
      symbols := Popped(rs.symbols);
      if lv.Failure? {
        return Failure(lv.error);
      }
      if rv.Failure? {
        return Failure(rv.error);
      }
      WriteRuns(out, d, Order.Sorted(l.checkpoints.Keys), l.out.text, lv.value, rs.out.text, rv.value);
      r := b;
    }
  }

  /** One side's body, converted by a converter of its own on a stream of its own. */
  method SideRun(env: BoogieExprConverter.XEnv, temps: map<string, string>, sc: SymbolTable.Scopes,
                 fields: seq<string>, sig: seq<string>, body: Option<Expr>)
    returns (r: Outcome<(Value, BoogieExprConverter.XState)>, conv: BoogieExprConverter.ExprConverter?)
    ensures r == SideBody(env, temps, sc, fields, sig, body)
    ensures r.Success? ==> conv != null && fresh(conv) && conv.State() == r.value.1 && conv.values == [r.value.0]
  {
    if body.None? {
      return NullPointer(), null;
    }
    conv := new BoogieExprConverter.ExprConverter(env, BodyScopes(sc, fields, sig), temps, Start());
    var v := conv.Apply(body.value);
    if v.Failure? {
      return Failure(v.error), conv;
    }
    r := Success((v.value, conv.State()));
  }

  /** Both method bodies, each on a stream of its own, in the frames of its fields, its
      parameters and its body; the right converter continues the left one's
      temporaries, which the two share from then on. */
  method ConvertBodies(fns: BoogieFunctions.Table, sc: SymbolTable.Scopes, ms: BoogieMethods.Methods, cs: BoogieClasses.Classes,
                       lo: BoogieObjectConverter.OState, ro: BoogieObjectConverter.OState,
                       args: map<string, string>, name: string)
    returns (r: Outcome<(BoogieExprConverter.XState, BoogieExprConverter.XState)>, d: map<string, string>,
             lv: Outcome<string>, rv: Outcome<string>)
    requires name in lo.methodSigs && name in ro.methodSigs
    requires args == ArgMap(lo.methodSigs[name])
    ensures var c := BothBodies(fns, sc, ms, cs, lo, ro, name);
      (r.Success? <==> c.Success?) &&
      (c.Failure? ==> r == Failure(c.error)) &&
      (c.Success? ==> r.value == (c.value.0.1, c.value.1.1) && d == MethodLocals(c.value.0.1, c.value.1.1) &&
                      lv == BoogieValue.GetValue(c.value.0.0, Opaque) && rv == BoogieValue.GetValue(c.value.1.0, Opaque))
  {
    lv, rv, d := NullPointer(), NullPointer(), map[];
    BothBodiesSteps(fns, sc, ms, cs, lo, ro, name);
    var lsig := lo.methodSigs[name];
    var a, lconv := ScopedRun(fns, ms, cs, lo.fields, args, lsig, map[], sc, lsig, BodyOf(lo.methodDefs, name));
    if a.Failure? {
      r := Failure(a.error);
      return;
    }
    var b, rconv := ScopedRun(fns, ms, cs, ro.fields, args, lsig, a.value.1.temporaries, Popped(a.value.1.symbols),
                              ro.methodSigs[name], BodyOf(ro.methodDefs, name));
    if b.Failure? {
      r := Failure(b.error);
      return;
    }
    d, lv, rv := RunLocals(lconv, rconv);
    r := Success((a.value.1, b.value.1));
  }

  /** One side's body, its fields read from `objectMemory` and the arguments named as
      the left signature numbers them. */
  method ScopedRun(fns: BoogieFunctions.Table, ms: BoogieMethods.Methods, cs: BoogieClasses.Classes,
                   fields: seq<string>, args: map<string, string>, argSig: seq<string>,
                   temps: map<string, string>, sc: SymbolTable.Scopes, sig: seq<string>, body: Option<Expr>)
    returns (r: Outcome<(Value, BoogieExprConverter.XState)>, conv: BoogieExprConverter.ExprConverter?)
    requires args == ArgMap(argSig)
    ensures r == SideBody(BoogieExprConverter.XEnv(BodyVarMap(fields, argSig), fns, ms, cs), temps, sc, fields, sig, body)
    ensures r.Success? ==> conv != null && fresh(conv) && conv.State() == r.value.1 && conv.values == [r.value.0]
  {
    var varMap := BoogieUtil.GetScopedVars(fields, "objectMemory");
    varMap := varMap + args;
    assert varMap == BodyVarMap(fields, argSig);
    r, conv := SideRun(BoogieExprConverter.XEnv(varMap, fns, ms, cs), temps, sc, fields, sig, body);
  }

  /** The locals of both runs and the value of each: the left converter takes over the
      temporaries of the right one first. */
  method RunLocals(lconv: BoogieExprConverter.ExprConverter, rconv: BoogieExprConverter.ExprConverter)
    returns (d: map<string, string>, lv: Outcome<string>, rv: Outcome<string>)
    requires lconv != rconv && |lconv.values| == 1 && |rconv.values| == 1
    modifies lconv
    ensures d == MethodLocals(old(lconv.State()), rconv.State())
    ensures lv == BoogieValue.GetValue(old(lconv.values[0]), Opaque) && rv == BoogieValue.GetValue(rconv.values[0], Opaque)
  {
    lconv.temporaries := rconv.temporaries;
    var ld := lconv.GetDeclaredVars();
    var rd := rconv.GetDeclaredVars();
    d := ld + rd;
    lv := lconv.GetValueAs(Opaque);
    rv := rconv.GetValueAs(Opaque);
  }

  /** The signature and the clauses of both.new. */
  method PrintBothNewOpen(out: PrettyPrintStream, bps: seq<BoogieBisimProp>)
    modifies out
    ensures out.Value() == BothNewOpen(old(out.Value()), bps)
  {
    out.PrintlnText(BothNewHeader);
    PrintClauses(out, bps, "ensures ");
    out.PrintlnText(BothNewFunctionStates(false));
    out.PrintlnAll(BothNewModifies);
  }

  /** The head of both.new, one tab in, and both constructor runs. */
  method PrintBothNewStart(out: PrettyPrintStream, bps: seq<BoogieBisimProp>, l: ParamsState, r: ParamsState)
    modifies out
    ensures out.Value() == BothNewRuns(PushedTab(BothNewOpen(old(out.Value()), bps)), l, r)
  {
    PrintBothNewOpen(out, bps);
    out.PushTab();
    PrintBothNewRuns(out, l, r);
  }

  /** The declarations of both.new and its two constructions. */
  method PrintBothNewRuns(out: PrettyPrintStream, l: ParamsState, r: ParamsState)
    modifies out
    ensures out.Value() == BothNewRuns(old(out.Value()), l, r)
  {
    var ks := Order.Sorted(r.temporaries.Keys);
    out.PrintlnAll(BothNewLocals);
    out.PrintlnAll(BoogieObjectConverter.VarDecls(r.temporaries, ks));
    out.PrintlnAll(BoogieObjectConverter.Inits(r.temporaries, ks));
    out.PrintlnAll(LeftNewStart);
    out.PrintlnText(l.out.text);
    out.PrintlnAll(LeftNewEnd);
    out.PrintlnText(r.out.text);
    out.PrintlnAll(RightNewEnd);
  }

  /** The signature and contract of both.<m>, printed. */
  method PrintProcClauses(out: PrettyPrintStream, bps: seq<BoogieBisimProp>, name: string, n: nat)
    modifies out
    ensures out.Value() == PrintLines(old(out.Value()), MethodClauses(bps, name, n))
  {
    ghost var p0 := out.Value();
    ghost var h := [MethodHeader(name, n)];
    ghost var req := InvariantClauses(bps, "requires ");
    ghost var ens := InvariantClauses(bps, "ensures ");
    var tail := [EqClause("functionState1", "functionState2"), ResultsAgree];
    PrintMethodHeader(out, name, n);
    assert h[0] == MethodHeader(name, n) && h[1..] == [];
    PrintClauses(out, bps, "requires ");
    PrintLinesAppend(p0, h, req);
    out.PrintlnAll(MethodModifies);
    PrintLinesAppend(p0, h + req, MethodModifies);
    PrintClauses(out, bps, "ensures ");
    PrintLinesAppend(p0, h + req + MethodModifies, ens);
    out.PrintlnAll(tail);
    PrintLinesAppend(p0, h + req + MethodModifies + ens, tail);
  }

  /** The locals, the two runs and the checkpoints saved before each. */
  method WriteRuns(out: PrettyPrintStream, d: map<string, string>, saves: seq<string>, lText: string, lv: string,
                   rText: string, rv: string)
    modifies out
    ensures out.Value() == RunsText(old(out.Value()), d, saves, lText, lv, rText, rv)
  {
    var ks := Order.Sorted(d.Keys);
    var inits := BoogieObjectConverter.Inits(d, ks);
    out.PrintlnAll(BoogieObjectConverter.VarDecls(d, ks));
    out.PrintlnText("var initFunctionState : FunctionState;");
    out.Println();
    out.PrintlnAll(LeftRunStart);
    SaveCheckpoints(out, saves);
    out.PrintlnText("// left method");
    out.PrintlnAll(inits);
    out.Println();
    out.PrintlnText(lText);
    out.PrintlnText("internal.r1 := " + lv + ";");
    out.PrintlnAll(LeftRunEnd);
    SaveCheckpoints(out, saves);
    out.Println();
    out.PrintlnText("// right method");
    out.PrintlnAll(inits);
    out.Println();
    out.PrintlnText(rText);
    out.PrintlnText("internal.r2 := " + rv + ";");
    out.PrintlnAll(RightRunEnd);
  }
}
