/** The checker's proof engine. A development is a list of declarations; a theorem pushes
    an equivalence obligation and its proof is a list of tactics, each of which works on
    the obligation on top of the stack: it changes the left expression, charges a distance,
    or hands a task to the external verifier. A subgoal pushes a builder obligation that
    its goal turns into an equivalence, proves it by its own tactics and then resumes the
    parent. Every error aborts the whole run. */
module Checker {
  import opened Wrappers
  import opened Types
  import opened Syntax
  import opened SymbolTable
  import Util
  import Order
  import Declarations
  import BoogieFunctions
  import Rewriter
  import Substituter
  import BoundsExprConverter
  import VariableReferenceCollector
  import ExprSimplifier
  import Unfold
  import Inline

  // ---------------------------------------------------------------------------
  // Obligations, tasks and the checker's state
  // ---------------------------------------------------------------------------

  /** left ~ right within distance, for all values of vars. */
  datatype Equiv = Equiv(left: Expr, right: Expr, vars: set<string>, distance: Bounds)

  /** An equivalence being proved, with the current left and right expressions the tactics
      change and the distance charged so far; or the builder a subgoal pushes before its
      goal is known. */
  datatype Obligation =
    | EquivOb(equiv: Equiv, leftExpr: Expr, rightExpr: Expr, distance: Bounds)
    | Builder(bLeft: Expr, bRight: Expr, bVars: set<string>, bDistance: Bounds)

  /** A fresh obligation for an equivalence: nothing charged yet. */
  function NewObligation(e: Equiv): (ob: Obligation)
    ensures ob.EquivOb? && ob.equiv == e && ob.leftExpr == e.left && ob.rightExpr == e.right
    ensures ob.distance == Util.ZeroBounds()
  {
    EquivOb(e, e.left, e.right, Util.ZeroBounds())
  }

  /** build(): the equivalence a builder has collected. */
  function Build(b: Obligation): (ob: Obligation)
    requires b.Builder?
    ensures ob == NewObligation(Equiv(b.bLeft, b.bRight, b.bVars, b.bDistance))
  {
    NewObligation(Equiv(b.bLeft, b.bRight, b.bVars, b.bDistance))
  }

  /** What a generated verifier program is built from: the symbol table, the declared
      functions, the axioms and the named classes at the time the task is created. */
  datatype Context = Context(symbols: Scopes, funcs: BoogieFunctions.Table, axioms: seq<Prop>, classes: map<string, Expr>)

  /** A task for the external verifier: an equivalence by the auto tactic, a bound on the
      charged distance, or a bisimulation of two objects. */
  datatype Task =
    | AutoTask(message: string, left: Expr, right: Expr, ctx: Context)
    | BoundsTask(actual: Bounds, required: Bounds, ctx: Context)
    | BisimTask(leftNew: Expr, rightNew: Expr, props: Option<seq<BisimProp>>, ctx: Context)

  /** A fact whose proof is under way. */
  datatype Pending = Pending(id: string, equiv: Equiv)

  /** The checker's fields: the symbol table with the default types, functions and named
      classes; the obligation stack (top first); the pending facts (top first); the
      registered theorems and assumptions; the axioms; the tasks enqueued; the module
      names imported and the files they are read from. */
  datatype State = State(scope: Declarations.Scope, obligations: seq<Obligation>, pending: seq<Pending>,
                         theorems: map<string, Equiv>, axioms: seq<Prop>, tasks: seq<Task>,
                         imported: set<string>, loads: seq<string>)

  /** The checker as constructed: one constant frame and nothing else. */
  function Initial(): (st: State)
    ensures TopLevel(st)
  {
    State(Declarations.Scope([FrameValue(Constant, map[])], [], BoogieFunctions.Empty(), map[]),
          [], [], map[], [], [], {}, [])
  }

  /** Between two declarations: only the global frame, no obligation, no pending fact. */
  predicate TopLevel(st: State)
  {
    |st.scope.symbols| == 1 && st.scope.defaults == [] && st.obligations == [] && st.pending == []
  }

  function Snapshot(s: Declarations.Scope, axioms: seq<Prop>): Context
  {
    Context(s.symbols, s.funcs, axioms, s.classes)
  }

  /** A node's printed text. */
  function Show(e: Expr): string
  {
    Text(Render(e))
  }

  function ShowBounds(b: Bounds): string
  {
    Text(RenderBounds(b))
  }

  // ---------------------------------------------------------------------------
  // The obligation stack
  // ---------------------------------------------------------------------------

  function PeekEquiv(st: State): (r: Outcome<Obligation>)
    ensures r.Success? <==> st.obligations != [] && st.obligations[0].EquivOb?
    ensures r.Success? ==> r.value == st.obligations[0]
    ensures r.Failure? ==> r == CheckFail("Not an equivalence obligation")
  {
    if st.obligations != [] && st.obligations[0].EquivOb? then Success(st.obligations[0])
    else CheckFail("Not an equivalence obligation")
  }

  function PeekBuilder(st: State): (r: Outcome<Obligation>)
    ensures r.Success? <==> st.obligations != [] && st.obligations[0].Builder?
    ensures r.Success? ==> r.value == st.obligations[0]
    ensures r.Failure? ==> r == CheckFail("Not an equivalence builder obligation")
  {
    if st.obligations != [] && st.obligations[0].Builder? then Success(st.obligations[0])
    else CheckFail("Not an equivalence builder obligation")
  }

  /** The top obligation replaced. */
  function SetTop(st: State, ob: Obligation): (r: State)
    requires st.obligations != []
    ensures r.obligations == [ob] + st.obligations[1..]
    ensures r == st.(obligations := r.obligations)
  {
    st.(obligations := [ob] + st.obligations[1..])
  }

  /** What a tactic keeps: the frames, the stack below its top, the statement of the top
      obligation, the pending facts, the theorems and the axioms. */
  predicate SameStack(st: State, st': State)
  {
    Declarations.Keeps(st.scope, st'.scope) &&
    |st'.obligations| == |st.obligations| &&
    (st.obligations != [] ==>
      st'.obligations[1..] == st.obligations[1..] && SameGoal(st.obligations[0], st'.obligations[0])) &&
    st'.pending == st.pending && st'.theorems == st.theorems && st'.axioms == st.axioms
  }

  predicate SameGoal(a: Obligation, b: Obligation)
  {
    a.EquivOb? == b.EquivOb? && (a.EquivOb? ==> b.equiv == a.equiv)
  }

  lemma KeepsTransitive(a: Declarations.Scope, b: Declarations.Scope, c: Declarations.Scope)
    requires Declarations.Keeps(a, b) && Declarations.Keeps(b, c)
    ensures Declarations.Keeps(a, c)
  {
  }

  lemma SameStackTransitive(a: State, b: State, c: State)
    requires SameStack(a, b) && SameStack(b, c)
    ensures SameStack(a, c)
  {
    KeepsTransitive(a.scope, b.scope, c.scope);
  }

  // ---------------------------------------------------------------------------
  // Closing a proof
  // ---------------------------------------------------------------------------

  /** checkEquiv: the two sides, simplified, must print the same. */
  function CheckEquiv(left: Expr, right: Expr): (r: Outcome<()>)
    ensures r.Success? <==> Render(ExprSimplifier.Simplify(left)) == Render(ExprSimplifier.Simplify(right))
    ensures r.Failure? ==>
      r == CheckFail(Show(ExprSimplifier.Simplify(left)) + "\n != \n" + Show(ExprSimplifier.Simplify(right)))
  {
    var a := ExprSimplifier.Simplify(left);
    var b := ExprSimplifier.Simplify(right);
    Util.EqualsNullWildcard(Render(a), Render(b));
    if !Util.Equals(Some(Render(a)), Some(Render(b))) then CheckFail(Show(a) + "\n != \n" + Show(b))
    else Success(())
  }

  /** An expression is equivalent to its own simplification, and the check is symmetric. */
  lemma CheckEquivProperties(a: Expr, b: Expr)
    ensures CheckEquiv(a, a).Success?
    ensures CheckEquiv(a, ExprSimplifier.Simplify(a)).Success?
    ensures CheckEquiv(a, b).Success? == CheckEquiv(b, a).Success?
  {
    ExprSimplifier.SimplifyIdempotent(a);
  }

  /** The end of a proof: the top obligation stays on the stack, its sides must agree, and
      a task is enqueued to show that the charged distance is within the declared one. */
  function ProofClose(st: State): (r: Outcome<State>)
    ensures r.Success? <==>
      st.obligations != [] && st.obligations[0].EquivOb? &&
      CheckEquiv(st.obligations[0].leftExpr, st.obligations[0].rightExpr).Success?
    ensures r.Success? ==>
      r.value == st.(tasks := st.tasks + [BoundsTask(st.obligations[0].distance, st.obligations[0].equiv.distance, Snapshot(st.scope, st.axioms))])
  {
    var ob :- PeekEquiv(st);
    var u :- CheckEquiv(ob.leftExpr, ob.rightExpr);
    Success(st.(tasks := st.tasks + [BoundsTask(ob.distance, ob.equiv.distance, Snapshot(st.scope, st.axioms))]))
  }

  // ---------------------------------------------------------------------------
  // Symmetry, admit, trivial, auto
  // ---------------------------------------------------------------------------

  function SymmetryStep(st: State): (r: Outcome<State>)
    ensures r.Success? <==> PeekEquiv(st).Success?
    ensures r.Success? ==>
      r.value == SetTop(st, st.obligations[0].(leftExpr := st.obligations[0].rightExpr, rightExpr := st.obligations[0].leftExpr))
  {
    var ob :- PeekEquiv(st);
    Success(SetTop(st, ob.(leftExpr := ob.rightExpr, rightExpr := ob.leftExpr)))
  }

  /** Swapping twice gives back the state. */
  lemma SymmetryInvolutive(st: State)
    requires SymmetryStep(st).Success?
    ensures SymmetryStep(SymmetryStep(st).value) == Success(st)
  {
    assert [st.obligations[0]] + st.obligations[1..] == st.obligations;
  }

  /** admit: the left side becomes the right, unconditionally. */
  function AdmitStep(st: State): (r: Outcome<State>)
    ensures r.Success? <==> PeekEquiv(st).Success?
    ensures r.Success? ==> r.value == SetTop(st, st.obligations[0].(leftExpr := st.obligations[0].rightExpr))
  {
    var ob :- PeekEquiv(st);
    Success(SetTop(st, ob.(leftExpr := ob.rightExpr)))
  }

  /** trivial: as admit, once the two sides agree. */
  function TrivialStep(st: State): (r: Outcome<State>)
    ensures r.Success? <==>
      PeekEquiv(st).Success? && CheckEquiv(st.obligations[0].leftExpr, st.obligations[0].rightExpr).Success?
    ensures r.Success? ==> r == AdmitStep(st)
  {
    var ob :- PeekEquiv(st);
    var u :- CheckEquiv(ob.leftExpr, ob.rightExpr);
    Success(SetTop(st, ob.(leftExpr := ob.rightExpr)))
  }

  /** After admit (and so after trivial) the proof can be closed. */
  lemma AdmitCloses(st: State)
    requires AdmitStep(st).Success?
    ensures ProofClose(AdmitStep(st).value).Success?
  {
    var ob := st.obligations[0];
    CheckEquivProperties(ob.rightExpr, ob.rightExpr);
  }

  /** auto: a task for the external verifier, created inside a fresh constant frame; the
      left side then becomes the right. */
  function AutoStep(st: State): (r: Outcome<State>)
    ensures r.Success? <==> PeekEquiv(st).Success?
    ensures r.Success? ==>
      var ob := st.obligations[0];
      r.value == SetTop(st, ob.(leftExpr := ob.rightExpr)).(tasks := st.tasks +
        [AutoTask("Checking auto", ob.leftExpr, ob.rightExpr, Snapshot(Declarations.Push(st.scope, Constant), st.axioms))])
  {
    var ob :- PeekEquiv(st);
    var task := AutoTask("Checking auto", ob.leftExpr, ob.rightExpr, Snapshot(Declarations.Push(st.scope, Constant), st.axioms));
    Success(SetTop(st, ob.(leftExpr := ob.rightExpr)).(tasks := st.tasks + [task]))
  }

  // ---------------------------------------------------------------------------
  // Bisimulation, unfolding, inlining
  // ---------------------------------------------------------------------------

  /** The visit of the properties of a bisim tactic. */
  function ScanBisimProps(ps: seq<BisimProp>, s: Declarations.Scope): (r: Outcome<Declarations.Scope>)
    requires s.symbols != []
    ensures r.Success? ==> Declarations.Keeps(s, r.value)
    decreases ps
  {
    if ps == [] then Success(s)
    else
      var s1 :- Declarations.ScanProp(ps[0].prop, s);
      ScanBisimProps(ps[1..], s1)
  }

  /** bisim: the properties are visited in a fresh constant frame, both sides must be
      `new` expressions, a bisimulation task is enqueued, and the left side becomes the
      right. */
  function BisimStep(st: State, props: Option<seq<BisimProp>>): (r: Outcome<State>)
    requires st.scope.symbols != []
    ensures r.Success? ==> SameStack(st, r.value) && r.value.scope.symbols == st.scope.symbols
    ensures r.Success? ==>
      st.obligations != [] && st.obligations[0].EquivOb? &&
      st.obligations[0].leftExpr.New? && st.obligations[0].rightExpr.New? &&
      r.value.obligations[0] == st.obligations[0].(leftExpr := st.obligations[0].rightExpr)
    ensures r.Success? ==>
      |r.value.tasks| == |st.tasks| + 1 && r.value.tasks[..|st.tasks|] == st.tasks &&
      r.value.tasks[|st.tasks|].BisimTask? && r.value.tasks[|st.tasks|].props == props
  {
    var inner :- ScanBisimProps(if props.None? then [] else props.value, Declarations.Push(st.scope, Constant));
    var ob :- PeekEquiv(st);
    if Util.ToNewExpr(ob.leftExpr).None? then CheckFail("not a new expression: " + Show(ob.leftExpr))
    else if Util.ToNewExpr(ob.rightExpr).None? then CheckFail("not a new expression: " + Show(ob.rightExpr))
    else
      var task := BisimTask(ob.leftExpr, ob.rightExpr, props, Snapshot(inner, st.axioms));
      var w := SetTop(st, ob.(leftExpr := ob.rightExpr)).(scope := Declarations.Pop(inner), tasks := st.tasks + [task]);
      assert w.tasks[..|st.tasks|] == st.tasks;
      Success(w)
  }

  /** unfold: the left side's calls are unfolded, and an auto task checks the unfolded
      expression against the original with no axioms and no classes. */
  function UnfoldStep(st: State, ids: Option<seq<string>>): (r: Outcome<State>)
    ensures r.Success? ==> PeekEquiv(st).Success?
    ensures r.Success? ==>
      var ob := st.obligations[0];
      var ids' := if ids.None? then None else Some(set x | x in ids.value);
      Unfold.Transform(ob.leftExpr, ids', st.scope.funcs.byName, false).Success? &&
      var left := Unfold.Transform(ob.leftExpr, ids', st.scope.funcs.byName, false).value;
      r.value == SetTop(st, ob.(leftExpr := left)).(tasks := st.tasks +
        [AutoTask("Checking unfold equivalence", ob.leftExpr, left, Context(st.scope.symbols, st.scope.funcs, [], map[]))])
  {
    var ob :- PeekEquiv(st);
    var left :- Unfold.Transform(ob.leftExpr, if ids.None? then None else Some(set x | x in ids.value), st.scope.funcs.byName, false);
    var task := AutoTask("Checking unfold equivalence", ob.leftExpr, left, Context(st.scope.symbols, st.scope.funcs, [], map[]));
    Success(SetTop(st, ob.(leftExpr := left)).(tasks := st.tasks + [task]))
  }

  /** inline: the left side with its nested objects inlined, using the supplied names
      first. */
  function InlineStep(st: State, ids: Option<seq<string>>): (r: Outcome<State>)
    ensures r.Success? ==> PeekEquiv(st).Success?
    ensures r.Success? ==>
      var ob := st.obligations[0];
      Inline.Transform(ob.leftExpr, st.scope.symbols, if ids.None? then [] else ids.value, false).Success? &&
      r.value == SetTop(st, ob.(leftExpr := Inline.Transform(ob.leftExpr, st.scope.symbols, if ids.None? then [] else ids.value, false).value))
  {
    var ob :- PeekEquiv(st);
    var left :- Inline.Transform(ob.leftExpr, st.scope.symbols, if ids.None? then [] else ids.value, false);
    Success(SetTop(st, ob.(leftExpr := left)))
  }

  // ---------------------------------------------------------------------------
  // Rewriting with a fact
  // ---------------------------------------------------------------------------

  /** The distance after a rewriting tactic: each rewrite's distance added in turn. */
  function Charged(d: Bounds, rws: seq<Rewriter.Rewrite>): Bounds
    decreases |rws|
  {
    if rws == [] then d else Charged(Util.AddBounds(d, rws[0].distance), rws[1..])
  }

  function Distances(rws: seq<Rewriter.Rewrite>): (r: seq<Bounds>)
    ensures |r| == |rws| && forall i :: 0 <= i < |rws| ==> r[i] == rws[i].distance
  {
    seq(|rws|, i requires 0 <= i < |rws| => rws[i].distance)
  }

  /** Reads a chain of n additions backwards: the distance it started from and the
      distances added, in order; None when b is not such a chain. */
  function Addends(b: Bounds, n: nat): Option<(Bounds, seq<Bounds>)>
  {
    if n == 0 then Some((b, []))
    else if b.BSum? && b.op == "+" && b.left.BParen? && b.right.BParen? then
      var p := Addends(b.left.inner, n - 1);
      if p.None? then None else Some((p.value.0, p.value.1 + [b.right.inner]))
    else None
  }

  lemma {:induction false} ChargedSnoc(d: Bounds, rws: seq<Rewriter.Rewrite>, w: Rewriter.Rewrite)
    ensures Charged(d, rws + [w]) == Util.AddBounds(Charged(d, rws), w.distance)
    decreases |rws|
  {
    if rws == [] {
      assert rws + [w] == [w];
    } else {
      assert (rws + [w])[1..] == rws[1..] + [w];
      ChargedSnoc(Util.AddBounds(d, rws[0].distance), rws[1..], w);
    }
  }

  /** The charged distance is exactly the old distance plus each rewrite's distance, in
      the order the rewrites were found. */
  lemma {:induction false} ChargedAddends(d: Bounds, rws: seq<Rewriter.Rewrite>)
    ensures Addends(Charged(d, rws), |rws|) == Some((d, Distances(rws)))
    decreases |rws|
  {
    if rws != [] {
      var n := |rws| - 1;
      var front := rws[..n];
      assert rws == front + [rws[n]];
      ChargedSnoc(d, front, rws[n]);
      ChargedAddends(d, front);
      assert Distances(rws) == Distances(front) + [rws[n].distance];
    }
  }

  /** rewrite: the fact must be a registered theorem or assumption; each of its matches
      in the left side is rewritten, and method bodies are rewritten only by a fact of
      distance zero; there must be at least one match, and each rewrite's distance is
      charged. */
  function RewriteStep(st: State, factId: string): (r: Outcome<State>)
    ensures factId !in st.theorems ==> r == CheckFail("Undeclared symbol: " + factId)
    ensures r.Success? ==>
      factId in st.theorems && PeekEquiv(st).Success? &&
      var eq := st.theorems[factId];
      var ob := st.obligations[0];
      var rw := Rewriter.RewriteAll(Rewriter.Fact(eq.left, eq.vars, eq.right, eq.distance, Util.IsZero(eq.distance)), ob.leftExpr);
      rw.Success? && rw.value.1 != [] &&
      r.value == SetTop(st, ob.(leftExpr := rw.value.0, distance := Charged(ob.distance, rw.value.1)))
    ensures (factId in st.theorems && PeekEquiv(st).Success? &&
             Rewriter.RewriteAll(RewriteFact(st.theorems[factId]), st.obligations[0].leftExpr) == Success((st.obligations[0].leftExpr, []))) ==>
      r == CheckFail("Nothing to rewrite")
  {
    if factId !in st.theorems then CheckFail("Undeclared symbol: " + factId)
    else
      var eq := st.theorems[factId];
      var ob :- PeekEquiv(st);
      var rw :- Rewriter.RewriteAll(RewriteFact(eq), ob.leftExpr);
      if rw.1 == [] then CheckFail("Nothing to rewrite")
      else Success(SetTop(st, ob.(leftExpr := rw.0, distance := Charged(ob.distance, rw.1))))
  }

  /** The fact as the rewriter applies it: inside method bodies only when its distance is
      zero. */
  function RewriteFact(eq: Equiv): (f: Rewriter.Fact)
    ensures f.left == eq.left && f.right == eq.right && f.vars == eq.vars && f.distance == eq.distance
    ensures f.inMethod <==> RenderBounds(eq.distance) == ["0"]
  {
    Rewriter.Fact(eq.left, eq.vars, eq.right, eq.distance, Util.IsZero(eq.distance))
  }

  // ---------------------------------------------------------------------------
  // The hybrid argument
  // ---------------------------------------------------------------------------

  /** The fact's one variable. */
  function SingleVar(vars: set<string>): (r: Outcome<string>)
    ensures r.Success? <==> |vars| == 1
    ensures r.Success? ==> vars == {r.value}
    ensures r.Failure? ==> r == CheckFail("Hybrid argument facts must take a single parameter")
  {
    if |vars| != 1 then CheckFail("Hybrid argument facts must take a single parameter")
    else
      var x := Order.Least(vars);
      assert |vars - {x}| == 0;
      Success(x)
  }

  /** One side of the fact must be a call with the one argument expected. */
  function HybridArgument(e: Expr, expected: Expr, shape: string, side: string): (r: Outcome<()>)
    ensures r.Success? <==> e.Func? && |e.args| == 1 && Render(e.args[0]) == Render(expected)
    ensures !(e.Func? && |e.args| == 1) ==> r == CheckFail(shape)
  {
    match Util.GetFuncExpr(e)
    case None => CheckFail(shape)
    case Some(call) =>
      if |call.1| != 1 then CheckFail(shape)
      else
        Util.EqualsNullWildcard(Render(call.1[0]), Render(expected));
        if !Util.Equals(Some(Render(call.1[0])), Some(Render(expected))) then
          CheckFail("The parameter of the " + side + " hybrid fact expression must be " + Show(expected))
        else Success(())
  }

  /** The names of the bounds lookups of a distance (outside its env terms). */
  function BoundsLookups(b: Bounds): set<string>
  {
    match b
    case BLookup(x) => {x}
    case BParen(x) => BoundsLookups(x)
    case BFunc(_, args) => set i, y | 0 <= i < |args| && y in BoundsLookups(args[i]) :: y
    case BSum(a, _, c) => BoundsLookups(a) + BoundsLookups(c)
    case BProduct(a, _, c) => BoundsLookups(a) + BoundsLookups(c)
    case BExp(a, _, c) => BoundsLookups(a) + BoundsLookups(c)
    case _ => {}
  }

  /** The fact's variable may not occur in its distance. As written, the check asks the
      variable reference collector, which only sees the lookups inside env terms; the
      corrected check also looks at the bounds lookups. */
  function DistanceCheck(x: string, d: Bounds, asWritten: bool): (r: Outcome<()>)
    ensures r.Success? <==>
      VariableReferenceCollector.CollectBounds(d).Success? && x !in VariableReferenceCollector.CollectBounds(d).value &&
      (asWritten || x !in BoundsLookups(d))
    ensures VariableReferenceCollector.CollectBounds(d).Success? && r.Failure? ==>
      r == CheckFail(x + " may not appear in the distance of the hybrid fact.")
  {
    var ids :- VariableReferenceCollector.CollectBounds(d);
    if x in ids || (!asWritten && x in BoundsLookups(d)) then CheckFail(x + " may not appear in the distance of the hybrid fact.")
    else Success(())
  }

  /** As written, a distance that is x times eps passes the check on x; corrected, it is
      refused. */
  lemma HybridDistanceFinding()
    ensures DistanceCheck("x", BProduct(BLookup("x"), "*", BLookup("eps")), true) == Success(())
    ensures DistanceCheck("x", BProduct(BLookup("x"), "*", BLookup("eps")), false) ==
      CheckFail("x" + " may not appear in the distance of the hybrid fact.")
  {
    VariableReferenceCollector.BoundsLookupsNotReported();
    assert "x" in BoundsLookups(BProduct(BLookup("x"), "*", BLookup("eps")));
  }

  /** The one substitution the hybrid tactic makes: the fact's variable by a bound. */
  function HybridSubs(x: string, b: Expr): Substituter.Subs
  {
    map[x := At(Util.ToPrimaryExpr(b), PrimaryL)]
  }

  /** The left hybrid argument: a call on the fact's variable. */
  function HybridLeft(x: string): Expr
  {
    Lookup(x)
  }

  /** The right hybrid argument: a call on the fact's variable plus one. */
  function HybridRight(x: string): Expr
  {
    Sum(Lookup(x), "+", Literal(Numeric("1")))
  }

  /** A fact can step a hybrid argument when it is over one variable x, states
      g(x) ~ h(x + 1) and its distance does not mention x. */
  predicate HybridShape(eq: Equiv, x: string, asWritten: bool)
  {
    eq.vars == {x} && HybridCalls(eq, x) && DistanceCheck(x, eq.distance, asWritten).Success?
  }

  /** The fact's sides are calls on x and on x + 1. */
  predicate HybridCalls(eq: Equiv, x: string)
  {
    eq.left.Func? && |eq.left.args| == 1 && Render(eq.left.args[0]) == Render(HybridLeft(x)) &&
    eq.right.Func? && |eq.right.args| == 1 && Render(eq.right.args[0]) == Render(HybridRight(x))
  }

  /** The checks on the fact a hybrid tactic steps with, in the order they are made;
      their result is the fact's variable. */
  function HybridFact(eq: Equiv, asWritten: bool): (r: Outcome<string>)
    ensures r.Success? <==> |eq.vars| == 1 && HybridShape(eq, Order.Least(eq.vars), asWritten)
    ensures r.Success? ==> r.value == Order.Least(eq.vars)
    ensures |eq.vars| != 1 ==> r == CheckFail("Hybrid argument facts must take a single parameter")
    ensures |eq.vars| == 1 && !(eq.left.Func? && |eq.left.args| == 1) ==>
      r == CheckFail("A hybrid argument fact expressions must be a function call with a single parameter.")
    ensures |eq.vars| == 1 && HybridCalls(eq, Order.Least(eq.vars)) && VariableReferenceCollector.CollectBounds(eq.distance).Success? && r.Failure? ==>
      r == CheckFail(Order.Least(eq.vars) + " may not appear in the distance of the hybrid fact.")
  {
    var x :- SingleVar(eq.vars);
    var u1 :- HybridArgument(eq.left, HybridLeft(x), "A hybrid argument fact expressions must be a function call with a single parameter.", "left");
    var u2 :- HybridArgument(eq.right, HybridRight(x), "A hybrid argument fact expressions must be a function with a single parameter.", "right");
    var u3 :- DistanceCheck(x, eq.distance, asWritten);
    Success(x)
  }

  /** The two sides the hybrid tactic rewrites with: the fact's left side with its
      variable replaced by the start, and by the end, of the range. */
  function HybridEnds(eq: Equiv, x: string, start: Bounds, end: Bounds): (r: Outcome<(Expr, Expr)>)
    ensures r.Success? ==>
      BoundsExprConverter.ToExpr(start).Success? && BoundsExprConverter.ToExpr(end).Success? &&
      Substituter.SubstituteExpr(eq.left, HybridSubs(x, BoundsExprConverter.ToExpr(start).value)) == Success(r.value.0) &&
      Substituter.SubstituteExpr(eq.left, HybridSubs(x, BoundsExprConverter.ToExpr(end).value)) == Success(r.value.1)
    ensures !(start.BLit? || start.BLookup?) ==> r.Failure?
    ensures !(end.BLit? || end.BLookup?) ==> r.Failure?
  {
    var startExpr :- BoundsExprConverter.ToExpr(start);
    var left :- Substituter.SubstituteExpr(eq.left, HybridSubs(x, startExpr));
    var endExpr :- BoundsExprConverter.ToExpr(end);
    var right :- Substituter.SubstituteExpr(eq.left, HybridSubs(x, endExpr));
    Success((left, right))
  }

  /** The distance the hybrid tactic charges per match: (end - start) * d. */
  function HybridDistance(d: Bounds, start: Bounds, end: Bounds): Bounds
  {
    Util.MultiplyBounds(Util.SubtractBounds(end, start), d)
  }

  /** The rewriting a hybrid tactic does: each g(start) in the left side, method bodies
      included, becomes g(end) at a distance of (end - start) * d; the result is the new
      left side and the rewrites made. */
  function HybridRewrite(st: State, factId: string, start: Bounds, end: Bounds, asWritten: bool): (r: Outcome<(Expr, seq<Rewriter.Rewrite>)>)
    ensures factId !in st.theorems ==> r == CheckFail("Undeclared symbol: " + factId)
    ensures factId in st.theorems && HybridFact(st.theorems[factId], asWritten).Failure? ==>
      r == Failure(HybridFact(st.theorems[factId], asWritten).error)
    ensures r.Success? ==>
      factId in st.theorems && HybridFact(st.theorems[factId], asWritten).Success? && PeekEquiv(st).Success? &&
      var eq := st.theorems[factId];
      var ends := HybridEnds(eq, HybridFact(eq, asWritten).value, start, end);
      ends.Success? && r.value.1 != [] &&
      Rewriter.RewriteAll(Rewriter.Fact(ends.value.0, eq.vars, ends.value.1, HybridDistance(eq.distance, start, end), true), st.obligations[0].leftExpr) == Success(r.value)
  {
    if factId !in st.theorems then CheckFail("Undeclared symbol: " + factId)
    else
      var eq := st.theorems[factId];
      var x :- HybridFact(eq, asWritten);
      var ends :- HybridEnds(eq, x, start, end);
      var ob :- PeekEquiv(st);
      var rw :- Rewriter.RewriteAll(Rewriter.Fact(ends.0, eq.vars, ends.1, HybridDistance(eq.distance, start, end), true), ob.leftExpr);
      if rw.1 == [] then CheckFail("Found no occurences of " + Show(ends.0) + " to rewrite.")
      else Success(rw)
  }

  /** hybrid: the rewriting above, with each rewrite's distance charged. */
  function HybridStep(st: State, factId: string, start: Bounds, end: Bounds, asWritten: bool): (r: Outcome<State>)
    ensures r.Success? <==> HybridRewrite(st, factId, start, end, asWritten).Success?
    ensures r.Success? ==>
      var rw := HybridRewrite(st, factId, start, end, asWritten).value;
      var ob := st.obligations[0];
      r.value == SetTop(st, ob.(leftExpr := rw.0, distance := Charged(ob.distance, rw.1)))
  {
    var rw :- HybridRewrite(st, factId, start, end, asWritten);
    var ob := st.obligations[0];
    Success(SetTop(st, ob.(leftExpr := rw.0, distance := Charged(ob.distance, rw.1))))
  }

  /** A hybrid with the corrected check refuses a well-shaped fact whose distance
      mentions its variable; as written, the same fact is accepted when the variable
      only appears outside env terms. */
  lemma HybridRefusesVariableInDistance(eq: Equiv, g: string)
    requires |eq.vars| == 1
    requires var x := Order.Least(eq.vars);
      eq.left == Func(g, [HybridLeft(x)]) && eq.right == Func(g, [HybridRight(x)]) &&
      VariableReferenceCollector.CollectBounds(eq.distance) == Success({}) && x in BoundsLookups(eq.distance)
    ensures HybridFact(eq, false) == CheckFail(Order.Least(eq.vars) + " may not appear in the distance of the hybrid fact.")
    ensures HybridFact(eq, true).Success?
  {
    var x := Order.Least(eq.vars);
    assert HybridCalls(eq, x);
  }

  /** The arguments the hybrid tactic expects print as x and as x + 1. */
  lemma HybridArgumentsText(x: string)
    ensures Render(HybridLeft(x)) == [x]
    ensures Render(HybridRight(x)) == [x, "+", "1"]
  {
  }

  // ---------------------------------------------------------------------------
  // Subgoals
  // ---------------------------------------------------------------------------

  /** The frames and the declared functions and default types are the same, whatever
      the innermost frame now holds. */
  predicate SameFrames(s: Declarations.Scope, s': Declarations.Scope)
  {
    |s'.symbols| == |s.symbols| && s'.defaults == s.defaults && s'.funcs == s.funcs &&
    (s.symbols != [] ==> s'.symbols[1..] == s.symbols[1..])
  }

  /** The fields of the left object, declared in the frame a new-rewrite goal pushes. */
  function DeclareFields(ps: seq<NewParam>, s: Declarations.Scope): (r: Outcome<Declarations.Scope>)
    requires s.symbols != []
    ensures r.Success? ==> Declarations.Keeps(s, r.value)
    ensures r.Success? ==> forall i :: 0 <= i < |ps| ==> ps[i].id !in s.symbols[0].ids && ps[i].id in r.value.symbols[0].ids
    ensures r.Success? ==> forall i, j :: 0 <= i < j < |ps| ==> ps[i].id != ps[j].id
    decreases ps
  {
    if ps == [] then Success(s)
    else if !DeclarationAllowed(s.symbols, ps[0].id) then CheckFail("Already declared: " + ps[0].id)
    else
      var w :- DeclareFields(ps[1..], Declarations.Add(s, ps[0].id, Opaque));
      assert forall i :: 1 <= i < |ps| ==> ps[i] == ps[1..][i - 1];
      Success(w)
  }

  /** No `...` anywhere in an expression, its propositions or its objects. */
  predicate NoDots(e: Expr)
    decreases e
  {
    match e
    case DotDotDot => false
    case Assert(p) => PropNoDots(p)
    case Admit(p) => PropNoDots(p)
    case _ => forall i :: 0 <= i < |ExprChildren(e)| ==> NoDots(ExprChildren(e)[i])
  }

  predicate PropNoDots(p: Prop)
    decreases p
  {
    if p.PEnv? then forall i :: 0 <= i < |p.params| ==> NoDots(p.params[i])
    else forall i :: 0 <= i < |PropChildren(p)| ==> PropNoDots(PropChildren(p)[i])
  }

  /** Every `...` replaced by the previous body, which is not itself visited. */
  function Fill(e: Expr, prev: Expr): (r: Expr)
    ensures NoDots(prev) ==> NoDots(r)
    ensures NoDots(e) ==> r == e
    decreases e, 2
  {
    if e.DotDotDot? then prev
    else if e.Assert? then Assert(FillProp(e.prop, prev))
    else if e.Admit? then Admit(FillProp(e.prop, prev))
    else FillChildren(e, prev)
  }

  function FillChildren(e: Expr, prev: Expr): (r: Expr)
    requires !e.DotDotDot? && !e.Assert? && !e.Admit?
    ensures NoDots(prev) ==> NoDots(r)
    ensures NoDots(e) ==> r == e
    decreases e, 1
  {
    var cs := FillArgs(ExprChildren(e), prev, e);
    WithOwnExprChildren(e);
    var w := WithExprChildren(e, cs);
    assert !w.DotDotDot? && !w.Assert? && !w.Admit?;
    w
  }

  function FillArgs(xs: seq<Expr>, prev: Expr, parent: Expr): (r: seq<Expr>)
    requires forall i :: 0 <= i < |xs| ==> xs[i] < parent
    ensures |r| == |xs|
    ensures NoDots(prev) ==> forall i :: 0 <= i < |r| ==> NoDots(r[i])
    ensures (forall i :: 0 <= i < |xs| ==> NoDots(xs[i])) ==> r == xs
    decreases parent, 0, |xs|
  {
    if xs == [] then []
    else [Fill(xs[0], prev)] + FillArgs(xs[1..], prev, parent)
  }

  function FillProp(p: Prop, prev: Expr): (r: Prop)
    ensures NoDots(prev) ==> PropNoDots(r)
    ensures PropNoDots(p) ==> r == p
    decreases p, 1
  {
    if p.PEnv? then PEnv(FillEnv(p.params, prev, p))
    else
      var cs := FillProps(PropChildren(p), prev, p);
      WithOwnPropChildren(p);
      WithPropChildren(p, cs)
  }

  function FillEnv(xs: seq<Expr>, prev: Expr, parent: Prop): (r: seq<Expr>)
    requires forall i :: 0 <= i < |xs| ==> xs[i] < parent
    ensures |r| == |xs|
    ensures NoDots(prev) ==> forall i :: 0 <= i < |r| ==> NoDots(r[i])
    ensures (forall i :: 0 <= i < |xs| ==> NoDots(xs[i])) ==> r == xs
    decreases parent, 0, |xs|
  {
    if xs == [] then []
    else [Fill(xs[0], prev)] + FillEnv(xs[1..], prev, parent)
  }

  function FillProps(ps: seq<Prop>, prev: Expr, parent: Prop): (r: seq<Prop>)
    requires forall i :: 0 <= i < |ps| ==> ps[i] < parent
    ensures |r| == |ps|
    ensures NoDots(prev) ==> forall i :: 0 <= i < |r| ==> PropNoDots(r[i])
    ensures (forall i :: 0 <= i < |ps| ==> PropNoDots(ps[i])) ==> r == ps
    decreases parent, 0, |ps|
  {
    if ps == [] then []
    else [FillProp(ps[0], prev)] + FillProps(ps[1..], prev, parent)
  }

  /** The method of a method-rewrite term with its `...` filled in. */
  function FillMethod(m: MethodDef, prev: Expr): (r: MethodDef)
    ensures r.name == m.name && r.formals == m.formals && r.body.Some? == m.body.Some?
  {
    if m.body.None? then m else m.(body := Some(Fill(m.body.value, prev)))
  }

  /** Each method of the right object with the term's name is replaced by the term's
      method, its `...` standing for the replaced method's body; the others are kept. A
      replaced method without a body is a null pointer. */
  function ReplaceMethods(ms: seq<MethodDef>, m: MethodDef): (r: Outcome<seq<MethodDef>>)
    ensures r.Success? <==> forall i :: 0 <= i < |ms| && ms[i].name == m.name ==> ms[i].body.Some?
    ensures r.Success? ==> |r.value| == |ms|
    ensures r.Success? ==> forall i :: 0 <= i < |ms| ==>
      r.value[i] == if ms[i].name == m.name then FillMethod(m, Util.ToPrimaryExpr(ms[i].body.value)) else ms[i]
    ensures r.Failure? ==> r == NullPointer()
    decreases ms
  {
    if ms == [] then Success([])
    else
      var head :- if ms[0].name != m.name then Success(ms[0])
                  else if ms[0].body.None? then NullPointer()
                  else Success(FillMethod(m, Util.ToPrimaryExpr(ms[0].body.value)));
      var rest :- ReplaceMethods(ms[1..], m);
      assert forall i :: 1 <= i < |ms| ==> ms[i] == ms[1..][i - 1];
      Success([head] + rest)
  }

  /** Only the scope and the right side of the top builder differ. */
  predicate BuilderRight(st: State, st': State)
    requires st.obligations != [] && st.obligations[0].Builder?
  {
    |st'.obligations| == |st.obligations| && st'.obligations[1..] == st.obligations[1..] &&
    st'.obligations[0].Builder? && st'.obligations[0] == st.obligations[0].(bRight := st'.obligations[0].bRight) &&
    st' == st.(scope := st'.scope, obligations := st'.obligations)
  }

  /** One term of a new-rewrite goal, applied to the builder's right object. */
  function RewriteTermStep(t: RewriteTerm, st: State): (r: Outcome<State>)
    requires st.scope.symbols != [] && st.obligations != [] && st.obligations[0].Builder?
    ensures r.Success? ==> SameFrames(st.scope, r.value.scope) && BuilderRight(st, r.value)
    ensures r.Success? ==> st.obligations[0].bRight.New? && r.value.obligations[0].bRight.New?
    ensures r.Success? && t.ParamsTerm? ==>
      r.value.obligations[0].bRight == st.obligations[0].bRight.(params := t.params)
    ensures r.Success? && t.MethodTerm? ==>
      r.value.obligations[0].bRight.classIdent == st.obligations[0].bRight.classIdent &&
      r.value.obligations[0].bRight.params == st.obligations[0].bRight.params &&
      ReplaceMethods(st.obligations[0].bRight.methods, t.def) == Success(r.value.obligations[0].bRight.methods)
  {
    var b := st.obligations[0];
    match t
    case ParamsTerm(ps) =>
      var sc :- Declarations.ScanParams(ps, Declarations.Push(Declarations.Pop(st.scope), Mutable));
      if Util.ToNewExpr(b.bRight).None? then CheckFail("Not a new expression: " + Show(b.bRight))
      else Success(SetTop(st.(scope := sc), b.(bRight := b.bRight.(params := ps))))
    case MethodTerm(m) =>
      var sc :- Declarations.ScanMethod(m, st.scope);
      if Util.ToNewExpr(b.bRight).None? then CheckFail("Not a new expression: " + Show(b.bRight))
      else
        var ms :- ReplaceMethods(b.bRight.methods, m);
        Success(SetTop(st.(scope := sc), b.(bRight := b.bRight.(methods := ms))))
  }

  function RewriteTerms(ts: seq<RewriteTerm>, st: State): (r: Outcome<State>)
    requires st.scope.symbols != [] && st.obligations != [] && st.obligations[0].Builder?
    ensures r.Success? ==> SameFrames(st.scope, r.value.scope) && BuilderRight(st, r.value)
    decreases ts
  {
    if ts == [] then Success(st)
    else
      var st1 :- RewriteTermStep(ts[0], st);
      RewriteTerms(ts[1..], st1)
  }

  /** The goal of a subgoal: an expression, which must pass the declaration checks, or
      rewrites of the left object's constructor and methods, checked with the object's
      fields declared; either way the builder becomes an equivalence obligation. */
  function GoalStep(st: State, g: Goal): (r: Outcome<State>)
    requires st.scope.symbols != []
    ensures r.Success? ==> Declarations.Keeps(st.scope, r.value.scope)
    ensures r.Success? ==>
      PeekBuilder(st).Success? && |r.value.obligations| == |st.obligations| &&
      r.value.obligations[1..] == st.obligations[1..] &&
      var b := st.obligations[0];
      r.value.obligations[0].EquivOb? && r.value.obligations[0] == NewObligation(Equiv(b.bLeft, r.value.obligations[0].equiv.right, b.bVars, b.bDistance))
    ensures r.Success? && g.ExprGoal? ==> r.value.obligations[0].equiv.right == g.e
    ensures r.Success? ==> r == Success(st.(scope := r.value.scope, obligations := r.value.obligations))
  {
    match g
    case ExprGoal(e) =>
      var sc :- Declarations.Scan(e, st.scope);
      var b :- PeekBuilder(st);
      Success(SetTop(st.(scope := sc), Build(b.(bRight := e))))
    case NewRewrite(terms) =>
      var b :- PeekBuilder(st);
      if Util.ToNewExpr(b.bLeft).None? then CheckFail("Not a new expression: " + Show(b.bLeft))
      else
        var sc :- DeclareFields(b.bLeft.params, Declarations.Push(st.scope, Mutable));
        var st1 :- RewriteTerms(terms, st.(scope := sc));
        var st2 := st1.(scope := Declarations.Pop(st1.scope));
        Success(SetTop(st2, Build(st2.obligations[0])))
  }

  /** The opening of a subgoal: a builder seeded with the parent's left side on both
      sides, the parent's variables and the subgoal's bound. */
  function SubgoalOpen(st: State, bound: Bounds): (r: Outcome<State>)
    ensures r.Success? <==> PeekEquiv(st).Success?
    ensures r.Success? ==>
      var top := st.obligations[0];
      r.value == st.(obligations := [Builder(top.leftExpr, top.leftExpr, top.equiv.vars, bound)] + st.obligations)
  {
    var top :- PeekEquiv(st);
    Success(st.(obligations := [Builder(top.leftExpr, top.leftExpr, top.equiv.vars, bound)] + st.obligations))
  }

  /** The end of a subgoal: its obligation is popped, and the parent's left side becomes
      the subgoal's declared right side, with the subgoal's bound charged. */
  function SubgoalClose(st: State, bound: Bounds): (r: Outcome<State>)
    ensures r.Success? <==> |st.obligations| >= 2 && st.obligations[0].EquivOb? && st.obligations[1].EquivOb?
    ensures r.Success? ==>
      var top := st.obligations[1];
      r.value == st.(obligations := [top.(leftExpr := st.obligations[0].equiv.right, distance := Util.AddBounds(top.distance, bound))] + st.obligations[2..])
  {
    var sub :- PeekEquiv(st);
    var rest := st.(obligations := st.obligations[1..]);
    var top :- PeekEquiv(rest);
    assert rest.obligations[1..] == st.obligations[2..];
    Success(SetTop(rest, top.(leftExpr := sub.equiv.right, distance := Util.AddBounds(top.distance, bound))))
  }

  // ---------------------------------------------------------------------------
  // Tactics and proofs
  // ---------------------------------------------------------------------------

  datatype RewriteTerm = ParamsTerm(params: seq<NewParam>) | MethodTerm(def: MethodDef)

  datatype Goal = ExprGoal(e: Expr) | NewRewrite(terms: seq<RewriteTerm>)

  datatype Tactic =
    | Subgoal(goal: Goal, bound: Bounds, proof: seq<Tactic>)
    | SymmetryTactic
    | AdmitTactic
    | TrivialTactic
    | AutoTactic
    | BisimTactic(props: Option<seq<BisimProp>>)
    | RewriteTactic(fact: string)
    | HybridTactic(stepFact: string, start: Bounds, end: Bounds)
    | UnfoldTactic(ids: Option<seq<string>>)
    | InlineTactic(ids: Option<seq<string>>)

  /** A subgoal: the builder is opened, its goal read, its bound visited, its proof run
      and closed, and the parent resumed. */
  function SubgoalStep(t: Tactic, st: State): (r: Outcome<State>)
    requires t.Subgoal? && st.scope.symbols != []
    ensures r.Success? ==> SameStack(st, r.value) && st.obligations != [] && st.obligations[0].EquivOb?
    ensures r.Success? ==>
      r.value.obligations[0].distance == Util.AddBounds(st.obligations[0].distance, t.bound) &&
      r.value.obligations[0].rightExpr == st.obligations[0].rightExpr
    ensures r.Success? && t.goal.ExprGoal? ==>
      r.value.obligations[0] == st.obligations[0].(leftExpr := t.goal.e, distance := Util.AddBounds(st.obligations[0].distance, t.bound))
    decreases t, 0
  {
    var s1 :- SubgoalOpen(st, t.bound);
    var s2 :- GoalStep(s1, t.goal);
    var sc :- Declarations.ScanBounds(t.bound, s2.scope);
    var s3 :- RunTactics(t.proof, s2.(scope := sc));
    var s4 :- ProofClose(s3);
    var w :- SubgoalClose(s4, t.bound);
    assert s2.obligations[1..] == st.obligations;
    KeepsTransitive(st.scope, s2.scope, sc);
    KeepsTransitive(st.scope, sc, s3.scope);
    Success(w)
  }

  /** One tactic. A tactic keeps the stack discipline; a subgoal resumes its parent with
      the left side it declared and its bound charged. */
  function RunTactic(t: Tactic, st: State): (r: Outcome<State>)
    requires st.scope.symbols != []
    ensures r.Success? ==> SameStack(st, r.value) && st.obligations != [] && st.obligations[0].EquivOb?
    ensures r.Success? && t.Subgoal? ==>
      r.value.obligations[0].distance == Util.AddBounds(st.obligations[0].distance, t.bound) &&
      r.value.obligations[0].rightExpr == st.obligations[0].rightExpr
    ensures r.Success? && t.Subgoal? && t.goal.ExprGoal? ==>
      r.value.obligations[0] == st.obligations[0].(leftExpr := t.goal.e, distance := Util.AddBounds(st.obligations[0].distance, t.bound))
    decreases t, 1
  {
    match t
    case Subgoal(g, bound, proof) => SubgoalStep(t, st)
    case SymmetryTactic => SymmetryStep(st)
    case AdmitTactic => AdmitStep(st)
    case TrivialTactic => TrivialStep(st)
    case AutoTactic => AutoStep(st)
    case BisimTactic(props) => BisimStep(st, props)
    case RewriteTactic(f) => RewriteStep(st, f)
    case HybridTactic(f, a, b) => HybridStep(st, f, a, b, false)
    case UnfoldTactic(ids) => UnfoldStep(st, ids)
    case InlineTactic(ids) => InlineStep(st, ids)
  }

  function RunTactics(ts: seq<Tactic>, st: State): (r: Outcome<State>)
    requires st.scope.symbols != []
    ensures r.Success? ==> SameStack(st, r.value)
    decreases ts, 2
  {
    if ts == [] then Success(st)
    else
      var s1 :- RunTactic(ts[0], st);
      var s2 :- RunTactics(ts[1..], s1);
      SameStackTransitive(st, s1, s2);
      Success(s2)
  }

  // ---------------------------------------------------------------------------
  // Declarations
  // ---------------------------------------------------------------------------

  datatype FactDecl = FactDecl(id: string, formals: seq<FormalParam>, left: Expr, right: Expr, bound: Bounds)

  datatype Decl =
    | ConstDecl(param: FormalParam)
    | FunctionDecl(func: FuncDecl)
    | AxiomDecl(prop: Prop)
    | TheoremDecl(fact: FactDecl, proof: seq<Tactic>)
    | AssumptionDecl(fact: FactDecl)
    | ImportStmt(moduleIds: seq<string>)

  /** The statement of a fact: a logical frame with its formals (Opaque unless annotated);
      its expressions are not visited. A theorem or assumption name is used once. */
  function FactOpen(st: State, f: FactDecl): (r: Outcome<State>)
    requires st.scope.symbols != []
    ensures r.Success? ==> f.id !in st.theorems
    ensures r.Success? ==>
      |r.value.scope.symbols| == |st.scope.symbols| + 1 && r.value.scope.symbols[1..] == st.scope.symbols &&
      r.value.scope.symbols[0].kind == Logical && r.value.scope.defaults == st.scope.defaults &&
      r.value.scope.funcs == st.scope.funcs
    ensures r.Success? ==> forall i :: 0 <= i < |f.formals| ==> f.formals[i].id in r.value.scope.symbols[0].ids
    ensures r.Success? ==>
      r.value == st.(scope := r.value.scope, pending := [Pending(f.id, Equiv(f.left, f.right, r.value.scope.symbols[0].ids.Keys, f.bound))] + st.pending)
  {
    var s0 := Declarations.Push(st.scope, Logical);
    var s1 :- Declarations.DeclareFormals(f.formals, s0.(defaults := [Opaque] + s0.defaults));
    var s2 := s1.(defaults := s1.defaults[1..]);
    if f.id in st.theorems then CheckFail("theorem identifier already declared: " + f.id)
    else Success(st.(scope := s2, pending := [Pending(f.id, Equiv(f.left, f.right, s2.symbols[0].ids.Keys, f.bound))] + st.pending))
  }

  /** The end of a fact: its frame is popped and it is registered. Its variables are the
      names its frame holds at that point: the formals, and the names that assignments in
      the proof's goals declared there. */
  function FactClose(st: State): (r: State)
    requires st.pending != [] && st.scope.symbols != []
    ensures r.scope.symbols == st.scope.symbols[1..] && r.pending == st.pending[1..]
    ensures r.theorems == st.theorems[st.pending[0].id := st.pending[0].equiv.(vars := st.scope.symbols[0].ids.Keys)]
    ensures r == st.(scope := r.scope, pending := r.pending, theorems := r.theorems)
  {
    var p := st.pending[0];
    st.(scope := Declarations.Pop(st.scope), pending := st.pending[1..],
        theorems := st.theorems[p.id := p.equiv.(vars := st.scope.symbols[0].ids.Keys)])
  }

  /** A theorem: its obligation is pushed, the proof runs and is closed, the obligation
      is popped and nothing may remain on the stack; then the fact is registered. */
  function TheoremStep(st: State, f: FactDecl, proof: seq<Tactic>): (r: Outcome<State>)
    requires st.scope.symbols != []
    ensures r.Success? ==> st.obligations == [] && r.value.obligations == []
    ensures r.Success? ==> r.value.scope.symbols == st.scope.symbols && r.value.scope.defaults == st.scope.defaults
    ensures r.Success? ==> r.value.pending == st.pending && r.value.axioms == st.axioms
    ensures r.Success? ==>
      f.id !in st.theorems && r.value.theorems.Keys == st.theorems.Keys + {f.id} &&
      (forall n :: n in st.theorems ==> r.value.theorems[n] == st.theorems[n]) &&
      var eq := r.value.theorems[f.id];
      eq.left == f.left && eq.right == f.right && eq.distance == f.bound &&
      forall i :: 0 <= i < |f.formals| ==> f.formals[i].id in eq.vars
  {
    var s1 :- FactOpen(st, f);
    var s2 := s1.(obligations := [NewObligation(s1.pending[0].equiv)] + s1.obligations);
    var s3 :- RunTactics(proof, s2);
    var s4 :- ProofClose(s3);
    var s5 := s4.(obligations := s4.obligations[1..]);
    if s5.obligations != [] then CheckFail("Proof obligations remain.")
    else
      assert s2.obligations[1..] == st.obligations;
      Success(FactClose(s5))
  }

  /** A theorem started while an obligation is open cannot succeed. */
  lemma TheoremNeedsEmptyStack(st: State, f: FactDecl, proof: seq<Tactic>)
    requires st.scope.symbols != [] && st.obligations != []
    ensures TheoremStep(st, f, proof).Failure?
  {
  }

  /** An assumption: registered without proof. */
  function AssumptionStep(st: State, f: FactDecl): (r: Outcome<State>)
    requires st.scope.symbols != []
    ensures r.Success? ==> r.value.scope.symbols == st.scope.symbols && r.value.obligations == st.obligations
    ensures r.Success? ==> r.value.pending == st.pending && r.value.axioms == st.axioms
    ensures r.Success? ==>
      f.id !in st.theorems && r.value.theorems.Keys == st.theorems.Keys + {f.id} &&
      r.value.theorems[f.id].left == f.left && r.value.theorems[f.id].right == f.right &&
      r.value.theorems[f.id].distance == f.bound
  {
    var s1 :- FactOpen(st, f);
    Success(FactClose(s1))
  }

  // ---------------------------------------------------------------------------
  // Imports
  // ---------------------------------------------------------------------------

  /** The identifiers of a module path joined by a separator. */
  function Joined(ids: seq<string>, sep: char): string
    requires ids != []
    decreases |ids|
  {
    if |ids| == 1 then ids[0] else ids[0] + [sep] + Joined(ids[1..], sep)
  }

  lemma {:induction false} JoinedSnoc(ids: seq<string>, x: string, sep: char)
    requires ids != []
    ensures Joined(ids + [x], sep) == Joined(ids, sep) + [sep] + x
    decreases |ids|
  {
    if |ids| == 1 {
      assert (ids + [x])[1..] == [x];
    } else {
      assert (ids + [x])[1..] == ids[1..] + [x];
      JoinedSnoc(ids[1..], x, sep);
    }
  }

  /** A string cut at each occurrence of a character. */
  function Split(s: string, c: char): (r: seq<string>)
    ensures r != []
    decreases |s|
  {
    if c !in s then [s]
    else
      var k := IndexOf(s, c);
      [s[..k]] + Split(s[k + 1..], c)
  }

  function IndexOf(s: string, c: char): (k: nat)
    requires c in s
    ensures k < |s| && s[k] == c && c !in s[..k]
  {
    if s[0] == c then 0
    else
      var k0 := IndexOf(s[1..], c);
      assert s[..k0 + 1] == [s[0]] + s[1..][..k0];
      k0 + 1
  }

  lemma SplitAt(a: string, b: string, c: char)
    requires c !in a
    ensures Split(a + [c] + b, c) == [a] + Split(b, c)
  {
    var s := a + [c] + b;
    assert s[|a|] == c;
    assert c in s;
    var k := IndexOf(s, c);
    assert s[..k] == a;
    assert s[k + 1..] == b;
  }

  /** Splitting the joined path gives back its identifiers when none contains the
      separator, so distinct module paths have distinct names. */
  lemma {:induction false} SplitJoined(ids: seq<string>, c: char)
    requires ids != [] && forall i :: 0 <= i < |ids| ==> c !in ids[i]
    ensures Split(Joined(ids, c), c) == ids
    decreases |ids|
  {
    if |ids| > 1 {
      var rest := Joined(ids[1..], c);
      assert Joined(ids, c) == ids[0] + [c] + rest;
      SplitAt(ids[0], rest, c);
      SplitJoined(ids[1..], c);
      assert ids == [ids[0]] + ids[1..];
    }
  }

  lemma JoinedInjective(a: seq<string>, b: seq<string>, c: char)
    requires a != [] && b != [] && Joined(a, c) == Joined(b, c)
    requires forall i :: 0 <= i < |a| ==> c !in a[i]
    requires forall i :: 0 <= i < |b| ==> c !in b[i]
    ensures a == b
  {
    SplitJoined(a, c);
    SplitJoined(b, c);
  }

  /** getModuleName: the identifiers joined by dots; with no identifier, the first get
      is out of bounds. */
  function ModuleName(ids: seq<string>): (r: Outcome<string>)
    ensures r.Success? <==> ids != []
    ensures r.Success? ==> r.value == Joined(ids, '.')
    ensures r.Failure? ==> r == InternalFail(Inline.OutOfBounds(0, 0))
  {
    if ids == [] then InternalFail(Inline.OutOfBounds(0, 0)) else Success(Joined(ids, '.'))
  }

  /** getFilePath: the identifiers joined by the file separator, with the extension. */
  function FilePath(ids: seq<string>, sep: char): (r: Outcome<string>)
    ensures r.Success? <==> ids != []
    ensures r.Success? ==> r.value == Joined(ids, sep) + ".qvl"
  {
    if ids == [] then InternalFail(Inline.OutOfBounds(0, 0)) else Success(Joined(ids, sep) + ".qvl")
  }

  /** An import: a module name seen before is skipped; otherwise it is recorded and its
      file is read. */
  function ImportStep(st: State, ids: seq<string>, sep: char): (r: Outcome<State>)
    ensures r.Success? <==> ids != []
    ensures r.Success? && Joined(ids, '.') in st.imported ==> r.value == st
    ensures r.Success? && Joined(ids, '.') !in st.imported ==>
      r.value == st.(imported := st.imported + {Joined(ids, '.')}, loads := st.loads + [Joined(ids, sep) + ".qvl"])
  {
    var name :- ModuleName(ids);
    if name in st.imported then Success(st)
    else
      Success(st.(imported := st.imported + {name}, loads := st.loads + [FilePath(ids, sep).value]))
  }

  /** Importing a module a second time changes nothing. */
  lemma ImportOnce(st: State, ids: seq<string>, sep: char)
    requires ImportStep(st, ids, sep).Success?
    ensures ImportStep(ImportStep(st, ids, sep).value, ids, sep) == ImportStep(st, ids, sep)
  {
  }

  // ---------------------------------------------------------------------------
  // A development
  // ---------------------------------------------------------------------------

  /** One declaration at the top level. */
  function RunDecl(d: Decl, st: State, sep: char): (r: Outcome<State>)
    requires TopLevel(st)
    ensures r.Success? ==> TopLevel(r.value)
    ensures r.Success? && d.ConstDecl? ==> d.param.id in r.value.scope.symbols[0].ids
  {
    match d
    case ConstDecl(p) =>
      var sc :- Declarations.DeclareConst(st.scope, p);
      Success(st.(scope := sc))
    case FunctionDecl(f) =>
      var sc :- Declarations.DeclareFunc(st.scope, f);
      Success(st.(scope := sc))
    case AxiomDecl(p) =>
      var sc :- Declarations.ScanProp(p, st.scope);
      Success(st.(scope := sc, axioms := st.axioms + [p]))
    case TheoremDecl(f, proof) => TheoremStep(st, f, proof)
    case AssumptionDecl(f) => AssumptionStep(st, f)
    case ImportStmt(ids) => ImportStep(st, ids, sep)
  }

  function RunDecls(ds: seq<Decl>, st: State, sep: char): (r: Outcome<State>)
    requires TopLevel(st)
    ensures r.Success? ==> TopLevel(r.value)
    decreases ds
  {
    if ds == [] then Success(st)
    else
      var s1 :- RunDecl(ds[0], st, sep);
      RunDecls(ds[1..], s1, sep)
  }

  /** check: a development from the start. */
  function Check(ds: seq<Decl>, sep: char): (r: Outcome<State>)
    ensures r.Success? ==> TopLevel(r.value)
  {
    RunDecls(ds, Initial(), sep)
  }

  /** A constant cannot be declared twice. */
  lemma ConstantDeclaredTwice(st: State, p: FormalParam, sep: char)
    requires TopLevel(st) && RunDecl(ConstDecl(p), st, sep).Success?
    ensures RunDecl(ConstDecl(p), RunDecl(ConstDecl(p), st, sep).value, sep) == CheckFail(p.id + " already declared.")
  {
  }

  // ---------------------------------------------------------------------------
  // The checker object
  // ---------------------------------------------------------------------------

  /** Collects the identifiers of a module path and prints the module's name and the
      path of its file. */
  class ModuleFilenameConverter {
    var ids: seq<string>

    constructor ()
      ensures ids == []
    {
      ids := [];
    }

    method AddIdentifier(id: string)
      modifies this
      ensures ids == old(ids) + [id]
    {
      ids := ids + [id];
    }

    /** getFilePath: the first identifier, then each further one after a separator,
        then the extension. */
    method GetFilePath(sep: char) returns (r: Outcome<string>)
      ensures r == FilePath(ids, sep)
    {
      if ids == [] {
        return InternalFail(Inline.OutOfBounds(0, 0));
      }
      var result := JoinFrom(ids, sep);
      return Success(result + ".qvl");
    }

    /** getModuleName: the identifiers joined by dots. */
    method GetModuleName() returns (r: Outcome<string>)
      ensures r == ModuleName(ids)
    {
      if ids == [] {
        return InternalFail(Inline.OutOfBounds(0, 0));
      }
      var result := JoinFrom(ids, '.');
      return Success(result);
    }
  }

  /** The StringBuffer loop both printers share. */
  method JoinFrom(ids: seq<string>, sep: char) returns (result: string)
    requires ids != []
    ensures result == Joined(ids, sep)
  {
    result := ids[0];
    for i := 1 to |ids|
      invariant result == Joined(ids[..i], sep)
    {
      assert ids[..i + 1] == ids[..i] + [ids[i]];
      JoinedSnoc(ids[..i], ids[i], sep);
      result := result + [sep] + ids[i];
    }
    assert ids[..|ids|] == ids;
  }

  /** The checker: a visitor whose handlers update its symbol table, its obligation
      stack, its pending facts, its theorems and the tasks it enqueues. */
  class ProofChecker {
    var scope: Declarations.Scope
    var obligations: seq<Obligation>
    var pending: seq<Pending>
    var theorems: map<string, Equiv>
    var axioms: seq<Prop>
    var tasks: seq<Task>
    var imported: set<string>
    var loads: seq<string>

    function Value(): State
      reads this
    {
      State(scope, obligations, pending, theorems, axioms, tasks, imported, loads)
    }

    constructor ()
      ensures Value() == Initial()
    {
      scope := Declarations.Scope([FrameValue(Constant, map[])], [], BoogieFunctions.Empty(), map[]);
      obligations := [];
      pending := [];
      theorems := map[];
      axioms := [];
      tasks := [];
      imported := {};
      loads := [];
    }

    /** Takes over the fields of a state a visit of a subtree produced. */
    method SetValue(st: State)
      modifies this
      ensures Value() == st
    {
      scope, obligations, pending, theorems := st.scope, st.obligations, st.pending, st.theorems;
      axioms, tasks, imported, loads := st.axioms, st.tasks, st.imported, st.loads;
    }

    /** The loop over the rewrites found: each one's distance is added to the top
        obligation's distance. */
    method ChargeRewrites(rws: seq<Rewriter.Rewrite>)
      requires obligations != [] && obligations[0].EquivOb?
      modifies this
      ensures Value() == SetTop(old(Value()), old(obligations[0]).(distance := Charged(old(obligations[0].distance), rws)))
    {
      ghost var top := obligations[0];
      for i := 0 to |rws|
        invariant Value() == SetTop(old(Value()), top.(distance := Charged(top.distance, rws[..i])))
      {
        assert rws[..i + 1] == rws[..i] + [rws[i]];
        ChargedSnoc(top.distance, rws[..i], rws[i]);
        obligations := [obligations[0].(distance := Util.AddBounds(obligations[0].distance, rws[i].distance))] + obligations[1..];
      }
      assert rws[..|rws|] == rws;
    }

    /** outARewriteTactic. */
    method Rewrite(factId: string) returns (r: Outcome<()>)
      modifies this
      ensures r.Success? <==> RewriteStep(old(Value()), factId).Success?
      ensures r.Success? ==> Value() == RewriteStep(old(Value()), factId).value
      ensures r.Failure? ==> r.error == RewriteStep(old(Value()), factId).error
    {
      if factId !in theorems {
        return CheckFail("Undeclared symbol: " + factId);
      }
      var eq := theorems[factId];
      if obligations == [] || !obligations[0].EquivOb? {
        return CheckFail("Not an equivalence obligation");
      }
      var rw := Rewriter.RewriteAll(RewriteFact(eq), obligations[0].leftExpr);
      if rw.Failure? {
        return Failure(rw.error);
      }
      if rw.value.1 == [] {
        return CheckFail("Nothing to rewrite");
      }
      ChargeRewrites(rw.value.1);
      obligations := [obligations[0].(leftExpr := rw.value.0)] + obligations[1..];
      return Success(());
    }

    /** outAHybridTactic, with the corrected check of the distance. */
    method Hybrid(factId: string, start: Bounds, end: Bounds) returns (r: Outcome<()>)
      modifies this
      ensures r.Success? <==> HybridStep(old(Value()), factId, start, end, false).Success?
      ensures r.Success? ==> Value() == HybridStep(old(Value()), factId, start, end, false).value
      ensures r.Failure? ==> r.error == HybridStep(old(Value()), factId, start, end, false).error
    {
      var rw := HybridRewrite(Value(), factId, start, end, false);
      if rw.Failure? {
        return Failure(rw.error);
      }
      ChargeRewrites(rw.value.1);
      obligations := [obligations[0].(leftExpr := rw.value.0)] + obligations[1..];
      return Success(());
    }

    /** caseAFactDecl: the logical frame, the formals, the name check and the pending
        fact. */
    method OpenFact(f: FactDecl) returns (r: Outcome<()>)
      requires scope.symbols != []
      modifies this
      ensures r.Success? <==> FactOpen(old(Value()), f).Success?
      ensures r.Success? ==> Value() == FactOpen(old(Value()), f).value
      ensures r.Failure? ==> r.error == FactOpen(old(Value()), f).error
    {
      var s0 := Declarations.Push(scope, Logical);
      var s1 := Declarations.DeclareFormals(f.formals, s0.(defaults := [Opaque] + s0.defaults));
      if s1.Failure? {
        return Failure(s1.error);
      }
      scope := s1.value.(defaults := s1.value.defaults[1..]);
      if f.id in theorems {
        return CheckFail("theorem identifier already declared: " + f.id);
      }
      pending := [Pending(f.id, Equiv(f.left, f.right, scope.symbols[0].ids.Keys, f.bound))] + pending;
      return Success(());
    }

    /** The end of a fact: the pending fact is popped with the frame and registered. */
    method CloseFact()
      requires pending != [] && scope.symbols != []
      modifies this
      ensures Value() == FactClose(old(Value()))
    {
      var p := pending[0];
      pending := pending[1..];
      var vars := scope.symbols[0].ids.Keys;
      scope := Declarations.Pop(scope);
      theorems := theorems[p.id := p.equiv.(vars := vars)];
    }

    /** caseATheorem. */
    method Theorem(f: FactDecl, proof: seq<Tactic>) returns (r: Outcome<()>)
      requires scope.symbols != []
      modifies this
      ensures r.Success? <==> TheoremStep(old(Value()), f, proof).Success?
      ensures r.Success? ==> Value() == TheoremStep(old(Value()), f, proof).value
    {
      var started := OpenFact(f);
      if started.Failure? {
        return started;
      }
      obligations := [NewObligation(pending[0].equiv)] + obligations;
      var run := RunTactics(proof, Value());
      if run.Failure? {
        return Failure(run.error);
      }
      var closed := ProofClose(run.value);
      if closed.Failure? {
        return Failure(closed.error);
      }
      SetValue(closed.value);
      obligations := obligations[1..];
      if obligations != [] {
        return CheckFail("Proof obligations remain.");
      }
      CloseFact();
      return Success(());
    }

    /** outAImportStmt: the module is recorded and its file queued once. */
    method Import(moduleIds: seq<string>, sep: char) returns (r: Outcome<()>)
      modifies this
      ensures r.Success? <==> ImportStep(old(Value()), moduleIds, sep).Success?
      ensures r.Success? ==> Value() == ImportStep(old(Value()), moduleIds, sep).value
    {
      var conv := new ModuleFilenameConverter();
      for i := 0 to |moduleIds|
        invariant conv.ids == moduleIds[..i]
        invariant Value() == old(Value())
      {
        assert moduleIds[..i + 1] == moduleIds[..i] + [moduleIds[i]];
        conv.AddIdentifier(moduleIds[i]);
      }
      assert moduleIds[..|moduleIds|] == moduleIds;
      var name := conv.GetModuleName();
      if name.Failure? {
        return Failure(name.error);
      }
      if name.value !in imported {
        imported := imported + {name.value};
        var path := conv.GetFilePath(sep);
        loads := loads + [path.value];
      }
      return Success(());
    }

    /** One declaration of the development. */
    method Declaration(d: Decl, sep: char) returns (r: Outcome<()>)
      requires TopLevel(Value())
      modifies this
      ensures r.Success? <==> RunDecl(d, old(Value()), sep).Success?
      ensures r.Success? ==> Value() == RunDecl(d, old(Value()), sep).value
    {
      match d
      case ConstDecl(p) =>
        var sc := Declarations.DeclareConst(scope, p);
        if sc.Failure? {
          return Failure(sc.error);
        }
        scope := sc.value;
        return Success(());
      case FunctionDecl(fd) =>
        var sc := Declarations.DeclareFunc(scope, fd);
        if sc.Failure? {
          return Failure(sc.error);
        }
        scope := sc.value;
        return Success(());
      case AxiomDecl(p) =>
        var sc := Declarations.ScanProp(p, scope);
        if sc.Failure? {
          return Failure(sc.error);
        }
        scope := sc.value;
        axioms := axioms + [p];
        return Success(());
      case TheoremDecl(f, proof) =>
        r := Theorem(f, proof);
      case AssumptionDecl(f) =>
        r := OpenFact(f);
        if r.Success? {
          CloseFact();
        }
      case ImportStmt(ids) =>
        r := Import(ids, sep);
    }

    /** The visit of a development, one declaration after the other; the first error
        aborts it. */
    method Development(ds: seq<Decl>, sep: char) returns (r: Outcome<()>)
      requires TopLevel(Value())
      modifies this
      ensures r.Success? <==> RunDecls(ds, old(Value()), sep).Success?
      ensures r.Success? ==> Value() == RunDecls(ds, old(Value()), sep).value
    {
      for i := 0 to |ds|
        invariant TopLevel(Value())
        invariant RunDecls(ds, old(Value()), sep) == RunDecls(ds[i..], Value(), sep)
      {
        assert ds[i..][1..] == ds[i + 1..];
        r := Declaration(ds[i], sep);
        if r.Failure? {
          return r;
        }
      }
      return Success(());
    }
  }
}
