/** Rewriter: rewrites every sub-expression of a proof obligation that matches the
    left-hand side of a proved fact into the fact's instantiated right-hand side,
    recording for each match the instantiated distance and the surrounding context. */
module Rewriter {
  import opened Wrappers
  import opened Syntax
  import opened SymbolTable
  import Unifier
  import Substituter

  /** A proved equivalence `left ~(distance) right` over the pattern variables `vars`;
      `inMethod` says whether matches inside method bodies are rewritten. */
  datatype Fact = Fact(left: Expr, vars: set<string>, right: Expr, distance: Bounds, inMethod: bool)

  /** One rewrite: the obligation with a hole at the rewritten place (absent for a
      rewrite of the whole obligation) and the distance it costs. */
  datatype Rewrite = Rewrite(context: Option<Expr>, distance: Bounds)

  /** The rewriter's own scopes, the method nesting depth, the rewrites so far and the
      replacement of the whole tree when the root matched. */
  datatype State = State(scopes: Scopes, methodDepth: nat, rewrites: seq<Rewrite>, top: Option<Expr>)

  /** The whole obligation, given what now stands at the place being visited. */
  type Plug = Expr -> Expr
  /** The same, given what now stands in a list of slots, parameters, methods or propositions. */
  type ListPlug = seq<Expr> -> Expr
  type ParamsPlug = seq<NewParam> -> Expr
  type MethodsPlug = seq<MethodDef> -> Expr
  type PropPlug = Prop -> Expr
  type PropsPlug = seq<Prop> -> Expr

  /** What a walk keeps: the scope depth and method depth come back to their entry
      values, and rewrites are only ever appended. */
  predicate Keeps(st: State, st': State)
  {
    |st'.scopes| == |st.scopes| && st'.methodDepth == st.methodDepth &&
    st.rewrites <= st'.rewrites
  }

  /** Rewrites only grow: a walk that ends with the rewrites it started with added none
      at any point in between. */
  lemma NothingBetween(a: seq<Rewrite>, b: seq<Rewrite>, c: seq<Rewrite>)
    requires a <= b && b <= c
    ensures c == a ==> b == a
  {
  }

  function Push(st: State, k: Kind): (r: State)
    ensures r.scopes == [FrameValue(k, map[])] + st.scopes
  {
    st.(scopes := [FrameValue(k, map[])] + st.scopes)
  }

  function Pop(st: State): (r: State)
    requires st.scopes != []
    ensures r.scopes == st.scopes[1..]
  {
    st.(scopes := st.scopes[1..])
  }

  /** addSymbol with no frame on the stack dereferences null. */
  function Declare(st: State, x: string): (r: Outcome<State>)
    ensures r.Success? <==> st.scopes != []
    ensures r.Success? ==> r.value == st.(scopes := AddValue(st.scopes, x, None))
  {
    if st.scopes == [] then NullPointer()
    else Success(st.(scopes := AddValue(st.scopes, x, None)))
  }

  function DeclareFormals(st: State, fs: seq<FormalParam>): (r: Outcome<State>)
    ensures r.Success? ==> Keeps(st, r.value) && r.value.rewrites == st.rewrites && r.value.top == st.top
    ensures fs != [] ==> (r.Success? <==> st.scopes != [])
    decreases fs
  {
    if fs == [] then Success(st)
    else
      var st1 :- Declare(st, fs[0].id);
      DeclareFormals(st1, fs[1..])
  }

  /** EnvContextReplacer: the context becomes the first parameter of every env term. */
  function WithContext(b: Bounds, c: Expr): (r: Bounds)
    ensures b.BEnv? <==> r.BEnv?
    ensures b.BEnv? ==> r.params == [c] + b.params
    ensures b.BLit? || b.BLookup? ==> r == b
  {
    match b
    case BEnv(ps) => BEnv([c] + ps)
    case BParen(x) => BParen(WithContext(x, c))
    case BFunc(n, args) => BFunc(n, WithContextArgs(args, c))
    case BSum(l, op, r) => BSum(WithContext(l, c), op, WithContext(r, c))
    case BProduct(l, op, r) => BProduct(WithContext(l, c), op, WithContext(r, c))
    case BExp(l, op, r) => BExp(WithContext(l, c), op, WithContext(r, c))
    case _ => b
  }

  function WithContextArgs(args: seq<Bounds>, c: Expr): (r: seq<Bounds>)
    ensures |r| == |args|
  {
    if args == [] then [] else [WithContext(args[0], c)] + WithContextArgs(args[1..], c)
  }

  /** The most general unifier of the fact's left side with e, the names bound in the
      rewriter's scopes being never pattern variables. */
  function Mgu(f: Fact, e: Expr, st: State): Outcome<Option<map<string, Term>>>
  {
    Unifier.UnifyFrom(f.vars, AllSymbols(st.scopes), [(At(f.left, ExprL), At(e, ExprL))])
  }

  /** The fact under a unifier: its right side and its distance, each substituted. */
  function Instance(f: Fact, mgu: map<string, Term>): Outcome<(Expr, Bounds)>
  {
    var right :- Substituter.SubstituteExpr(f.right, mgu);
    var dist :- Substituter.SubstituteBounds(f.distance, mgu);
    Success((right, dist))
  }

  /** outAExpr: the visited expression e (its children already rewritten) is unified
      with the fact's left side. A match is replaced by the fact's right side under the
      unifier and costs the fact's distance under the unifier; off the root, the
      rewrite's context is the obligation with a hole at the match, and every env term
      of the distance gets that context. A match at the root instead becomes the new
      top, with no context and the distance as it is. */
  function Match(f: Fact, e: Expr, ctx: Plug, isRoot: bool, st: State): (r: Outcome<(Expr, State)>)
    ensures r.Success? ==> Keeps(st, r.value.1)
    ensures !f.inMethod && st.methodDepth > 0 ==> r == Success((e, st))
    ensures (f.inMethod || st.methodDepth == 0) && Mgu(f, e, st).Success? && Mgu(f, e, st).value.None? ==>
      r == Success((e, st))
    ensures r.Success? && r.value.1.rewrites == st.rewrites ==> r.value == (e, st)
    ensures r.Success? && r.value.1.rewrites != st.rewrites ==>
      |r.value.1.rewrites| == |st.rewrites| + 1 &&
      (isRoot <==> r.value.1.rewrites[|st.rewrites|].context.None?) &&
      (isRoot ==> r.value.0 == e && r.value.1.top.Some?) &&
      (!isRoot ==> r.value.1.rewrites[|st.rewrites|].context == Some(ctx(Hole)) && r.value.1.top == st.top)
    ensures (f.inMethod || st.methodDepth == 0) && Mgu(f, e, st).Success? && Mgu(f, e, st).value.Some? ==>
      var inst := Instance(f, Mgu(f, e, st).value.value);
      (inst.Failure? ==> r.Failure?) &&
      (inst.Success? ==>
         r.Success? && r.value.1.rewrites[..|st.rewrites|] == st.rewrites &&
         |r.value.1.rewrites| == |st.rewrites| + 1 &&
         (isRoot ==>
            r.value.1.top == Some(inst.value.0) &&
            r.value.1.rewrites[|st.rewrites|] == Rewrite(None, inst.value.1)) &&
         (!isRoot ==>
            r.value.0 == inst.value.0 &&
            r.value.1.rewrites[|st.rewrites|] == Rewrite(Some(ctx(Hole)), WithContext(inst.value.1, ctx(Hole)))))
  {
    if !f.inMethod && st.methodDepth > 0 then Success((e, st))
    else
      var mgu :- Mgu(f, e, st);
      if mgu.None? then Success((e, st))
      else
        var inst :- Instance(f, mgu.value);
        var (right, dist) := inst;
        if isRoot then
          Success((e, st.(rewrites := st.rewrites + [Rewrite(None, dist)], top := Some(right))))
        else
          var c := ctx(Hole);
          Success((right, st.(rewrites := st.rewrites + [Rewrite(Some(c), WithContext(dist, c))])))
  }

  /** An expression slot (an AExpr node): its subtree is walked, then it is a match
      candidate. */
  function Slot(f: Fact, e: Expr, ctx: Plug, isRoot: bool, st: State): (r: Outcome<(Expr, State)>)
    ensures r.Success? ==> Keeps(st, r.value.1)
    ensures r.Success? && !isRoot ==> r.value.1.top == st.top
    ensures r.Success? && r.value.1.rewrites == st.rewrites ==> r.value.0 == e
    ensures !f.inMethod && st.methodDepth > 0 && r.Success? ==> r.value.1.rewrites == st.rewrites
    decreases e, 2
  {
    var w :- Walk(f, e, ctx, st);
    Match(f, w.0, ctx, isRoot, w.1)
  }

  function Walk(f: Fact, e: Expr, ctx: Plug, st: State): (r: Outcome<(Expr, State)>)
    ensures r.Success? ==> Keeps(st, r.value.1) && r.value.1.top == st.top
    ensures r.Success? && r.value.1.rewrites == st.rewrites ==> r.value.0 == e
    ensures !f.inMethod && st.methodDepth > 0 && r.Success? ==> r.value.1.rewrites == st.rewrites
    decreases e, 1
  {
    match e
    case Product(a, op, b) =>
      var a' :- Walk(f, a, y => ctx(Product(y, op, b)), st);
      var b' :- Walk(f, b, y => ctx(Product(a'.0, op, y)), a'.1);
      Success((Product(a'.0, op, b'.0), b'.1))
    case Sum(a, op, b) =>
      var a' :- Walk(f, a, y => ctx(Sum(y, op, b)), st);
      var b' :- Walk(f, b, y => ctx(Sum(a'.0, op, y)), a'.1);
      Success((Sum(a'.0, op, b'.0), b'.1))
    case RelOp(a, op, b) =>
      var a' :- Walk(f, a, y => ctx(RelOp(y, op, b)), st);
      var b' :- Walk(f, b, y => ctx(RelOp(a'.0, op, y)), a'.1);
      Success((RelOp(a'.0, op, b'.0), b'.1))
    case Not(x) =>
      var x' :- Walk(f, x, y => ctx(Not(y)), st);
      Success((Not(x'.0), x'.1))
    case Assign(t, v) =>
      var v' :- Walk(f, v, y => ctx(Assign(t, y)), st);
      var st1 :- Declare(v'.1, t);
      Success((Assign(t, v'.0), st1))
    case Seq(a, b) =>
      var a' :- Walk(f, a, y => ctx(Seq(y, b)), st);
      var b' :- Walk(f, b, y => ctx(Seq(a'.0, y)), a'.1);
      Success((Seq(a'.0, b'.0), b'.1))
    case LogicOp(a, op, b) =>
      var a' :- Walk(f, a, y => ctx(LogicOp(y, op, b)), st);
      var b' :- Walk(f, b, y => ctx(LogicOp(a'.0, op, y)), a'.1);
      Success((LogicOp(a'.0, op, b'.0), b'.1))
    case Ternary(c, a, b) =>
      var c' :- Walk(f, c, y => ctx(Ternary(y, a, b)), st);
      var a' :- Slot(f, a, y => ctx(Ternary(c'.0, y, b)), false, c'.1);
      var b' :- Slot(f, b, y => ctx(Ternary(c'.0, a'.0, y)), false, a'.1);
      Success((Ternary(c'.0, a'.0, b'.0), b'.1))
    case _ => WalkPrimary(f, e, ctx, st)
  }

  /** The primary-level constructors. */
  function WalkPrimary(f: Fact, e: Expr, ctx: Plug, st: State): (r: Outcome<(Expr, State)>)
    ensures r.Success? ==> Keeps(st, r.value.1) && r.value.1.top == st.top
    ensures r.Success? && r.value.1.rewrites == st.rewrites ==> r.value.0 == e
    ensures !f.inMethod && st.methodDepth > 0 && r.Success? ==> r.value.1.rewrites == st.rewrites
    decreases e, 0
  {
    match e
    case Func(n, args) =>
      assert [] + args == args;
      var a :- Slots(f, [], args, xs => ctx(Func(n, xs)), st);
      Success((Func(n, a.0), a.1))
    case Invoke(t, m, args, c) =>
      var t' :- Walk(f, t, x => ctx(Invoke(x, m, args, c)), st);
      assert [] + args == args;
      var a :- Slots(f, [], args, xs => ctx(Invoke(t'.0, m, xs, c)), t'.1);
      Success((Invoke(t'.0, m, a.0, c), a.1))
    case New(c, ps, ms) =>
      assert [] + ps == ps && [] + ms == ms;
      var st1 := Push(st, Mutable);
      var p :- Params(f, [], ps, xs => ctx(New(c, xs, ms)), st1);
      var m :- Methods(f, [], ms, xs => ctx(New(c, p.0, xs)), p.1);
      Success((New(c, p.0, m.0), Pop(m.1)))
    case Paren(lbl, x) =>
      var x' :- Slot(f, x, y => ctx(Paren(lbl, y)), false, st);
      Success((Paren(lbl, x'.0), x'.1))
    case Ref(x) =>
      var x' :- Slot(f, x, y => ctx(Ref(y)), false, st);
      Success((Ref(x'.0), x'.1))
    case ToBits(x) =>
      var x' :- Slot(f, x, y => ctx(ToBits(y)), false, st);
      Success((ToBits(x'.0), x'.1))
    case MapLookup(m, i) =>
      var m' :- Walk(f, m, y => ctx(MapLookup(y, i)), st);
      var i' :- Slot(f, i, y => ctx(MapLookup(m'.0, y)), false, m'.1);
      Success((MapLookup(m'.0, i'.0), i'.1))
    case MapUpdate(m, i, v) =>
      var m' :- Walk(f, m, y => ctx(MapUpdate(y, i, v)), st);
      var i' :- Slot(f, i, y => ctx(MapUpdate(m'.0, y, v)), false, m'.1);
      var v' :- Slot(f, v, y => ctx(MapUpdate(m'.0, i'.0, y)), false, i'.1);
      Success((MapUpdate(m'.0, i'.0, v'.0), v'.1))
    case Assert(p) =>
      var p' :- WalkProp(f, p, q => ctx(Assert(q)), st);
      Success((Assert(p'.0), p'.1))
    case Admit(p) =>
      var p' :- WalkProp(f, p, q => ctx(Admit(q)), st);
      Success((Admit(p'.0), p'.1))
    case _ => Success((e, st))
  }

  /** A list of expression slots; done holds the already rewritten ones. */
  function Slots(f: Fact, done: seq<Expr>, rest: seq<Expr>, plug: ListPlug, st: State): (r: Outcome<(seq<Expr>, State)>)
    ensures r.Success? ==> Keeps(st, r.value.1) && r.value.1.top == st.top && |r.value.0| == |done| + |rest|
    ensures r.Success? && r.value.1.rewrites == st.rewrites ==> r.value.0 == done + rest
    ensures !f.inMethod && st.methodDepth > 0 && r.Success? ==> r.value.1.rewrites == st.rewrites
    decreases rest
  {
    if rest == [] then Success((done, st))
    else
      var x :- Slot(f, rest[0], y => plug(done + [y] + rest[1..]), false, st);
      var w := Slots(f, done + [x.0], rest[1..], plug, x.1);
      if w.Success? then
        NothingBetween(st.rewrites, x.1.rewrites, w.value.1.rewrites);
        assert x.0 == rest[0] ==> done + [x.0] + rest[1..] == done + rest;
        w
      else w
  }

  /** The constructor parameters of a new expression; each field is declared after its
      own initialiser. */
  function Params(f: Fact, done: seq<NewParam>, rest: seq<NewParam>, plug: ParamsPlug, st: State): (r: Outcome<(seq<NewParam>, State)>)
    requires st.scopes != []
    ensures r.Success? ==> Keeps(st, r.value.1) && r.value.1.top == st.top
    ensures r.Success? && r.value.1.rewrites == st.rewrites ==> r.value.0 == done + rest
    ensures !f.inMethod && st.methodDepth > 0 && r.Success? ==> r.value.1.rewrites == st.rewrites
    decreases rest
  {
    if rest == [] then Success((done, st))
    else
      var id := rest[0].id;
      var x :- Slot(f, rest[0].value, y => plug(done + [NewParam(id, y)] + rest[1..]), false, st);
      var st1 :- Declare(x.1, id);
      Params(f, done + [NewParam(id, x.0)], rest[1..], plug, st1)
  }

  /** The methods of a new expression: each is one level deeper, in a constant frame
      holding its formals. */
  function Methods(f: Fact, done: seq<MethodDef>, rest: seq<MethodDef>, plug: MethodsPlug, st: State): (r: Outcome<(seq<MethodDef>, State)>)
    ensures r.Success? ==> Keeps(st, r.value.1) && r.value.1.top == st.top
    ensures r.Success? && r.value.1.rewrites == st.rewrites ==> r.value.0 == done + rest
    ensures !f.inMethod && r.Success? ==> r.value.1.rewrites == st.rewrites
    decreases rest
  {
    if rest == [] then Success((done, st))
    else
      var m := rest[0];
      var st1 := Push(st.(methodDepth := st.methodDepth + 1), Constant);
      var st2 :- DeclareFormals(st1, m.formals);
      var body :- if m.body.Some? then
                    var b :- Slot(f, m.body.value, y => plug(done + [MethodDef(m.name, m.formals, Some(y))] + rest[1..]), false, st2);
                    Success((Some(b.0), b.1))
                  else Success((None, st2));
      var st3 := Pop(body.1).(methodDepth := st.methodDepth);
      Methods(f, done + [MethodDef(m.name, m.formals, body.0)], rest[1..], plug, st3)
  }

  /** Propositions: env parameters are expression slots; quantified formals are
      declared before the body. */
  function WalkProp(f: Fact, p: Prop, pctx: PropPlug, st: State): (r: Outcome<(Prop, State)>)
    ensures r.Success? ==> Keeps(st, r.value.1) && r.value.1.top == st.top
    ensures r.Success? && r.value.1.rewrites == st.rewrites ==> r.value.0 == p
    ensures !f.inMethod && st.methodDepth > 0 && r.Success? ==> r.value.1.rewrites == st.rewrites
    decreases p, 1
  {
    if p.PEnv? then
      assert [] + p.params == p.params;
      var a :- Slots(f, [], p.params, xs => pctx(PEnv(xs)), st);
      Success((PEnv(a.0), a.1))
    else
      var st1 :- if p.Quantified? then DeclareFormals(st, p.formals) else Success(st);
      var cs :- SubProps(f, p, [], PropChildren(p), cs => pctx(WithPropChildren(p, cs)), st1);
      WithOwnPropChildren(p);
      assert [] + PropChildren(p) == PropChildren(p);
      Success((WithPropChildren(p, cs.0), cs.1))
  }

  function SubProps(f: Fact, parent: Prop, done: seq<Prop>, rest: seq<Prop>, plug: PropsPlug, st: State): (r: Outcome<(seq<Prop>, State)>)
    requires forall i :: 0 <= i < |rest| ==> rest[i] < parent
    ensures r.Success? ==> Keeps(st, r.value.1) && r.value.1.top == st.top && |r.value.0| == |done| + |rest|
    ensures r.Success? && r.value.1.rewrites == st.rewrites ==> r.value.0 == done + rest
    ensures !f.inMethod && st.methodDepth > 0 && r.Success? ==> r.value.1.rewrites == st.rewrites
    decreases parent, 0, |rest|
  {
    if rest == [] then Success((done, st))
    else
      var q :- WalkProp(f, rest[0], y => plug(done + [y] + rest[1..]), st);
      var w := SubProps(f, parent, done + [q.0], rest[1..], plug, q.1);
      if w.Success? then
        NothingBetween(st.rewrites, q.1.rewrites, w.value.1.rewrites);
        assert q.0 == rest[0] ==> done + [q.0] + rest[1..] == done + rest;
        w
      else w
  }

  /** The plug of the root: the obligation is what stands there. */
  function Whole(x: Expr): Expr
  {
    x
  }

  /** The rewriter as constructed: no frame, outside every method, nothing rewritten. */
  const Initial := State([], 0, [], None)

  /** Rewriter applied to a whole obligation: the rewritten obligation and the rewrites.
      A rewrite of the root replaces the whole obligation. */
  function RewriteAll(f: Fact, e: Expr): (r: Outcome<(Expr, seq<Rewrite>)>)
    ensures r.Success? && r.value.1 == [] ==> r.value.0 == e
  {
    var w :- Slot(f, e, Whole, true, Initial);
    Success((if w.1.top.Some? then w.1.top.value else w.0, w.1.rewrites))
  }

  /** The root is the last match candidate: once the walk below has rewritten what it
      rewrites, a root that matches the fact's left side is replaced, as a whole, by the
      fact's right side under the unifier, and its rewrite, recorded last, has no
      context and the fact's distance under the unifier; a root that does not match is
      left as the walk below left it. */
  lemma RewriteRoot(f: Fact, e: Expr)
    requires Walk(f, e, Whole, Initial).Success?
    ensures var w := Walk(f, e, Whole, Initial).value;
      var m := Mgu(f, w.0, w.1);
      (m.Success? && m.value.None? ==> RewriteAll(f, e) == Success((w.0, w.1.rewrites))) &&
      (m.Success? && m.value.Some? && Instance(f, m.value.value).Success? ==>
         RewriteAll(f, e) ==
           Success((Instance(f, m.value.value).value.0, w.1.rewrites + [Rewrite(None, Instance(f, m.value.value).value.1)])))
  {
    var w := Walk(f, e, Whole, Initial).value;
    assert w.1.methodDepth == 0 && w.1.top.None?;
    var m := Mgu(f, w.0, w.1);
    if m.Success? && m.value.Some? && Instance(f, m.value.value).Success? {
      var mr := Match(f, w.0, Whole, true, w.1).value;
      assert mr.1.rewrites == w.1.rewrites + [Rewrite(None, Instance(f, m.value.value).value.1)];
    }
  }

  /** A variable or a literal has no sub-expression: rewriting it gives the fact's right
      side under the unifier with one uncontexted rewrite when it matches the left side,
      and leaves it alone with no rewrite when it does not. */
  lemma RewriteLeaf(f: Fact, e: Expr)
    requires e.Lookup? || e.Literal?
    ensures var m := Mgu(f, e, Initial);
      (m.Success? && m.value.None? ==> RewriteAll(f, e) == Success((e, []))) &&
      (m.Success? && m.value.Some? && Instance(f, m.value.value).Success? ==>
         RewriteAll(f, e) == Success((Instance(f, m.value.value).value.0, [Rewrite(None, Instance(f, m.value.value).value.1)])))
    ensures Mgu(f, e, Initial).Failure? ==> RewriteAll(f, e).Failure?
  {
    assert Walk(f, e, Whole, Initial) == Success((e, Initial));
    RewriteRoot(f, e);
  }
}
