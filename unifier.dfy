/** Unifier: first-order matching of a pattern term against a target term by a worklist
    of pairs, transformed by Delete and Decompose steps until the worklist is in solved
    form (every pattern side one pattern variable, no variable twice). */
module Unifier {
  import opened Wrappers
  import opened Syntax
  import Util

  type Pair = (Term, Term)

  // ---------------------------------------------------------------------------
  // The termination measure: every decomposition replaces a pair by pairs of smaller
  // total weight, and Delete removes a pair.
  // ---------------------------------------------------------------------------

  /** The size of the parts of a term the decomposer descends into. */
  function Size(e: Expr): (n: nat)
    ensures n >= 1
  {
    match e
    case Func(_, args) => 1 + SizeArgs(args)
    case Paren(_, x) => 2 + Size(x)
    case Ref(x) => 2 + Size(x)
    case MapLookup(m, i) => 3 + Size(m) + Size(i)
    case RelOp(a, _, b) => 3 + Size(a) + Size(b)
    case Seq(a, b) => 3 + Size(a) + Size(b)
    case Assign(_, v) => 2 + Size(v)
    case _ => 1
  }

  function SizeArgs(args: seq<Expr>): nat
  {
    if args == [] then 0 else 1 + Size(args[0]) + SizeArgs(args[1..])
  }

  function Weight(t: Term): nat
  {
    match t
    case At(e, l) => 10 * Size(e) + 8 - Rank(l)
    case FuncNode(n, args) => 10 * Size(Func(n, args))
    case AssignValue(v) => 10 * Size(v) + 8
    case _ => 0
  }

  function PairsWeight(ps: seq<Pair>): nat
  {
    if ps == [] then 0 else Weight(ps[0].0) + 1 + PairsWeight(ps[1..])
  }

  lemma {:induction false} PairsWeightAppend(a: seq<Pair>, b: seq<Pair>)
    ensures PairsWeight(a + b) == PairsWeight(a) + PairsWeight(b)
  {
    if a == [] {
      assert a + b == b;
    } else {
      assert (a + b)[0] == a[0];
      assert (a + b)[1..] == a[1..] + b;
      PairsWeightAppend(a[1..], b);
    }
  }

  /** Removing the pair at i and appending children of weight at most its own weight
      lowers the total. */
  lemma ReplaceLowersWeight(ps: seq<Pair>, i: nat, children: seq<Pair>)
    requires i < |ps| && PairsWeight(children) <= Weight(ps[i].0)
    ensures PairsWeight(ps[..i] + ps[i + 1..] + children) < PairsWeight(ps)
  {
    var pre, one, post := ps[..i], [ps[i]], ps[i + 1..];
    assert ps == pre + (one + post);
    PairsWeightAppend(pre, one + post);
    PairsWeightAppend(one, post);
    PairsWeightAppend(pre, post);
    PairsWeightAppend(pre + post, children);
    assert PairsWeight(one) == Weight(ps[i].0) + 1 by {
      assert one[1..] == [];
    }
  }

  // ---------------------------------------------------------------------------
  // leftRightEquals and Delete
  // ---------------------------------------------------------------------------

  /** leftRightEquals: both null, or equal text (null matching anything) and no
      identifier of the left side in either variable set. The identifiers of the left
      side are collected for both checks. A null left side with a non-null right side
      is dereferenced and raises. */
  function LeftRightEquals(lv: set<string>, rv: set<string>, l: Term, r: Term): (res: Outcome<bool>)
    ensures res.Failure? <==> l.Null? && !r.Null?
    ensures res == Success(true) <==>
      (l.Null? && r.Null?) ||
      (!l.Null? && Util.Equals(RenderTerm(l), RenderTerm(r)) &&
       TermIdentifiers(l) * lv == {} && TermIdentifiers(l) * rv == {})
  {
    if l.Null? && r.Null? then Success(true)
    else if !Util.Equals(RenderTerm(l), RenderTerm(r)) then Success(false)
    else if l.Null? then NullPointer()
    else Success(TermIdentifiers(l) * lv == {} && TermIdentifiers(l) * rv == {})
  }

  /** Pair i textually duplicates another pending pair. */
  predicate Duplicated(ps: seq<Pair>, i: nat)
    requires i < |ps|
  {
    exists j :: 0 <= j < |ps| && j != i &&
      Util.Equals(RenderTerm(ps[i].0), RenderTerm(ps[j].0)) &&
      Util.Equals(RenderTerm(ps[i].1), RenderTerm(ps[j].1))
  }

  /** The index Delete removes, scanning from i: the first pair that is trivially
      equal or a duplicate. */
  function DeleteIndex(lv: set<string>, rv: set<string>, ps: seq<Pair>, i: nat): (res: Outcome<Option<nat>>)
    requires i <= |ps|
    ensures res.Success? && res.value.Some? ==> i <= res.value.value < |ps|
    decreases |ps| - i
  {
    if i == |ps| then Success(None)
    else
      var eq :- LeftRightEquals(lv, rv, ps[i].0, ps[i].1);
      if eq || Duplicated(ps, i) then Success(Some(i))
      else DeleteIndex(lv, rv, ps, i + 1)
  }

  /** The index found is the first deletable one: no pair before it qualified. */
  lemma {:induction false} DeleteIndexFirst(lv: set<string>, rv: set<string>, ps: seq<Pair>, i: nat)
    requires i <= |ps| && DeleteIndex(lv, rv, ps, i).Success?
    ensures DeleteIndex(lv, rv, ps, i).value.Some? ==>
      var k := DeleteIndex(lv, rv, ps, i).value.value;
      (LeftRightEquals(lv, rv, ps[k].0, ps[k].1) == Success(true) || Duplicated(ps, k)) &&
      forall j :: i <= j < k ==> LeftRightEquals(lv, rv, ps[j].0, ps[j].1) == Success(false) && !Duplicated(ps, j)
    ensures DeleteIndex(lv, rv, ps, i).value.None? ==>
      forall j :: i <= j < |ps| ==> LeftRightEquals(lv, rv, ps[j].0, ps[j].1) == Success(false) && !Duplicated(ps, j)
    decreases |ps| - i
  {
    if i < |ps| {
      var eq := LeftRightEquals(lv, rv, ps[i].0, ps[i].1);
      if !(eq.value || Duplicated(ps, i)) {
        DeleteIndexFirst(lv, rv, ps, i + 1);
      }
    }
  }

  /** One Delete step: the worklist without the removed pair, or None when no pair is
      deletable. */
  function DeleteStep(lv: set<string>, rv: set<string>, ps: seq<Pair>): (res: Outcome<Option<seq<Pair>>>)
    ensures res.Success? && res.value.Some? ==>
      |res.value.value| == |ps| - 1 && PairsWeight(res.value.value) < PairsWeight(ps)
  {
    var k :- DeleteIndex(lv, rv, ps, 0);
    if k.None? then Success(None)
    else
      ReplaceLowersWeight(ps, k.value, []);
      assert ps[..k.value] + ps[k.value + 1..] + [] == ps[..k.value] + ps[k.value + 1..];
      Success(Some(ps[..k.value] + ps[k.value + 1..]))
  }

  // ---------------------------------------------------------------------------
  // Decomposer and Decompose
  // ---------------------------------------------------------------------------

  function ArgPairs(a: seq<Expr>, b: seq<Expr>): (ps: seq<Pair>)
    requires |a| == |b|
    ensures |ps| == |a|
    ensures forall i :: 0 <= i < |a| ==> ps[i] == (At(a[i], ExprL), At(b[i], ExprL))
  {
    if a == [] then [] else [(At(a[0], ExprL), At(b[0], ExprL))] + ArgPairs(a[1..], b[1..])
  }

  lemma {:induction false} ArgPairsWeight(a: seq<Expr>, b: seq<Expr>)
    requires |a| == |b|
    ensures PairsWeight(ArgPairs(a, b)) <= 10 * SizeArgs(a)
  {
    if a != [] {
      ArgPairsWeight(a[1..], b[1..]);
      assert ArgPairs(a, b)[1..] == ArgPairs(a[1..], b[1..]);
    }
  }

  /** The decomposer of the left side l applied with the right side r: the child pairs
      when r is a node of the same class (and, for a comparison or a call, the same
      operator or function name); None when it is not; an error for a call with a
      different number of arguments, for a node class it does not handle, and for a
      null left side. */
  function Decompose(l: Term, r: Term): (res: Outcome<Option<seq<Pair>>>)
  {
    match l
    case Null => NullPointer()
    case Ident(_) => Success(None)
    case FuncNode(n, args) =>
      if !r.FuncNode? || r.name != n then Success(None)
      else if |args| != |r.args| then
        InternalFail("Argument length mismatch for function " + n + " ")
      else Success(Some(ArgPairs(args, r.args)))
    case AssignValue(v) =>
      if !r.AssignValue? then Success(None)
      else Success(Some([(At(v, BoolL), At(r.value, BoolL))]))
    case LabelNode(_) => InternalFail("Decomposition on " + ClassName(l) + " not implemented.")
    case At(e, lev) =>
      if IsWrapper(e, lev) then
        if r.At? && IsWrapper(r.e, r.level) && r.level == lev then
          Success(Some([(At(e, Next(lev)), At(r.e, Next(lev)))]))
        else Success(None)
      else DecomposeNode(e, lev, r)
  }

  /** The decomposer on a node that is not a wrapper. */
  function DecomposeNode(e: Expr, lev: Level, r: Term): Outcome<Option<seq<Pair>>>
    requires !IsWrapper(e, lev)
  {
    var other := if r.At? && !IsWrapper(r.e, r.level) then Some(r.e) else None;
    match e
    case Paren(lbl, x) =>
      if other.None? || !other.value.Paren? then Success(None)
      else Success(Some([(At(x, ExprL), At(other.value.inner, ExprL)),
                         (LabelTerm(lbl), LabelTerm(other.value.exprLabel))]))
    case RelOp(a, op, b) =>
      if other.None? || !other.value.RelOp? || other.value.op != op then Success(None)
      else Success(Some([(At(a, ArithL), At(other.value.left, ArithL)), (At(b, BoolL), At(other.value.right, BoolL))]))
    case Lookup(x) =>
      if other.None? || !other.value.Lookup? then Success(None)
      else Success(Some([(Ident(x), Ident(other.value.id))]))
    case Ref(x) =>
      if other.None? || !other.value.Ref? then Success(None)
      else Success(Some([(At(x, ExprL), At(other.value.inner, ExprL))]))
    case Func(n, args) =>
      if other.None? || !other.value.Func? then Success(None)
      else Success(Some([(FuncNode(n, args), FuncNode(other.value.name, other.value.args))]))
    case Seq(a, b) =>
      if other.None? || !other.value.Seq? then Success(None)
      else Success(Some([(At(a, AssignL), At(other.value.left, AssignL)), (At(b, LogicL), At(other.value.right, LogicL))]))
    case Assign(t, v) =>
      if other.None? || !other.value.Assign? then Success(None)
      else Success(Some([(Ident(t), Ident(other.value.variable)), (AssignValue(v), AssignValue(other.value.value))]))
    case MapLookup(m, i) =>
      if other.None? || !other.value.MapLookup? then Success(None)
      else Success(Some([(At(m, PrimaryL), At(other.value.mapExpr, PrimaryL)), (At(i, ExprL), At(other.value.index, ExprL))]))
    case _ => InternalFail("Decomposition on " + ClassName(At(e, lev)) + " not implemented.")
  }

  lemma PairsWeightTwo(p: Pair, q: Pair)
    ensures PairsWeight([p, q]) == Weight(p.0) + Weight(q.0) + 2
  {
    assert [p, q][1..] == [q];
    assert [q][1..] == [];
    assert PairsWeight([q]) == Weight(q.0) + 1 + PairsWeight([]);
    assert PairsWeight([p, q]) == Weight(p.0) + 1 + PairsWeight([q]);
  }

  /** The child pairs weigh less than the pair they replace. */
  lemma DecomposeWeight(l: Term, r: Term)
    requires Decompose(l, r).Success? && Decompose(l, r).value.Some?
    ensures PairsWeight(Decompose(l, r).value.value) <= Weight(l)
  {
    var c := Decompose(l, r).value.value;
    match l
    case FuncNode(n, args) => ArgPairsWeight(args, r.args);
    case AssignValue(v) =>
    case At(e, lev) =>
      if !IsWrapper(e, lev) {
        assert |c| <= 2;
        if |c| == 2 {
          assert c == [c[0], c[1]];
          PairsWeightTwo(c[0], c[1]);
          if e.Paren? { assert Weight(c[1].0) == 0; }
        }
      }
  }

  /** Decomposition pairs up only nodes of the same class, and comparisons only with the
      same operator and calls only of the same function. */
  lemma DecomposeSameShape(l: Term, r: Term)
    requires Decompose(l, r).Success? && Decompose(l, r).value.Some?
    ensures l.At? ==> r.At? && NodeName(l.e, l.level) == NodeName(r.e, r.level)
    ensures l.At? && !IsWrapper(l.e, l.level) && l.e.RelOp? ==> r.e.RelOp? && r.e.op == l.e.op
    ensures l.FuncNode? ==> r.FuncNode? && r.name == l.name && |r.args| == |l.args|
    ensures !l.Ident? && !l.Null? && !l.LabelNode?
  {
    if l.At? && !IsWrapper(l.e, l.level) && l.e.RelOp? {
      assert NodeName(r.e, r.level) == "ARelOpBoolExpr";
      NodeNameRelOp(r.e, r.level);
    }
  }

  lemma NodeNameRelOp(e: Expr, l: Level)
    requires NodeName(e, l) == "ARelOpBoolExpr"
    ensures !IsWrapper(e, l) && e.RelOp?
  {
  }

  /** Two calls of one function with different numbers of arguments raise, as do the
      node classes the decomposer does not handle. */
  lemma DecomposeRaises(n: string, a: seq<Expr>, b: seq<Expr>, e: Expr, lev: Level, r: Term)
    ensures |a| != |b| ==>
      Decompose(FuncNode(n, a), FuncNode(n, b)) == Failure(Internal("Argument length mismatch for function " + n + " "))
    ensures !IsWrapper(e, lev) && (e.Literal? || e.Sum? || e.Product? || e.Invoke? || e.New? || e.Ternary? || e.LogicOp?) ==>
      Decompose(At(e, lev), r).Failure?
  {
  }

  /** The index Decompose acts on, scanning from i, with its child pairs. */
  function DecomposeIndex(ps: seq<Pair>, i: nat): (res: Outcome<Option<(nat, seq<Pair>)>>)
    requires i <= |ps|
    ensures res.Success? && res.value.Some? ==>
      i <= res.value.value.0 < |ps| &&
      Decompose(ps[res.value.value.0].0, ps[res.value.value.0].1) == Success(Some(res.value.value.1)) &&
      forall j :: i <= j < res.value.value.0 ==> Decompose(ps[j].0, ps[j].1) == Success(None)
    ensures res.Success? && res.value.None? ==>
      forall j :: i <= j < |ps| ==> Decompose(ps[j].0, ps[j].1) == Success(None)
    decreases |ps| - i
  {
    if i == |ps| then Success(None)
    else
      var d :- Decompose(ps[i].0, ps[i].1);
      if d.Some? then Success(Some((i, d.value)))
      else DecomposeIndex(ps, i + 1)
  }

  /** One Decompose step: the first decomposable pair is removed and its children are
      appended at the end. */
  function DecomposeStep(ps: seq<Pair>): (res: Outcome<Option<seq<Pair>>>)
    ensures res.Success? && res.value.Some? ==> PairsWeight(res.value.value) < PairsWeight(ps)
  {
    var found :- DecomposeIndex(ps, 0);
    if found.None? then Success(None)
    else
      var (k, children) := found.value;
      DecomposeWeight(ps[k].0, ps[k].1);
      ReplaceLowersWeight(ps, k, children);
      Success(Some(ps[..k] + ps[k + 1..] + children))
  }

  /** transformOnce: Delete, and Decompose only when Delete does not apply. */
  function TransformStep(lv: set<string>, rv: set<string>, ps: seq<Pair>): (res: Outcome<Option<seq<Pair>>>)
    ensures res.Success? && res.value.Some? ==> PairsWeight(res.value.value) < PairsWeight(ps)
  {
    var d :- DeleteStep(lv, rv, ps);
    if d.Some? then Success(d) else DecomposeStep(ps)
  }

  // ---------------------------------------------------------------------------
  // Solved form
  // ---------------------------------------------------------------------------

  /** getIdentifier: an identifier token, or a lookup seen at the primary, product or
      sum level; null for anything else. */
  function GetIdentifier(t: Term): (r: Option<string>)
    ensures r.Some? <==> t.Ident? || (t.At? && t.e.Lookup? && t.level in {SumL, ProductL, PrimaryL})
  {
    match t
    case Ident(x) => Some(x)
    case At(e, l) => if e.Lookup? && l in {SumL, ProductL, PrimaryL} then Some(e.id) else None
    case _ => None
  }

  /** getSolvedForm over the first |ps| pairs. */
  function SolvedForm(lv: set<string>, ps: seq<Pair>): Option<map<string, Term>>
    decreases |ps|
  {
    if ps == [] then Some(map[])
    else
      var n := |ps| - 1;
      match SolvedForm(lv, ps[..n])
      case None => None
      case Some(m) =>
        var id := GetIdentifier(ps[n].0);
        if id.None? || id.value !in lv || id.value in m then None
        else Some(m[id.value := ps[n].1])
  }

  /** The worklist is solved iff every left side is a pattern variable and no variable
      occurs twice; the solution maps each of them to its right side and to nothing
      else. */
  lemma {:induction false} SolvedFormIff(lv: set<string>, ps: seq<Pair>)
    ensures SolvedForm(lv, ps).Some? <==>
      (forall i :: 0 <= i < |ps| ==> GetIdentifier(ps[i].0).Some? && GetIdentifier(ps[i].0).value in lv) &&
      (forall i, j :: 0 <= i < j < |ps| ==> GetIdentifier(ps[i].0) != GetIdentifier(ps[j].0))
    ensures SolvedForm(lv, ps).Some? ==>
      var m := SolvedForm(lv, ps).value;
      m.Keys <= lv &&
      (forall i :: 0 <= i < |ps| ==> GetIdentifier(ps[i].0).value in m && m[GetIdentifier(ps[i].0).value] == ps[i].1) &&
      (forall x :: x in m ==> exists i :: 0 <= i < |ps| && GetIdentifier(ps[i].0) == Some(x))
    decreases |ps|
  {
    if ps != [] {
      var n := |ps| - 1;
      var pre := ps[..n];
      SolvedFormIff(lv, pre);
      assert forall i :: 0 <= i < n ==> ps[i] == pre[i];
      match SolvedForm(lv, pre)
      case None =>
      case Some(m) =>
        var id := GetIdentifier(ps[n].0);
        if id.Some? && id.value in m {
          var i :| 0 <= i < |pre| && GetIdentifier(pre[i].0) == Some(id.value);
          assert GetIdentifier(ps[i].0) == GetIdentifier(ps[n].0);
        }
        if id.Some? && id.value !in m && id.value in lv {
          forall i | 0 <= i < n ensures GetIdentifier(ps[i].0) != GetIdentifier(ps[n].0) {
            assert GetIdentifier(pre[i].0).value in m;
          }
        }
    }
  }

  lemma {:induction false} SolvedFormPrefix(lv: set<string>, ps: seq<Pair>, k: nat)
    requires k <= |ps| && SolvedForm(lv, ps[..k]).None?
    ensures SolvedForm(lv, ps).None?
    decreases |ps| - k
  {
    if k < |ps| {
      assert ps[..k + 1][..k] == ps[..k];
      SolvedFormPrefix(lv, ps, k + 1);
    } else {
      assert ps[..k] == ps;
    }
  }

  // ---------------------------------------------------------------------------
  // unify
  // ---------------------------------------------------------------------------

  /** unify from a worklist: the solved form as soon as there is one, null when neither
      transform applies, an error when a transform raises. */
  function UnifyFrom(lv: set<string>, rv: set<string>, ps: seq<Pair>): Outcome<Option<map<string, Term>>>
    decreases PairsWeight(ps)
  {
    match SolvedForm(lv, ps)
    case Some(m) => Success(Some(m))
    case None =>
      var step :- TransformStep(lv, rv, ps);
      if step.None? then Success(None) else UnifyFrom(lv, rv, step.value)
  }

  /** Every key of a returned substitution is a pattern variable. */
  lemma {:induction false} UnifyKeysArePatternVars(lv: set<string>, rv: set<string>, ps: seq<Pair>)
    requires UnifyFrom(lv, rv, ps).Success? && UnifyFrom(lv, rv, ps).value.Some?
    ensures UnifyFrom(lv, rv, ps).value.value.Keys <= lv
    decreases PairsWeight(ps)
  {
    if SolvedForm(lv, ps).Some? {
      SolvedFormIff(lv, ps);
    } else {
      var step := TransformStep(lv, rv, ps);
      UnifyKeysArePatternVars(lv, rv, step.value.value);
    }
  }

  /** A term without pattern or target variables unifies with an identical term, giving
      the empty substitution. */
  lemma UnifyIdentical(lv: set<string>, rv: set<string>, t: Term)
    requires !t.Null? && TermIdentifiers(t) * lv == {} && TermIdentifiers(t) * rv == {}
    ensures UnifyFrom(lv, rv, [(t, t)]) == Success(Some(map[]))
  {
    var ps := [(t, t)];
    assert ps[..0] == [];
    assert SolvedForm(lv, []) == Some(map[]);
    var gid := GetIdentifier(t);
    if gid.Some? {
      assert gid.value in TermIdentifiers(t);
      assert gid.value !in lv by {
        assert gid.value in lv <==> gid.value in TermIdentifiers(t) * lv;
      }
    }
    assert SolvedForm(lv, ps).None?;
    assert LeftRightEquals(lv, rv, t, t) == Success(true);
    assert DeleteIndex(lv, rv, ps, 0) == Success(Some(0));
    assert TransformStep(lv, rv, ps) == Success(Some([]));
  }

  /** A pattern that is a single pattern variable (a lookup at the sum level or below)
      matches any target at once. */
  lemma UnifyVariable(lv: set<string>, rv: set<string>, x: string, l: Level, target: Term)
    requires x in lv && l in {SumL, ProductL, PrimaryL}
    ensures UnifyFrom(lv, rv, [(At(Lookup(x), l), target)]) == Success(Some(map[x := target]))
  {
    var ps := [(At(Lookup(x), l), target)];
    assert ps[..0] == [];
    assert SolvedForm(lv, []) == Some(map[]);
    assert GetIdentifier(ps[0].0) == Some(x);
    assert SolvedForm(lv, ps) == Some(map[x := target]);
  }

  /** A pattern that is a lookup of a pattern variable seen at the expression level is
      not solved until its wrappers are decomposed against a target of the same shape;
      against a target of another shape no transform applies. */
  lemma UnifyVariableAtExprLevel(lv: set<string>, rv: set<string>, x: string)
    requires x in lv
    ensures UnifyFrom(lv, rv, [(At(Lookup(x), ExprL), At(Sum(Lookup(x), "+", Literal(Numeric("1"))), SumL))]) == Success(None)
  {
    var t := At(Sum(Lookup(x), "+", Literal(Numeric("1"))), SumL);
    var ps := [(At(Lookup(x), ExprL), t)];
    assert ps[..0] == [];
    assert SolvedForm(lv, []) == Some(map[]);
    assert GetIdentifier(ps[0].0) == None;
    assert x in TermIdentifiers(At(Lookup(x), ExprL));
    assert LeftRightEquals(lv, rv, ps[0].0, ps[0].1) == Success(false);
    assert DeleteIndex(lv, rv, ps, 1) == Success(None);
    assert DeleteIndex(lv, rv, ps, 0) == Success(None);
    assert DecomposeIndex(ps, 1) == Success(None);
    assert NodeName(t.e, t.level) == "ASumSumExpr";
    assert Decompose(ps[0].0, ps[0].1) == Success(None);
  }

  // ---------------------------------------------------------------------------
  // The unifier object
  // ---------------------------------------------------------------------------

  function Changed(s: Outcome<Option<seq<Pair>>>): Outcome<bool>
  {
    match s
    case Failure(err) => Failure(err)
    case Success(o) => Success(o.Some?)
  }

  function After(s: Outcome<Option<seq<Pair>>>, ps: seq<Pair>): seq<Pair>
  {
    if s.Success? && s.value.Some? then s.value.value else ps
  }

  class Unifier {
    const leftVars: set<string>
    const rightVars: set<string>
    var pairs: seq<Pair>

    constructor (left: Term, leftVars: set<string>, right: Term, rightVars: set<string>)
      ensures this.leftVars == leftVars && this.rightVars == rightVars && pairs == [(left, right)]
    {
      this.leftVars := leftVars;
      this.rightVars := rightVars;
      pairs := [(left, right)];
    }

    method Duplicate(i: nat) returns (dup: bool)
      requires i < |pairs|
      ensures dup == Duplicated(pairs, i)
    {
      var j := 0;
      while j < |pairs|
        invariant 0 <= j <= |pairs|
        invariant forall k :: 0 <= k < j && k != i ==>
          !(Util.Equals(RenderTerm(pairs[i].0), RenderTerm(pairs[k].0)) &&
            Util.Equals(RenderTerm(pairs[i].1), RenderTerm(pairs[k].1)))
      {
        if i != j && Util.Equals(RenderTerm(pairs[i].0), RenderTerm(pairs[j].0)) &&
           Util.Equals(RenderTerm(pairs[i].1), RenderTerm(pairs[j].1)) {
          return true;
        }
        j := j + 1;
      }
      return false;
    }

    /** The Delete transform. */
    method Delete() returns (r: Outcome<bool>)
      modifies this
      ensures r == Changed(DeleteStep(leftVars, rightVars, old(pairs)))
      ensures pairs == After(DeleteStep(leftVars, rightVars, old(pairs)), old(pairs))
    {
      var i := 0;
      while i < |pairs|
        invariant 0 <= i <= |pairs| && pairs == old(pairs)
        invariant DeleteIndex(leftVars, rightVars, pairs, 0) == DeleteIndex(leftVars, rightVars, pairs, i)
      {
        var eq := LeftRightEquals(leftVars, rightVars, pairs[i].0, pairs[i].1);
        if eq.Failure? {
          return Failure(eq.error);
        }
        if eq.value {
          pairs := pairs[..i] + pairs[i + 1..];
          return Success(true);
        }
        var dup := Duplicate(i);
        if dup {
          pairs := pairs[..i] + pairs[i + 1..];
          return Success(true);
        }
        i := i + 1;
      }
      return Success(false);
    }

    /** The Decompose transform. */
    method DecomposeOnce() returns (r: Outcome<bool>)
      modifies this
      ensures r == Changed(DecomposeStep(old(pairs)))
      ensures pairs == After(DecomposeStep(old(pairs)), old(pairs))
    {
      var i := 0;
      while i < |pairs|
        invariant 0 <= i <= |pairs| && pairs == old(pairs)
        invariant DecomposeIndex(pairs, 0) == DecomposeIndex(pairs, i)
      {
        var d := Decompose(pairs[i].0, pairs[i].1);
        if d.Failure? {
          return Failure(d.error);
        }
        if d.value.Some? {
          pairs := pairs[..i] + pairs[i + 1..] + d.value.value;
          return Success(true);
        }
        i := i + 1;
      }
      return Success(false);
    }

    method TransformOnce() returns (r: Outcome<bool>)
      modifies this
      ensures r == Changed(TransformStep(leftVars, rightVars, old(pairs)))
      ensures pairs == After(TransformStep(leftVars, rightVars, old(pairs)), old(pairs))
    {
      r := Delete();
      if r.Failure? || r.value {
        return;
      }
      r := DecomposeOnce();
    }

    method GetSolvedForm() returns (r: Option<map<string, Term>>)
      ensures r == SolvedForm(leftVars, pairs)
    {
      var result: map<string, Term> := map[];
      var i := 0;
      while i < |pairs|
        invariant 0 <= i <= |pairs|
        invariant SolvedForm(leftVars, pairs[..i]) == Some(result)
      {
        assert pairs[..i + 1][..i] == pairs[..i];
        var leftIdent := GetIdentifier(pairs[i].0);
        if leftIdent.None? || leftIdent.value !in leftVars || leftIdent.value in result {
          SolvedFormPrefix(leftVars, pairs, i + 1);
          return None;
        }
        result := result[leftIdent.value := pairs[i].1];
        i := i + 1;
      }
      assert pairs[..i] == pairs;
      return Some(result);
    }

    /** unify: the solved form is checked first and after every transform; null when
        no transform applies. */
    method Unify() returns (r: Outcome<Option<map<string, Term>>>)
      modifies this
      ensures r == UnifyFrom(leftVars, rightVars, old(pairs))
    {
      var solved := GetSolvedForm();
      while solved.None?
        invariant solved == SolvedForm(leftVars, pairs)
        invariant UnifyFrom(leftVars, rightVars, old(pairs)) ==
          (if solved.Some? then Success(solved) else UnifyFrom(leftVars, rightVars, pairs))
        decreases PairsWeight(pairs)
      {
        var changed := TransformOnce();
        if changed.Failure? {
          return Failure(changed.error);
        }
        if !changed.value {
          return Success(None);
        }
        solved := GetSolvedForm();
      }
      return Success(solved);
    }
  }
}
