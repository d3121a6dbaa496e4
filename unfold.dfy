/** Unfold: replacing calls of declared functions by their bodies, with the actual
    arguments substituted for the formals, when every formal is used exactly once and
    no use is conditional. */
module Unfold {
  import opened Wrappers
  import opened Syntax
  import Util
  import FormalParamsCollector
  import IdentifierAndTypeExtractor

  /** The substitution built for one call: formal name to the primary that replaces it. */
  type Subs = map<string, Expr>

  /** What the counting substituter has seen so far: how often each formal was replaced,
      and whether some replacement happened under the right operand of `|` or `&`. */
  datatype Uses = Uses(counts: map<string, nat>, conditional: bool)

  function Count(m: map<string, nat>, x: string): nat
  {
    if x in m then m[x] else 0
  }

  /** One replacement of x, under a conditional context or not. */
  function Record(u: Uses, x: string, cond: bool): (r: Uses)
    ensures Count(r.counts, x) == Count(u.counts, x) + 1
    ensures forall y :: y != x ==> Count(r.counts, y) == Count(u.counts, y)
    ensures r.counts.Keys == u.counts.Keys + {x}
    ensures r.conditional == (u.conditional || cond)
  {
    Uses(u.counts[x := Count(u.counts, x) + 1], u.conditional || cond)
  }

  // ---------------------------------------------------------------------------
  // The counting substituter
  // ---------------------------------------------------------------------------

  /** The substituter over an expression. `level` is the disable level: a lookup is
      replaced and counted only at level 0, and the method bodies of a `new` are walked
      one level up. `cond` says whether the walk is inside the right operand of a `|` or
      `&`. Every logical operator is checked, even where substitution is disabled; an
      operator other than `|`, `&` and `;` aborts with an internal error. */
  function Sub(e: Expr, subs: Subs, level: nat, cond: bool, u: Uses): (r: Outcome<(Expr, Uses)>)
    ensures r.Failure? ==> r.error.Internal?
    decreases e, 2
  {
    match e
    case Lookup(x) =>
      if level == 0 && x in subs then Success((subs[x], Record(u, x, cond))) else Success((e, u))
    case LogicOp(a, op, b) =>
      var left :- Sub(a, subs, level, cond, u);
      if op != "|" && op != "&" && op != ";" then InternalFail("Unexpected logical operation: " + op)
      else
        var right :- Sub(b, subs, level, cond || op != ";", left.1);
        Success((LogicOp(left.0, op, right.0), right.1))
    case New(c, ps, ms) =>
      var vs :- SubList(ParamValues(ps), subs, level, cond, u, e);
      var bs :- SubList(Bodies(ms), subs, level + 1, cond, vs.1, e);
      Success((New(c, WithValues(ps, vs.0), WithBodies(ms, bs.0)), bs.1))
    case Assert(p) =>
      var q :- SubProp(p, subs, level, cond, u);
      Success((Assert(q.0), q.1))
    case Admit(p) =>
      var q :- SubProp(p, subs, level, cond, u);
      Success((Admit(q.0), q.1))
    case _ =>
      var cs :- SubList(ExprChildren(e), subs, level, cond, u, e);
      Success((WithExprChildren(e, cs.0), cs.1))
  }

  /** The substituter over sub-expressions of parent, left to right. */
  function SubList(xs: seq<Expr>, subs: Subs, level: nat, cond: bool, u: Uses, parent: Expr): (r: Outcome<(seq<Expr>, Uses)>)
    requires forall i :: 0 <= i < |xs| ==> xs[i] < parent
    ensures r.Success? ==> |r.value.0| == |xs|
    ensures r.Failure? ==> r.error.Internal?
    decreases parent, 1, |xs|
  {
    if xs == [] then Success(([], u))
    else
      var first :- Sub(xs[0], subs, level, cond, u);
      var rest :- SubList(xs[1..], subs, level, cond, first.1, parent);
      Success(([first.0] + rest.0, rest.1))
  }

  /** The substituter over a proposition: the expressions of its environment terms. */
  function SubProp(p: Prop, subs: Subs, level: nat, cond: bool, u: Uses): (r: Outcome<(Prop, Uses)>)
    ensures r.Failure? ==> r.error.Internal?
    decreases p, 2
  {
    if p.PEnv? then
      var xs :- SubEnv(p.params, subs, level, cond, u, p);
      Success((PEnv(xs.0), xs.1))
    else
      var cs :- SubProps(PropChildren(p), subs, level, cond, u, p);
      Success((WithPropChildren(p, cs.0), cs.1))
  }

  function SubEnv(xs: seq<Expr>, subs: Subs, level: nat, cond: bool, u: Uses, parent: Prop): (r: Outcome<(seq<Expr>, Uses)>)
    requires forall i :: 0 <= i < |xs| ==> xs[i] < parent
    ensures r.Success? ==> |r.value.0| == |xs|
    ensures r.Failure? ==> r.error.Internal?
    decreases parent, 1, |xs|
  {
    if xs == [] then Success(([], u))
    else
      var first :- Sub(xs[0], subs, level, cond, u);
      var rest :- SubEnv(xs[1..], subs, level, cond, first.1, parent);
      Success(([first.0] + rest.0, rest.1))
  }

  function SubProps(ps: seq<Prop>, subs: Subs, level: nat, cond: bool, u: Uses, parent: Prop): (r: Outcome<(seq<Prop>, Uses)>)
    requires forall i :: 0 <= i < |ps| ==> ps[i] < parent
    ensures r.Success? ==> |r.value.0| == |ps|
    ensures r.Failure? ==> r.error.Internal?
    decreases parent, 1, |ps|
  {
    if ps == [] then Success(([], u))
    else
      var first :- SubProp(ps[0], subs, level, cond, u);
      var rest :- SubProps(ps[1..], subs, level, cond, first.1, parent);
      Success(([first.0] + rest.0, rest.1))
  }

  // ---------------------------------------------------------------------------
  // Reference definitions: the uses a substitution finds
  // ---------------------------------------------------------------------------

  /** The number of lookups of x the substituter reaches with substitution enabled: all
      of them except those inside the method bodies of a `new`. */
  function Occ(e: Expr, x: string): nat
    decreases e, 2
  {
    match e
    case Lookup(y) => if y == x then 1 else 0
    case New(_, ps, _) => OccList(ParamValues(ps), x, e)
    case Assert(p) => OccProp(p, x)
    case Admit(p) => OccProp(p, x)
    case _ => OccList(ExprChildren(e), x, e)
  }

  function OccList(xs: seq<Expr>, x: string, parent: Expr): nat
    requires forall i :: 0 <= i < |xs| ==> xs[i] < parent
    decreases parent, 1, |xs|
  {
    if xs == [] then 0 else Occ(xs[0], x) + OccList(xs[1..], x, parent)
  }

  function OccProp(p: Prop, x: string): nat
    decreases p, 2
  {
    if p.PEnv? then OccEnv(p.params, x, p) else OccProps(PropChildren(p), x, p)
  }

  function OccEnv(xs: seq<Expr>, x: string, parent: Prop): nat
    requires forall i :: 0 <= i < |xs| ==> xs[i] < parent
    decreases parent, 1, |xs|
  {
    if xs == [] then 0 else Occ(xs[0], x) + OccEnv(xs[1..], x, parent)
  }

  function OccProps(ps: seq<Prop>, x: string, parent: Prop): nat
    requires forall i :: 0 <= i < |ps| ==> ps[i] < parent
    decreases parent, 1, |ps|
  {
    if ps == [] then 0 else OccProp(ps[0], x) + OccProps(ps[1..], x, parent)
  }

  /** Whether some enabled lookup of a key lies in a conditional context: `cond` holds
      on entry, or the lookup is inside the right operand of a `|` or `&`. */
  predicate Guarded(e: Expr, keys: set<string>, cond: bool)
    decreases e, 2
  {
    match e
    case Lookup(y) => cond && y in keys
    case LogicOp(a, op, b) => Guarded(a, keys, cond) || Guarded(b, keys, cond || op != ";")
    case New(_, ps, _) => GuardedList(ParamValues(ps), keys, cond, e)
    case Assert(p) => GuardedProp(p, keys, cond)
    case Admit(p) => GuardedProp(p, keys, cond)
    case _ => GuardedList(ExprChildren(e), keys, cond, e)
  }

  predicate GuardedList(xs: seq<Expr>, keys: set<string>, cond: bool, parent: Expr)
    requires forall i :: 0 <= i < |xs| ==> xs[i] < parent
    decreases parent, 1, |xs|
  {
    xs != [] && (Guarded(xs[0], keys, cond) || GuardedList(xs[1..], keys, cond, parent))
  }

  predicate GuardedProp(p: Prop, keys: set<string>, cond: bool)
    decreases p, 2
  {
    if p.PEnv? then GuardedEnv(p.params, keys, cond, p) else GuardedProps(PropChildren(p), keys, cond, p)
  }

  predicate GuardedEnv(xs: seq<Expr>, keys: set<string>, cond: bool, parent: Prop)
    requires forall i :: 0 <= i < |xs| ==> xs[i] < parent
    decreases parent, 1, |xs|
  {
    xs != [] && (Guarded(xs[0], keys, cond) || GuardedEnv(xs[1..], keys, cond, parent))
  }

  predicate GuardedProps(ps: seq<Prop>, keys: set<string>, cond: bool, parent: Prop)
    requires forall i :: 0 <= i < |ps| ==> ps[i] < parent
    decreases parent, 1, |ps|
  {
    ps != [] && (GuardedProp(ps[0], keys, cond) || GuardedProps(ps[1..], keys, cond, parent))
  }

  // ---------------------------------------------------------------------------
  // What the substituter does
  // ---------------------------------------------------------------------------

  /** Nothing changes where substitution is disabled or no key occurs; a disabled walk
      also records nothing. */
  lemma {:induction false} SubIdentity(e: Expr, subs: Subs, level: nat, cond: bool, u: Uses)
    requires Sub(e, subs, level, cond, u).Success?
    requires level > 0 || Identifiers(e) !! subs.Keys
    ensures Sub(e, subs, level, cond, u).value.0 == e
    ensures level > 0 ==> Sub(e, subs, level, cond, u).value.1 == u
    decreases e, 3
  {
    if e.LogicOp? {
      SubIdentity(e.left, subs, level, cond, u);
      var left := Sub(e.left, subs, level, cond, u).value;
      SubIdentity(e.right, subs, level, cond || e.op != ";", left.1);
    } else if e.New? {
      NewIdentity(e, subs, level, cond, u);
    } else if e.Assert? || e.Admit? {
      PropIdentity(e.prop, subs, level, cond, u);
    } else if !e.Lookup? {
      OtherIdentity(e, subs, level, cond, u);
    }
  }

  lemma {:induction false} NewIdentity(e: Expr, subs: Subs, level: nat, cond: bool, u: Uses)
    requires e.New? && Sub(e, subs, level, cond, u).Success?
    requires level > 0 || Identifiers(e) !! subs.Keys
    ensures Sub(e, subs, level, cond, u).value.0 == e
    ensures level > 0 ==> Sub(e, subs, level, cond, u).value.1 == u
    decreases e, 2
  {
    var vs := ParamValues(e.params);
    var bs := Bodies(e.methods);
    forall i | 0 <= i < |vs| ensures level > 0 || Identifiers(vs[i]) !! subs.Keys {
      assert vs[i] == ExprChildren(e)[i];
      ExprChildIdentifiers(e, i);
    }
    ListIdentity(vs, subs, level, cond, u, e);
    var v := SubList(vs, subs, level, cond, u, e).value;
    ListIdentity(bs, subs, level + 1, cond, v.1, e);
    WithOwnBodies(e.methods);
    assert WithValues(e.params, vs) == e.params;
  }

  lemma {:induction false} OtherIdentity(e: Expr, subs: Subs, level: nat, cond: bool, u: Uses)
    requires !e.Lookup? && !e.LogicOp? && !e.New? && !e.Assert? && !e.Admit?
    requires Sub(e, subs, level, cond, u).Success?
    requires level > 0 || Identifiers(e) !! subs.Keys
    ensures Sub(e, subs, level, cond, u).value.0 == e
    ensures level > 0 ==> Sub(e, subs, level, cond, u).value.1 == u
    decreases e, 2
  {
    var cs := ExprChildren(e);
    forall i | 0 <= i < |cs| ensures level > 0 || Identifiers(cs[i]) !! subs.Keys {
      ExprChildIdentifiers(e, i);
    }
    ListIdentity(cs, subs, level, cond, u, e);
    WithOwnExprChildren(e);
  }

  lemma {:induction false} ListIdentity(xs: seq<Expr>, subs: Subs, level: nat, cond: bool, u: Uses, parent: Expr)
    requires forall i :: 0 <= i < |xs| ==> xs[i] < parent
    requires SubList(xs, subs, level, cond, u, parent).Success?
    requires forall i :: 0 <= i < |xs| ==> level > 0 || Identifiers(xs[i]) !! subs.Keys
    ensures SubList(xs, subs, level, cond, u, parent).value.0 == xs
    ensures level > 0 ==> SubList(xs, subs, level, cond, u, parent).value.1 == u
    decreases parent, 1, |xs|
  {
    if xs != [] {
      SubIdentity(xs[0], subs, level, cond, u);
      var first := Sub(xs[0], subs, level, cond, u).value;
      ListIdentity(xs[1..], subs, level, cond, first.1, parent);
      assert [xs[0]] + xs[1..] == xs;
    }
  }

  lemma {:induction false} PropIdentity(p: Prop, subs: Subs, level: nat, cond: bool, u: Uses)
    requires SubProp(p, subs, level, cond, u).Success?
    requires level > 0 || IdentifiersOfProp(p) !! subs.Keys
    ensures SubProp(p, subs, level, cond, u).value.0 == p
    ensures level > 0 ==> SubProp(p, subs, level, cond, u).value.1 == u
    decreases p, 2
  {
    if p.PEnv? {
      forall i | 0 <= i < |p.params| ensures level > 0 || Identifiers(p.params[i]) !! subs.Keys {
        EnvParamIdentifiers(p, i);
      }
      EnvIdentity(p.params, subs, level, cond, u, p);
    } else {
      var cs := PropChildren(p);
      forall i | 0 <= i < |cs| ensures level > 0 || IdentifiersOfProp(cs[i]) !! subs.Keys {
        PropChildIdentifiers(p, i);
      }
      PropsIdentity(cs, subs, level, cond, u, p);
      WithOwnPropChildren(p);
    }
  }

  lemma {:induction false} EnvIdentity(xs: seq<Expr>, subs: Subs, level: nat, cond: bool, u: Uses, parent: Prop)
    requires forall i :: 0 <= i < |xs| ==> xs[i] < parent
    requires SubEnv(xs, subs, level, cond, u, parent).Success?
    requires forall i :: 0 <= i < |xs| ==> level > 0 || Identifiers(xs[i]) !! subs.Keys
    ensures SubEnv(xs, subs, level, cond, u, parent).value.0 == xs
    ensures level > 0 ==> SubEnv(xs, subs, level, cond, u, parent).value.1 == u
    decreases parent, 1, |xs|
  {
    if xs != [] {
      SubIdentity(xs[0], subs, level, cond, u);
      var first := Sub(xs[0], subs, level, cond, u).value;
      EnvIdentity(xs[1..], subs, level, cond, first.1, parent);
      assert [xs[0]] + xs[1..] == xs;
    }
  }

  lemma {:induction false} PropsIdentity(ps: seq<Prop>, subs: Subs, level: nat, cond: bool, u: Uses, parent: Prop)
    requires forall i :: 0 <= i < |ps| ==> ps[i] < parent
    requires SubProps(ps, subs, level, cond, u, parent).Success?
    requires forall i :: 0 <= i < |ps| ==> level > 0 || IdentifiersOfProp(ps[i]) !! subs.Keys
    ensures SubProps(ps, subs, level, cond, u, parent).value.0 == ps
    ensures level > 0 ==> SubProps(ps, subs, level, cond, u, parent).value.1 == u
    decreases parent, 1, |ps|
  {
    if ps != [] {
      PropIdentity(ps[0], subs, level, cond, u);
      var first := SubProp(ps[0], subs, level, cond, u).value;
      PropsIdentity(ps[1..], subs, level, cond, first.1, parent);
      assert [ps[0]] + ps[1..] == ps;
    }
  }

  /** The count of x grew by n if x is a key and stayed put otherwise, and x became a
      counted name exactly when it is a key used at least once. */
  ghost predicate Tallied(u: Uses, v: Uses, subs: Subs, x: string, n: nat)
  {
    Count(v.counts, x) == Count(u.counts, x) + (if x in subs then n else 0)
    && (x in v.counts <==> (x in u.counts || (x in subs && n > 0)))
  }

  /** At level 0 each key's count grows by its enabled uses, a name becomes a counted key
      exactly when it is a used key, and the conditional flag is set exactly when a use
      is guarded. */
  lemma {:induction false} SubUses(e: Expr, subs: Subs, cond: bool, u: Uses)
    requires Sub(e, subs, 0, cond, u).Success?
    ensures forall x :: Tallied(u, Sub(e, subs, 0, cond, u).value.1, subs, x, Occ(e, x))
    ensures Sub(e, subs, 0, cond, u).value.1.conditional == (u.conditional || Guarded(e, subs.Keys, cond))
    decreases e, 3
  {
    if e.LogicOp? {
      SubUses(e.left, subs, cond, u);
      var left := Sub(e.left, subs, 0, cond, u).value;
      SubUses(e.right, subs, cond || e.op != ";", left.1);
      var cs := ExprChildren(e);
      forall x ensures Occ(e, x) == Occ(e.left, x) + Occ(e.right, x) {
        assert Occ(e, x) == OccList(cs, x, e);
        assert OccList(cs[1..], x, e) == Occ(e.right, x) + OccList(cs[1..][1..], x, e);
      }
    } else if e.New? {
      NewUses(e, subs, cond, u);
    } else if e.Assert? || e.Admit? {
      PropUses(e.prop, subs, cond, u);
    } else if !e.Lookup? {
      OtherUses(e, subs, cond, u);
    }
  }

  lemma {:induction false} NewUses(e: Expr, subs: Subs, cond: bool, u: Uses)
    requires e.New? && Sub(e, subs, 0, cond, u).Success?
    ensures forall x :: Tallied(u, Sub(e, subs, 0, cond, u).value.1, subs, x, Occ(e, x))
    ensures Sub(e, subs, 0, cond, u).value.1.conditional == (u.conditional || Guarded(e, subs.Keys, cond))
    decreases e, 2
  {
    var vs := ParamValues(e.params);
    ListUses(vs, subs, cond, u, e);
    var v := SubList(vs, subs, 0, cond, u, e).value;
    ListIdentity(Bodies(e.methods), subs, 1, cond, v.1, e);
  }

  lemma {:induction false} OtherUses(e: Expr, subs: Subs, cond: bool, u: Uses)
    requires !e.Lookup? && !e.LogicOp? && !e.New? && !e.Assert? && !e.Admit?
    requires Sub(e, subs, 0, cond, u).Success?
    ensures forall x :: Tallied(u, Sub(e, subs, 0, cond, u).value.1, subs, x, Occ(e, x))
    ensures Sub(e, subs, 0, cond, u).value.1.conditional == (u.conditional || Guarded(e, subs.Keys, cond))
    decreases e, 2
  {
    ListUses(ExprChildren(e), subs, cond, u, e);
  }

  lemma {:induction false} ListUses(xs: seq<Expr>, subs: Subs, cond: bool, u: Uses, parent: Expr)
    requires forall i :: 0 <= i < |xs| ==> xs[i] < parent
    requires SubList(xs, subs, 0, cond, u, parent).Success?
    ensures forall x :: Tallied(u, SubList(xs, subs, 0, cond, u, parent).value.1, subs, x, OccList(xs, x, parent))
    ensures SubList(xs, subs, 0, cond, u, parent).value.1.conditional ==
      (u.conditional || GuardedList(xs, subs.Keys, cond, parent))
    decreases parent, 1, |xs|
  {
    if xs != [] {
      SubUses(xs[0], subs, cond, u);
      var first := Sub(xs[0], subs, 0, cond, u).value;
      ListUses(xs[1..], subs, cond, first.1, parent);
    }
  }

  lemma {:induction false} PropUses(p: Prop, subs: Subs, cond: bool, u: Uses)
    requires SubProp(p, subs, 0, cond, u).Success?
    ensures forall x :: Tallied(u, SubProp(p, subs, 0, cond, u).value.1, subs, x, OccProp(p, x))
    ensures SubProp(p, subs, 0, cond, u).value.1.conditional == (u.conditional || GuardedProp(p, subs.Keys, cond))
    decreases p, 2
  {
    if p.PEnv? {
      EnvUses(p.params, subs, cond, u, p);
    } else {
      PropsUses(PropChildren(p), subs, cond, u, p);
    }
  }

  lemma {:induction false} EnvUses(xs: seq<Expr>, subs: Subs, cond: bool, u: Uses, parent: Prop)
    requires forall i :: 0 <= i < |xs| ==> xs[i] < parent
    requires SubEnv(xs, subs, 0, cond, u, parent).Success?
    ensures forall x :: Tallied(u, SubEnv(xs, subs, 0, cond, u, parent).value.1, subs, x, OccEnv(xs, x, parent))
    ensures SubEnv(xs, subs, 0, cond, u, parent).value.1.conditional ==
      (u.conditional || GuardedEnv(xs, subs.Keys, cond, parent))
    decreases parent, 1, |xs|
  {
    if xs != [] {
      SubUses(xs[0], subs, cond, u);
      var first := Sub(xs[0], subs, 0, cond, u).value;
      EnvUses(xs[1..], subs, cond, first.1, parent);
    }
  }

  lemma {:induction false} PropsUses(ps: seq<Prop>, subs: Subs, cond: bool, u: Uses, parent: Prop)
    requires forall i :: 0 <= i < |ps| ==> ps[i] < parent
    requires SubProps(ps, subs, 0, cond, u, parent).Success?
    ensures forall x :: Tallied(u, SubProps(ps, subs, 0, cond, u, parent).value.1, subs, x, OccProps(ps, x, parent))
    ensures SubProps(ps, subs, 0, cond, u, parent).value.1.conditional ==
      (u.conditional || GuardedProps(ps, subs.Keys, cond, parent))
    decreases parent, 1, |ps|
  {
    if ps != [] {
      PropUses(ps[0], subs, cond, u);
      var first := SubProp(ps[0], subs, 0, cond, u).value;
      PropsUses(ps[1..], subs, cond, first.1, parent);
    }
  }

  // ---------------------------------------------------------------------------
  // The substitution for one call, and whether the unfolding is accepted
  // ---------------------------------------------------------------------------

  /** The primary that replaces the i-th formal: the i-th actual as a primary, or the
      literal 0 when the call has fewer actuals. */
  function Arg(actuals: seq<Expr>, i: nat): (r: Expr)
    ensures i < |actuals| ==> r == Util.ToPrimaryExpr(actuals[i])
    ensures i >= |actuals| ==> r == Util.DefaultPrimaryExpr()
  {
    if i < |actuals| then Util.ToPrimaryExpr(actuals[i]) else Util.DefaultPrimaryExpr()
  }

  /** The substitution map after putting each formal in turn (a repeated formal keeps
      the value of its last position). */
  function SubsMap(formals: seq<string>, actuals: seq<Expr>): (m: Subs)
    ensures forall x :: x in m <==> x in formals
    decreases |formals|
  {
    if formals == [] then map[]
    else
      var k := |formals| - 1;
      assert forall x :: x in formals <==> x in formals[..k] || x == formals[k] by {
        assert formals == formals[..k] + [formals[k]];
      }
      SubsMap(formals[..k], actuals)[formals[k] := Arg(actuals, k)]
  }

  /** A formal that does not occur again later is mapped to its own actual. */
  lemma {:induction false} SubsMapAt(formals: seq<string>, actuals: seq<Expr>, i: nat)
    requires i < |formals| && formals[i] !in formals[i + 1..]
    ensures SubsMap(formals, actuals)[formals[i]] == Arg(actuals, i)
    decreases |formals|
  {
    var k := |formals| - 1;
    if i < k {
      assert formals[k] == formals[i + 1..][k - i - 1];
      assert formals[..k][i + 1..] == formals[i + 1..k];
      SubsMapAt(formals[..k], actuals, i);
    }
  }

  /** The loop that fills the substitution map. */
  method BuildSubs(formals: seq<string>, actuals: seq<Expr>) returns (m: Subs)
    ensures m == SubsMap(formals, actuals)
  {
    m := map[];
    for i := 0 to |formals|
      invariant m == SubsMap(formals[..i], actuals)
    {
      assert formals[..i + 1][..i] == formals[..i];
      m := m[formals[i] := Arg(actuals, i)];
    }
    assert formals[..|formals|] == formals;
  }

  /** The largest count, 0 when there is none. */
  ghost predicate IsMaxCount(counts: map<string, nat>, v: nat)
  {
    (forall x :: x in counts ==> counts[x] <= v)
    && (counts.Keys == {} ==> v == 0)
    && (counts.Keys != {} ==> exists x :: x in counts && counts[x] == v)
  }

  /** The smallest count, 0 when there is none. */
  ghost predicate IsMinCount(counts: map<string, nat>, v: nat)
  {
    (forall x :: x in counts ==> v <= counts[x])
    && (counts.Keys == {} ==> v == 0)
    && (counts.Keys != {} ==> exists x :: x in counts && counts[x] == v)
  }

  /** getMaxNumSubs: a running maximum over the counted names. */
  method MaxNumSubs(counts: map<string, nat>) returns (max: nat)
    ensures IsMaxCount(counts, max)
  {
    max := 0;
    var keys := counts.Keys;
    while keys != {}
      invariant keys <= counts.Keys
      invariant forall x :: x in counts && x !in keys ==> counts[x] <= max
      invariant keys == counts.Keys ==> max == 0
      invariant keys != counts.Keys ==> exists x :: x in counts && x !in keys && counts[x] == max
      decreases |keys|
    {
      var k :| k in keys;
      if counts[k] > max {
        max := counts[k];
      }
      keys := keys - {k};
    }
  }

  /** getMinNumSubs: a running minimum that starts out unset (null). */
  method MinNumSubs(counts: map<string, nat>) returns (min: nat)
    ensures IsMinCount(counts, min)
  {
    var least: Option<nat> := None;
    var keys := counts.Keys;
    while keys != {}
      invariant keys <= counts.Keys
      invariant least.None? <==> keys == counts.Keys
      invariant least.Some? ==> forall x :: x in counts && x !in keys ==> least.value <= counts[x]
      invariant least.Some? ==> exists x :: x in counts && x !in keys && counts[x] == least.value
      decreases |keys|
    {
      var k :| k in keys;
      if least.None? || counts[k] < least.value {
        least := Some(counts[k]);
      }
      keys := keys - {k};
    }
    min := if least.None? then 0 else least.value;
  }

  /** Every counted name was replaced exactly once, and something was counted. */
  predicate AllOnce(counts: map<string, nat>)
  {
    counts.Keys != {} && forall x :: x in counts ==> counts[x] == 1
  }

  /** A maximum and a minimum of 1 say exactly that every counted name was used once. */
  lemma MaxMinOnce(counts: map<string, nat>, max: nat, min: nat)
    requires IsMaxCount(counts, max) && IsMinCount(counts, min)
    ensures (max == 1 && min == 1) <==> AllOnce(counts)
  {
    if AllOnce(counts) {
      var x :| x in counts;
      assert counts[x] == 1;
    }
  }

  /** The acceptance test after substituting into the body. As written it looks only at
      the names that were counted; corrected, it asks that every formal was used once. */
  predicate Accepted(formals: seq<string>, subs: Subs, u: Uses, asWritten: bool)
  {
    if asWritten then |formals| == 0 || (AllOnce(u.counts) && !u.conditional)
    else |formals| == 0 || ((forall x :: x in subs ==> Count(u.counts, x) == 1) && !u.conditional)
  }

  /** The acceptance test computed the way the source does, with the two loops. */
  method Accept(formals: seq<string>, subs: Subs, u: Uses, asWritten: bool) returns (ok: bool)
    ensures ok == Accepted(formals, subs, u, asWritten)
  {
    if asWritten {
      var max := MaxNumSubs(u.counts);
      var min := MinNumSubs(u.counts);
      MaxMinOnce(u.counts, max, min);
      ok := |formals| == 0 || (max == 1 && min == 1 && !u.conditional);
    } else {
      ok := |formals| == 0 || ((forall x :: x in subs ==> Count(u.counts, x) == 1) && !u.conditional);
    }
  }

  /** subParams: the body with the actuals substituted, when the function has a body
      and the unfolding is accepted; None otherwise. */
  function SubParams(decl: FuncDecl, actuals: seq<Expr>, asWritten: bool): (r: Outcome<Option<Expr>>)
    ensures r.Success? && r.value.Some? ==> decl.body.Some?
  {
    var fs :- FormalParamsCollector.Collected(decl.formals);
    var subs := SubsMap(fs.0, actuals);
    if decl.body.None? then Success(None)
    else
      var w :- Sub(decl.body.value, subs, 0, false, Uses(map[], false));
      if Accepted(fs.0, subs, w.1, asWritten) then Success(Some(w.0)) else Success(None)
  }

  /** Corrected acceptance: every formal occurs exactly once where substitution reaches
      it, and no occurrence is guarded. */
  lemma CorrectedAcceptance(formals: seq<string>, actuals: seq<Expr>, body: Expr)
    requires Sub(body, SubsMap(formals, actuals), 0, false, Uses(map[], false)).Success?
    ensures var subs := SubsMap(formals, actuals);
      Accepted(formals, subs, Sub(body, subs, 0, false, Uses(map[], false)).value.1, false) <==>
        (formals == [] || ((forall x :: x in formals ==> Occ(body, x) == 1) && !Guarded(body, subs.Keys, false)))
  {
    var subs := SubsMap(formals, actuals);
    SubUses(body, subs, false, Uses(map[], false));
  }

  /** As-written acceptance: some formal is used, none is used twice, none is guarded;
      an unused formal does not prevent the unfolding. */
  lemma AsWrittenAcceptance(formals: seq<string>, actuals: seq<Expr>, body: Expr)
    requires Sub(body, SubsMap(formals, actuals), 0, false, Uses(map[], false)).Success?
    ensures var subs := SubsMap(formals, actuals);
      Accepted(formals, subs, Sub(body, subs, 0, false, Uses(map[], false)).value.1, true) <==>
        (formals == [] || ((exists x :: x in formals && Occ(body, x) > 0) &&
                           (forall x :: x in formals ==> Occ(body, x) <= 1) && !Guarded(body, subs.Keys, false)))
  {
    var subs := SubsMap(formals, actuals);
    var v := Sub(body, subs, 0, false, Uses(map[], false)).value.1;
    TopLevelTallies(formals, actuals, body);
    OnceIff(v.counts, formals, body);
  }

  /** Substituting from no uses at all: the counted names are the used formals, each
      counted by its uses, and the flag says whether a use is guarded. */
  lemma TopLevelTallies(formals: seq<string>, actuals: seq<Expr>, body: Expr)
    requires Sub(body, SubsMap(formals, actuals), 0, false, Uses(map[], false)).Success?
    ensures var subs := SubsMap(formals, actuals);
      var v := Sub(body, subs, 0, false, Uses(map[], false)).value.1;
      (forall x :: x in v.counts <==> (x in formals && Occ(body, x) > 0)) &&
      (forall x :: x in v.counts ==> v.counts[x] == Occ(body, x)) &&
      v.conditional == Guarded(body, subs.Keys, false)
  {
    var subs := SubsMap(formals, actuals);
    var u := Uses(map[], false);
    SubUses(body, subs, false, u);
    var v := Sub(body, subs, 0, false, u).value.1;
    forall x ensures (x in v.counts <==> (x in formals && Occ(body, x) > 0)) &&
      (x in v.counts ==> v.counts[x] == Occ(body, x))
    {
      assert Tallied(u, v, subs, x, Occ(body, x));
    }
  }

  /** Counts that are exactly the positive use numbers of the formals are all one
      exactly when some formal is used and none is used twice. */
  lemma OnceIff(counts: map<string, nat>, formals: seq<string>, body: Expr)
    requires forall x :: x in counts <==> (x in formals && Occ(body, x) > 0)
    requires forall x :: x in counts ==> counts[x] == Occ(body, x)
    ensures AllOnce(counts) <==>
      ((exists x :: x in formals && Occ(body, x) > 0) && (forall x :: x in formals ==> Occ(body, x) <= 1))
  {
    if AllOnce(counts) {
      var y :| y in counts;
    }
    if exists x :: x in formals && Occ(body, x) > 0 {
      var y :| y in formals && Occ(body, y) > 0;
      assert y in counts;
    }
  }

  // ---------------------------------------------------------------------------
  // The unfolder
  // ---------------------------------------------------------------------------

  /** Whether calls of the named function are to be unfolded: all of them when the
      tactic names no functions (null), else the named ones. */
  predicate Selected(ids: Option<set<string>>, name: string)
  {
    ids.None? || name in ids.value
  }

  /** A selected call, its arguments already unfolded: a missing function records a
      check error and keeps the call; an accepted unfolding replaces the call by the
      substituted body as a primary. */
  function Call(name: string, args: seq<Expr>, errs: seq<string>, funcs: map<string, FuncDecl>, asWritten: bool): (r: Outcome<(Expr, seq<string>)>)
    ensures name !in funcs ==> r == Success((Func(name, args), errs + ["function does not exist: " + name]))
    ensures r.Success? && name in funcs ==> r.value.1 == errs
  {
    if name !in funcs then Success((Func(name, args), errs + ["function does not exist: " + name]))
    else
      var s :- SubParams(funcs[name], args, asWritten);
      Success((if s.Some? then Util.ToPrimaryExpr(s.value) else Func(name, args), errs))
  }

  /** The unfolder over an expression, bottom-up: the sub-expressions first, then the
      call itself. Check errors are collected in visiting order; an internal error of
      the substituter aborts at once. */
  function UnfoldWalk(e: Expr, ids: Option<set<string>>, funcs: map<string, FuncDecl>, asWritten: bool): (r: Outcome<(Expr, seq<string>)>)
    decreases e, 2
  {
    if e.Assert? then
      var q :- UnfoldProp(e.prop, ids, funcs, asWritten);
      Success((Assert(q.0), q.1))
    else if e.Admit? then
      var q :- UnfoldProp(e.prop, ids, funcs, asWritten);
      Success((Admit(q.0), q.1))
    else
      var cs :- UnfoldList(ExprChildren(e), ids, funcs, asWritten, e);
      if e.Func? && Selected(ids, e.name) then Call(e.name, cs.0, cs.1, funcs, asWritten)
      else Success((WithExprChildren(e, cs.0), cs.1))
  }

  function UnfoldList(xs: seq<Expr>, ids: Option<set<string>>, funcs: map<string, FuncDecl>, asWritten: bool, parent: Expr): (r: Outcome<(seq<Expr>, seq<string>)>)
    requires forall i :: 0 <= i < |xs| ==> xs[i] < parent
    ensures r.Success? ==> |r.value.0| == |xs|
    decreases parent, 1, |xs|
  {
    if xs == [] then Success(([], []))
    else
      var first :- UnfoldWalk(xs[0], ids, funcs, asWritten);
      var rest :- UnfoldList(xs[1..], ids, funcs, asWritten, parent);
      Success(([first.0] + rest.0, first.1 + rest.1))
  }

  function UnfoldProp(p: Prop, ids: Option<set<string>>, funcs: map<string, FuncDecl>, asWritten: bool): (r: Outcome<(Prop, seq<string>)>)
    decreases p, 2
  {
    if p.PEnv? then
      var xs :- UnfoldEnv(p.params, ids, funcs, asWritten, p);
      Success((PEnv(xs.0), xs.1))
    else
      var cs :- UnfoldProps(PropChildren(p), ids, funcs, asWritten, p);
      Success((WithPropChildren(p, cs.0), cs.1))
  }

  function UnfoldEnv(xs: seq<Expr>, ids: Option<set<string>>, funcs: map<string, FuncDecl>, asWritten: bool, parent: Prop): (r: Outcome<(seq<Expr>, seq<string>)>)
    requires forall i :: 0 <= i < |xs| ==> xs[i] < parent
    ensures r.Success? ==> |r.value.0| == |xs|
    decreases parent, 1, |xs|
  {
    if xs == [] then Success(([], []))
    else
      var first :- UnfoldWalk(xs[0], ids, funcs, asWritten);
      var rest :- UnfoldEnv(xs[1..], ids, funcs, asWritten, parent);
      Success(([first.0] + rest.0, first.1 + rest.1))
  }

  function UnfoldProps(ps: seq<Prop>, ids: Option<set<string>>, funcs: map<string, FuncDecl>, asWritten: bool, parent: Prop): (r: Outcome<(seq<Prop>, seq<string>)>)
    requires forall i :: 0 <= i < |ps| ==> ps[i] < parent
    ensures r.Success? ==> |r.value.0| == |ps|
    decreases parent, 1, |ps|
  {
    if ps == [] then Success(([], []))
    else
      var first :- UnfoldProp(ps[0], ids, funcs, asWritten);
      var rest :- UnfoldProps(ps[1..], ids, funcs, asWritten, parent);
      Success(([first.0] + rest.0, first.1 + rest.1))
  }

  /** transform, up to the equivalence check of the result: the unfolded expression, or
      the first check error the unfolder recorded. */
  function Transform(e: Expr, ids: Option<set<string>>, funcs: map<string, FuncDecl>, asWritten: bool): (r: Outcome<Expr>)
    ensures r.Success? ==> UnfoldWalk(e, ids, funcs, asWritten) == Success((r.value, []))
    ensures UnfoldWalk(e, ids, funcs, asWritten).Success? && UnfoldWalk(e, ids, funcs, asWritten).value.1 != [] ==>
      r == CheckFail(UnfoldWalk(e, ids, funcs, asWritten).value.1[0])
  {
    var w :- UnfoldWalk(e, ids, funcs, asWritten);
    if w.1 != [] then CheckFail(w.1[0]) else Success(w.0)
  }

  /** A tactic that names none of the functions called in an expression neither changes
      it nor reports anything. */
  lemma {:induction false} UnfoldUnselected(e: Expr, ids: set<string>, funcs: map<string, FuncDecl>, asWritten: bool)
    requires ids !! Identifiers(e)
    ensures UnfoldWalk(e, Some(ids), funcs, asWritten) == Success((e, []))
    decreases e, 2
  {
    if e.Assert? || e.Admit? {
      PropUnselected(e.prop, ids, funcs, asWritten);
    } else {
      var cs := ExprChildren(e);
      forall i | 0 <= i < |cs| ensures ids !! Identifiers(cs[i]) {
        ExprChildIdentifiers(e, i);
      }
      ListUnselected(cs, ids, funcs, asWritten, e);
      WithOwnExprChildren(e);
    }
  }

  lemma {:induction false} ListUnselected(xs: seq<Expr>, ids: set<string>, funcs: map<string, FuncDecl>, asWritten: bool, parent: Expr)
    requires forall i :: 0 <= i < |xs| ==> xs[i] < parent
    requires forall i :: 0 <= i < |xs| ==> ids !! Identifiers(xs[i])
    ensures UnfoldList(xs, Some(ids), funcs, asWritten, parent) == Success((xs, []))
    decreases parent, 1, |xs|
  {
    if xs != [] {
      UnfoldUnselected(xs[0], ids, funcs, asWritten);
      ListUnselected(xs[1..], ids, funcs, asWritten, parent);
      var none: seq<string> := [];
      assert [xs[0]] + xs[1..] == xs && none + none == none;
    }
  }

  lemma {:induction false} PropUnselected(p: Prop, ids: set<string>, funcs: map<string, FuncDecl>, asWritten: bool)
    requires ids !! IdentifiersOfProp(p)
    ensures UnfoldProp(p, Some(ids), funcs, asWritten) == Success((p, []))
    decreases p, 2
  {
    if p.PEnv? {
      forall i | 0 <= i < |p.params| ensures ids !! Identifiers(p.params[i]) {
        EnvParamIdentifiers(p, i);
      }
      EnvUnselected(p.params, ids, funcs, asWritten, p);
    } else {
      var cs := PropChildren(p);
      forall i | 0 <= i < |cs| ensures ids !! IdentifiersOfProp(cs[i]) {
        PropChildIdentifiers(p, i);
      }
      PropsUnselected(cs, ids, funcs, asWritten, p);
      WithOwnPropChildren(p);
    }
  }

  lemma {:induction false} EnvUnselected(xs: seq<Expr>, ids: set<string>, funcs: map<string, FuncDecl>, asWritten: bool, parent: Prop)
    requires forall i :: 0 <= i < |xs| ==> xs[i] < parent
    requires forall i :: 0 <= i < |xs| ==> ids !! Identifiers(xs[i])
    ensures UnfoldEnv(xs, Some(ids), funcs, asWritten, parent) == Success((xs, []))
    decreases parent, 1, |xs|
  {
    if xs != [] {
      UnfoldUnselected(xs[0], ids, funcs, asWritten);
      EnvUnselected(xs[1..], ids, funcs, asWritten, parent);
      var none: seq<string> := [];
      assert [xs[0]] + xs[1..] == xs && none + none == none;
    }
  }

  lemma {:induction false} PropsUnselected(ps: seq<Prop>, ids: set<string>, funcs: map<string, FuncDecl>, asWritten: bool, parent: Prop)
    requires forall i :: 0 <= i < |ps| ==> ps[i] < parent
    requires forall i :: 0 <= i < |ps| ==> ids !! IdentifiersOfProp(ps[i])
    ensures UnfoldProps(ps, Some(ids), funcs, asWritten, parent) == Success((ps, []))
    decreases parent, 1, |ps|
  {
    if ps != [] {
      PropUnselected(ps[0], ids, funcs, asWritten);
      PropsUnselected(ps[1..], ids, funcs, asWritten, parent);
      var none: seq<string> := [];
      assert [ps[0]] + ps[1..] == ps && none + none == none;
    }
  }

  // ---------------------------------------------------------------------------
  // Examples
  // ---------------------------------------------------------------------------

  /** An unannotated formal. */
  function Formal(x: string): FormalParam
  {
    FormalParam(x, None)
  }

  /** Unannotated formals are collected as their names. */
  lemma PlainFormals(fs: seq<FormalParam>)
    requires forall i :: 0 <= i < |fs| ==> fs[i].annotation.None?
    ensures FormalParamsCollector.Collected(fs).Success?
    ensures FormalParamsCollector.Collected(fs).value.0 == FormalParamsCollector.Ids(fs)
  {
    assert forall i :: 0 <= i < |fs| ==> IdentifierAndTypeExtractor.Extract(fs[i]).Success?;
    FormalParamsCollector.CollectedIds(fs);
  }

  /** A selected call whose arguments hold no selected call is replaced by the substituted
      body exactly when subParams accepts it, and kept otherwise. */
  lemma TransformCall(name: string, args: seq<Expr>, ids: set<string>, funcs: map<string, FuncDecl>, asWritten: bool)
    requires name in ids && name in funcs
    requires forall i :: 0 <= i < |args| ==> ids !! Identifiers(args[i])
    requires SubParams(funcs[name], args, asWritten).Success?
    ensures var s := SubParams(funcs[name], args, asWritten).value;
      Transform(Func(name, args), Some(ids), funcs, asWritten) ==
        Success(if s.Some? then Util.ToPrimaryExpr(s.value) else Func(name, args))
  {
    ListUnselected(args, ids, funcs, asWritten, Func(name, args));
  }

  /** f(x) := x + 1 unfolds f(a) to (a + 1). */
  lemma UnfoldsSingleUse()
    ensures Transform(Func("f", [Lookup("a")]), Some({"f"}),
                      map["f" := FuncDecl("f", false, false, [Formal("x")], None, Some(Sum(Lookup("x"), "+", Literal(Numeric("1")))))], false)
         == Success(Paren(None, Sum(Lookup("a"), "+", Literal(Numeric("1")))))
  {
    var decl := FuncDecl("f", false, false, [Formal("x")], None, Some(Sum(Lookup("x"), "+", Literal(Numeric("1")))));
    SingleUseSubParams();
    TransformCall("f", [Lookup("a")], {"f"}, map["f" := decl], false);
  }

  lemma SingleUseSubParams()
    ensures SubParams(FuncDecl("f", false, false, [Formal("x")], None, Some(Sum(Lookup("x"), "+", Literal(Numeric("1"))))),
                      [Lookup("a")], false)
         == Success(Some(Sum(Lookup("a"), "+", Literal(Numeric("1")))))
  {
    PlainFormals([Formal("x")]);
    assert SubsMap(["x"], [Lookup("a")]) == map["x" := Lookup("a")];
    SingleUseSub();
  }

  lemma SingleUseSub()
    ensures Sub(Sum(Lookup("x"), "+", Literal(Numeric("1"))), map["x" := Lookup("a")], 0, false, Uses(map[], false))
         == Success((Sum(Lookup("a"), "+", Literal(Numeric("1"))), Uses(map["x" := 1], false)))
  {
    var one := Literal(Numeric("1"));
    var body := Sum(Lookup("x"), "+", one);
    var subs := map["x" := Lookup("a")];
    var u := Uses(map["x" := 1], false);
    assert Sub(Lookup("x"), subs, 0, false, Uses(map[], false)) == Success((Lookup("a"), u));
    assert Sub(one, subs, 0, false, u) == Success((one, u));
    assert [one][1..] == [];
    var none: seq<Expr> := [];
    assert [one] + none == [one];
    assert SubList([one], subs, 0, false, u, body) == Success(([one], u));
    assert ExprChildren(body)[1..] == [one];
  }

  /** f(x) := x * x uses its formal twice: the call stays. */
  lemma KeepsDoubleUse()
    ensures Transform(Func("f", [Lookup("a")]), Some({"f"}),
                      map["f" := FuncDecl("f", false, false, [Formal("x")], None, Some(Product(Lookup("x"), "*", Lookup("x"))))], false)
         == Success(Func("f", [Lookup("a")]))
  {
    var body := Product(Lookup("x"), "*", Lookup("x"));
    var decl := FuncDecl("f", false, false, [Formal("x")], None, Some(body));
    var subs := map["x" := Lookup("a")];
    PlainFormals(decl.formals);
    assert SubsMap(["x"], [Lookup("a")]) == subs;
    DoubleUseSub();
    assert SubParams(decl, [Lookup("a")], false) == Success(None);
    TransformCall("f", [Lookup("a")], {"f"}, map["f" := decl], false);
  }

  lemma DoubleUseSub()
    ensures Sub(Product(Lookup("x"), "*", Lookup("x")), map["x" := Lookup("a")], 0, false, Uses(map[], false)).Success?
    ensures Count(Sub(Product(Lookup("x"), "*", Lookup("x")), map["x" := Lookup("a")], 0, false, Uses(map[], false)).value.1.counts, "x") == 2
  {
    var body := Product(Lookup("x"), "*", Lookup("x"));
    var subs := map["x" := Lookup("a")];
    var u0 := Uses(map[], false);
    var u1 := Uses(map["x" := 1], false);
    assert Sub(Lookup("x"), subs, 0, false, u0) == Success((Lookup("a"), u1));
    var u2 := Sub(Lookup("x"), subs, 0, false, u1).value.1;
    assert Count(u2.counts, "x") == 2;
    assert [Lookup("x")][1..] == [];
    assert SubList([Lookup("x")], subs, 0, false, u1, body).value.1 == u2;
    assert ExprChildren(body)[1..] == [Lookup("x")];
  }

  /** f(x) := c & x uses its formal only when c holds: the call stays. */
  lemma KeepsConditionalUse()
    ensures Transform(Func("f", [Lookup("a")]), Some({"f"}),
                      map["f" := FuncDecl("f", false, false, [Formal("x")], None, Some(LogicOp(Lookup("c"), "&", Lookup("x"))))], false)
         == Success(Func("f", [Lookup("a")]))
  {
    var body := LogicOp(Lookup("c"), "&", Lookup("x"));
    var decl := FuncDecl("f", false, false, [Formal("x")], None, Some(body));
    var subs := map["x" := Lookup("a")];
    PlainFormals(decl.formals);
    assert SubsMap(["x"], [Lookup("a")]) == subs;
    var u0 := Uses(map[], false);
    assert Sub(Lookup("c"), subs, 0, false, u0) == Success((Lookup("c"), u0));
    assert Sub(Lookup("x"), subs, 0, true, u0) == Success((Lookup("a"), Uses(map["x" := 1], true)));
    assert Sub(body, subs, 0, false, u0).value.1.conditional;
    assert SubParams(decl, [Lookup("a")], false) == Success(None);
    TransformCall("f", [Lookup("a")], {"f"}, map["f" := decl], false);
  }

  /** A call of an undeclared function is reported. */
  lemma ReportsMissingFunction(name: string, funcs: map<string, FuncDecl>)
    requires name !in funcs
    ensures Transform(Func(name, []), None, funcs, false) == CheckFail("function does not exist: " + name)
  {
    assert UnfoldList([], None, funcs, false, Func(name, [])) == Success(([], []));
  }

  /** f(x, y) := x applied to (a, b): the loop-based test of the source accepts the
      unfolding although y is never used, and the argument b disappears; the corrected
      test keeps the call. */
  lemma UnusedFormalAccepted()
    ensures Transform(Func("f", [Lookup("a"), Lookup("b")]), Some({"f"}),
                      map["f" := FuncDecl("f", false, false, [Formal("x"), Formal("y")], None, Some(Lookup("x")))], true)
         == Success(Lookup("a"))
    ensures Transform(Func("f", [Lookup("a"), Lookup("b")]), Some({"f"}),
                      map["f" := FuncDecl("f", false, false, [Formal("x"), Formal("y")], None, Some(Lookup("x")))], false)
         == Success(Func("f", [Lookup("a"), Lookup("b")]))
  {
    var decl := FuncDecl("f", false, false, [Formal("x"), Formal("y")], None, Some(Lookup("x")));
    var args := [Lookup("a"), Lookup("b")];
    UnusedFormalSubParams();
    TransformCall("f", args, {"f"}, map["f" := decl], true);
    TransformCall("f", args, {"f"}, map["f" := decl], false);
  }

  lemma UnusedFormalSubParams()
    ensures SubParams(FuncDecl("f", false, false, [Formal("x"), Formal("y")], None, Some(Lookup("x"))),
                      [Lookup("a"), Lookup("b")], true) == Success(Some(Lookup("a")))
    ensures SubParams(FuncDecl("f", false, false, [Formal("x"), Formal("y")], None, Some(Lookup("x"))),
                      [Lookup("a"), Lookup("b")], false) == Success(None)
  {
    var decl := FuncDecl("f", false, false, [Formal("x"), Formal("y")], None, Some(Lookup("x")));
    var args := [Lookup("a"), Lookup("b")];
    var subs := map["x" := Lookup("a"), "y" := Lookup("b")];
    PlainFormals(decl.formals);
    assert FormalParamsCollector.Ids(decl.formals) == ["x", "y"];
    assert ["x", "y"][..1] == ["x"];
    assert SubsMap(["x"], args) == map["x" := Lookup("a")];
    assert SubsMap(["x", "y"], args) == subs;
    var u := Uses(map["x" := 1], false);
    assert Sub(Lookup("x"), subs, 0, false, Uses(map[], false)) == Success((Lookup("a"), u));
    assert AllOnce(u.counts);
    assert Count(u.counts, "y") == 0;
  }
}
