/** VarSubstituter: renames variables (lookups and assignment targets) by a name-to-name
    map. Inside a `new` expression the constructor parameters are still renamed, but
    the method bodies are not: a disable level is raised for them. */
module VarSubstituter {
  import opened Wrappers
  import opened Syntax

  type Renaming = map<string, string>

  function RenameVar(x: string, subs: Renaming, level: nat): (r: string)
    ensures level == 0 && x in subs ==> r == subs[x]
    ensures level != 0 || x !in subs ==> r == x
  {
    if level == 0 && x in subs then subs[x] else x
  }

  /** The walk at disable level `level`. On entering a `new` the parameters are walked at
      the current level, and the level is then raised by one for the `new`'s own children
      until it is left. Those children are the parameters again and the methods. The second
      pass over the parameters happens at a raised level, where a walk changes nothing
      (WalkIdentity), so the parameters are walked once here. */
  function Walk(e: Expr, subs: Renaming, level: nat): (r: Expr)
    decreases e
  {
    match e
    case Lookup(x) => Lookup(RenameVar(x, subs, level))
    case Func(n, args) => Func(n, WalkArgs(args, subs, level))
    case Invoke(t, m, args, c) => Invoke(Walk(t, subs, level), m, WalkArgs(args, subs, level), c)
    case New(c, ps, ms) => New(c, WalkParams(ps, subs, level), WalkMethods(ms, subs, level + 1))
    case Paren(lbl, x) => Paren(lbl, Walk(x, subs, level))
    case Ref(x) => Ref(Walk(x, subs, level))
    case ToBits(x) => ToBits(Walk(x, subs, level))
    case MapLookup(m, i) => MapLookup(Walk(m, subs, level), Walk(i, subs, level))
    case MapUpdate(m, i, v) => MapUpdate(Walk(m, subs, level), Walk(i, subs, level), Walk(v, subs, level))
    case Assert(p) => Assert(WalkProp(p, subs, level))
    case Admit(p) => Admit(WalkProp(p, subs, level))
    case Product(a, op, b) => Product(Walk(a, subs, level), op, Walk(b, subs, level))
    case Sum(a, op, b) => Sum(Walk(a, subs, level), op, Walk(b, subs, level))
    case RelOp(a, op, b) => RelOp(Walk(a, subs, level), op, Walk(b, subs, level))
    case Not(x) => Not(Walk(x, subs, level))
    case Assign(t, v) => Assign(RenameVar(t, subs, level), Walk(v, subs, level))
    case Seq(a, b) => Seq(Walk(a, subs, level), Walk(b, subs, level))
    case LogicOp(a, op, b) => LogicOp(Walk(a, subs, level), op, Walk(b, subs, level))
    case Ternary(c, a, b) => Ternary(Walk(c, subs, level), Walk(a, subs, level), Walk(b, subs, level))
    case _ => e
  }

  function WalkArgs(args: seq<Expr>, subs: Renaming, level: nat): (r: seq<Expr>)
    ensures |r| == |args| && forall i :: 0 <= i < |r| ==> r[i] == Walk(args[i], subs, level)
    decreases args
  {
    seq(|args|, i requires 0 <= i < |args| => Walk(args[i], subs, level))
  }

  function WalkParams(ps: seq<NewParam>, subs: Renaming, level: nat): (r: seq<NewParam>)
    ensures |r| == |ps| && forall i :: 0 <= i < |r| ==> r[i] == NewParam(ps[i].id, Walk(ps[i].value, subs, level))
    decreases ps
  {
    seq(|ps|, i requires 0 <= i < |ps| => NewParam(ps[i].id, Walk(ps[i].value, subs, level)))
  }

  function WalkMethods(ms: seq<MethodDef>, subs: Renaming, level: nat): (r: seq<MethodDef>)
    ensures |r| == |ms| && forall i :: 0 <= i < |r| ==>
      r[i] == MethodDef(ms[i].name, ms[i].formals, if ms[i].body.Some? then Some(Walk(ms[i].body.value, subs, level)) else None)
    decreases ms
  {
    seq(|ms|, i requires 0 <= i < |ms| =>
      MethodDef(ms[i].name, ms[i].formals, if ms[i].body.Some? then Some(Walk(ms[i].body.value, subs, level)) else None))
  }

  function WalkProp(p: Prop, subs: Renaming, level: nat): (r: Prop)
    decreases p
  {
    if p.PEnv? then PEnv(WalkArgs(p.params, subs, level))
    else
      var cs := PropChildren(p);
      WithPropChildren(p, seq(|cs|, i requires 0 <= i < |cs| => WalkProp(cs[i], subs, level)))
  }

  /** The substituter applied to an expression: a tree none of whose names is mapped
      comes back unchanged. */
  function Substitute(e: Expr, subs: Renaming): (r: Expr)
    ensures Identifiers(e) !! subs.Keys ==> r == e
  {
    assert Identifiers(e) !! subs.Keys ==> Walk(e, subs, 0) == e by {
      if Identifiers(e) !! subs.Keys {
        WalkIdentity(e, subs, 0);
      }
    }
    Walk(e, subs, 0)
  }

  /** A lookup of a mapped name becomes a lookup of its image; any other is kept. */
  lemma SubstituteLookup(x: string, subs: Renaming)
    ensures x in subs ==> Substitute(Lookup(x), subs) == Lookup(subs[x])
    ensures x !in subs ==> Substitute(Lookup(x), subs) == Lookup(x)
  {
  }

  /** An assignment to a mapped name assigns to its image instead, and its value is
      substituted in turn. */
  lemma SubstituteAssign(x: string, v: Expr, subs: Renaming)
    ensures Substitute(Assign(x, v), subs) == Assign(if x in subs then subs[x] else x, Substitute(v, subs))
  {
  }

  /** With the level raised, or with no name of the tree mapped, nothing changes. */
  lemma {:induction false} WalkIdentity(e: Expr, subs: Renaming, level: nat)
    requires level > 0 || Identifiers(e) !! subs.Keys
    ensures Walk(e, subs, level) == e
    decreases e, 1
  {
    match e
    case Lookup(x) =>
    case Assign(t, v) => WalkIdentity(v, subs, level);
    case Product(a, _, b) => WalkIdentity(a, subs, level); WalkIdentity(b, subs, level);
    case Sum(a, _, b) => WalkIdentity(a, subs, level); WalkIdentity(b, subs, level);
    case RelOp(a, _, b) => WalkIdentity(a, subs, level); WalkIdentity(b, subs, level);
    case Not(x) => WalkIdentity(x, subs, level);
    case Seq(a, b) => WalkIdentity(a, subs, level); WalkIdentity(b, subs, level);
    case LogicOp(a, _, b) => WalkIdentity(a, subs, level); WalkIdentity(b, subs, level);
    case Ternary(c, a, b) => WalkIdentity(c, subs, level); WalkIdentity(a, subs, level); WalkIdentity(b, subs, level);
    case _ => NestedIdentity(e, subs, level);
  }

  lemma {:induction false} NestedIdentity(e: Expr, subs: Renaming, level: nat)
    requires level > 0 || Identifiers(e) !! subs.Keys
    requires !e.Lookup? && !e.Assign? && !e.Product? && !e.Sum? && !e.RelOp? && !e.Not?
    requires !e.Seq? && !e.LogicOp? && !e.Ternary?
    ensures Walk(e, subs, level) == e
    decreases e, 0
  {
    match e
    case Func(_, args) => ArgsIdentity(args, subs, level);
    case Invoke(t, _, args, _) => WalkIdentity(t, subs, level); ArgsIdentity(args, subs, level);
    case New(c, ps, ms) =>
      ParamsIdentity(ps, subs, level);
      MethodsIdentity(ms, subs, level + 1);
    case Paren(_, x) => WalkIdentity(x, subs, level);
    case Ref(x) => WalkIdentity(x, subs, level);
    case ToBits(x) => WalkIdentity(x, subs, level);
    case MapLookup(m, i) => WalkIdentity(m, subs, level); WalkIdentity(i, subs, level);
    case MapUpdate(m, i, v) => WalkIdentity(m, subs, level); WalkIdentity(i, subs, level); WalkIdentity(v, subs, level);
    case Assert(p) => PropIdentity(p, subs, level);
    case Admit(p) => PropIdentity(p, subs, level);
    case _ =>
  }

  lemma {:induction false} ArgsIdentity(args: seq<Expr>, subs: Renaming, level: nat)
    requires level > 0 || IdentifiersOfArgs(args) !! subs.Keys
    ensures WalkArgs(args, subs, level) == args
    decreases args, 0
  {
    forall i | 0 <= i < |args| ensures Walk(args[i], subs, level) == args[i] {
      ArgIdentifiers(args, i);
      WalkIdentity(args[i], subs, level);
    }
  }

  lemma {:induction false} ParamsIdentity(ps: seq<NewParam>, subs: Renaming, level: nat)
    requires level > 0 || IdentifiersOfParams(ps) !! subs.Keys
    ensures WalkParams(ps, subs, level) == ps
    decreases ps, 0
  {
    forall i | 0 <= i < |ps| ensures WalkParams(ps, subs, level)[i] == ps[i] {
      ParamIdentifiers(ps, i);
      WalkIdentity(ps[i].value, subs, level);
    }
  }

  lemma {:induction false} MethodsIdentity(ms: seq<MethodDef>, subs: Renaming, level: nat)
    requires level > 0 || IdentifiersOfMethods(ms) !! subs.Keys
    ensures WalkMethods(ms, subs, level) == ms
    decreases ms, 0
  {
    forall i | 0 <= i < |ms| ensures WalkMethods(ms, subs, level)[i] == ms[i] {
      MethodIdentifiers(ms, i);
      if ms[i].body.Some? {
        WalkIdentity(ms[i].body.value, subs, level);
      }
    }
  }

  lemma {:induction false} PropIdentity(p: Prop, subs: Renaming, level: nat)
    requires level > 0 || IdentifiersOfProp(p) !! subs.Keys
    ensures WalkProp(p, subs, level) == p
    decreases p
  {
    if p.PEnv? {
      ArgsIdentity(p.params, subs, level);
    } else {
      var cs := PropChildren(p);
      forall i | 0 <= i < |cs| ensures WalkProp(cs[i], subs, level) == cs[i] {
        PropChildIdentifiers(p, i);
        PropIdentity(cs[i], subs, level);
      }
      assert seq(|cs|, i requires 0 <= i < |cs| => WalkProp(cs[i], subs, level)) == cs;
      WithOwnPropChildren(p);
    }
  }

  /** Inside a `new`, the parameters are renamed and the methods are left as they are. */
  lemma NewRenamesOnlyParams(c: Option<string>, ps: seq<NewParam>, ms: seq<MethodDef>, subs: Renaming)
    ensures Substitute(New(c, ps, ms), subs) == New(c, WalkParams(ps, subs, 0), ms)
  {
    MethodsIdentity(ms, subs, 1);
  }

  /** Renaming with fresh names and then back with the inverse map restores the tree. */
  lemma {:induction false} RenameBack(e: Expr, subs: Renaming, inv: Renaming, level: nat)
    requires forall x :: x in subs ==> subs[x] in inv && inv[subs[x]] == x
    requires Identifiers(e) !! inv.Keys
    ensures Walk(Walk(e, subs, level), inv, level) == e
    decreases e, 1
  {
    if e.Lookup? || e.Assign? {
      AssignRenameBack(e, subs, inv, level);
    } else if e.Not? || e.Seq? || e.Ternary? {
      RenameBackRest(e, subs, inv, level);
    } else if e.Product? || e.Sum? || e.RelOp? || e.LogicOp? {
      BinaryRenameBack(e, subs, inv, level);
    } else if e.Func? || e.Invoke? || e.New? {
      CallRenameBack(e, subs, inv, level);
    } else if e.Paren? || e.Ref? || e.ToBits? || e.MapLookup? || e.MapUpdate? {
      WrapRenameBack(e, subs, inv, level);
    } else {
      NestedRenameBack(e, subs, inv, level);
    }
  }

  lemma {:induction false} AssignRenameBack(e: Expr, subs: Renaming, inv: Renaming, level: nat)
    requires forall x :: x in subs ==> subs[x] in inv && inv[subs[x]] == x
    requires Identifiers(e) !! inv.Keys
    requires e.Lookup? || e.Assign?
    ensures Walk(Walk(e, subs, level), inv, level) == e
    decreases e, 0
  {
    if e.Lookup? {
      RenameVarBack(e.id, subs, inv, level);
    } else {
      RenameVarBack(e.variable, subs, inv, level);
      RenameBack(e.value, subs, inv, level);
    }
  }

  lemma {:induction false} RenameBackRest(e: Expr, subs: Renaming, inv: Renaming, level: nat)
    requires forall x :: x in subs ==> subs[x] in inv && inv[subs[x]] == x
    requires Identifiers(e) !! inv.Keys
    requires e.Not? || e.Seq? || e.Ternary?
    ensures Walk(Walk(e, subs, level), inv, level) == e
    decreases e, 0
  {
    match e
    case Not(x) => RenameBack(x, subs, inv, level);
    case Seq(a, b) => RenameBack(a, subs, inv, level); RenameBack(b, subs, inv, level);
    case Ternary(c, a, b) =>
      RenameBack(c, subs, inv, level); RenameBack(a, subs, inv, level); RenameBack(b, subs, inv, level);
  }

  lemma RenameVarBack(x: string, subs: Renaming, inv: Renaming, level: nat)
    requires forall x :: x in subs ==> subs[x] in inv && inv[subs[x]] == x
    requires x !in inv
    ensures RenameVar(RenameVar(x, subs, level), inv, level) == x
  {
  }

  lemma {:induction false} BinaryRenameBack(e: Expr, subs: Renaming, inv: Renaming, level: nat)
    requires forall x :: x in subs ==> subs[x] in inv && inv[subs[x]] == x
    requires Identifiers(e) !! inv.Keys
    requires e.Product? || e.Sum? || e.RelOp? || e.LogicOp?
    ensures Walk(Walk(e, subs, level), inv, level) == e
    decreases e, 0
  {
    RenameBack(e.left, subs, inv, level);
    RenameBack(e.right, subs, inv, level);
  }

  lemma {:induction false} CallRenameBack(e: Expr, subs: Renaming, inv: Renaming, level: nat)
    requires forall x :: x in subs ==> subs[x] in inv && inv[subs[x]] == x
    requires Identifiers(e) !! inv.Keys
    requires e.Func? || e.Invoke? || e.New?
    ensures Walk(Walk(e, subs, level), inv, level) == e
    decreases e, 0
  {
    match e
    case Func(_, args) => RenameBackArgs(args, subs, inv, level);
    case Invoke(t, _, args, _) => RenameBack(t, subs, inv, level); RenameBackArgs(args, subs, inv, level);
    case New(c, ps, ms) =>
      RenameBackParams(ps, subs, inv, level);
      MethodsIdentity(ms, subs, level + 1);
      MethodsIdentity(ms, inv, level + 1);
  }

  lemma {:induction false} WrapRenameBack(e: Expr, subs: Renaming, inv: Renaming, level: nat)
    requires forall x :: x in subs ==> subs[x] in inv && inv[subs[x]] == x
    requires Identifiers(e) !! inv.Keys
    requires e.Paren? || e.Ref? || e.ToBits? || e.MapLookup? || e.MapUpdate?
    ensures Walk(Walk(e, subs, level), inv, level) == e
    decreases e, 0
  {
    match e
    case Paren(_, x) => RenameBack(x, subs, inv, level);
    case Ref(x) => RenameBack(x, subs, inv, level);
    case ToBits(x) => RenameBack(x, subs, inv, level);
    case MapLookup(m, i) => RenameBack(m, subs, inv, level); RenameBack(i, subs, inv, level);
    case MapUpdate(m, i, v) =>
      RenameBack(m, subs, inv, level); RenameBack(i, subs, inv, level); RenameBack(v, subs, inv, level);
  }

  lemma {:induction false} NestedRenameBack(e: Expr, subs: Renaming, inv: Renaming, level: nat)
    requires forall x :: x in subs ==> subs[x] in inv && inv[subs[x]] == x
    requires Identifiers(e) !! inv.Keys
    requires !e.Lookup? && !e.Assign? && !e.Product? && !e.Sum? && !e.RelOp? && !e.Not?
    requires !e.Seq? && !e.LogicOp? && !e.Ternary? && !e.Func? && !e.Invoke? && !e.New?
    requires !e.Paren? && !e.Ref? && !e.ToBits? && !e.MapLookup? && !e.MapUpdate?
    ensures Walk(Walk(e, subs, level), inv, level) == e
    decreases e, 0
  {
    if e.Assert? {
      RenameBackProp(e.prop, subs, inv, level);
    } else if e.Admit? {
      RenameBackProp(e.prop, subs, inv, level);
    }
  }

  lemma {:induction false} RenameBackArgs(args: seq<Expr>, subs: Renaming, inv: Renaming, level: nat)
    requires forall x :: x in subs ==> subs[x] in inv && inv[subs[x]] == x
    requires IdentifiersOfArgs(args) !! inv.Keys
    ensures WalkArgs(WalkArgs(args, subs, level), inv, level) == args
    decreases args, 0
  {
    forall i | 0 <= i < |args| ensures WalkArgs(WalkArgs(args, subs, level), inv, level)[i] == args[i] {
      ArgIdentifiers(args, i);
      RenameBack(args[i], subs, inv, level);
    }
  }

  lemma {:induction false} RenameBackParams(ps: seq<NewParam>, subs: Renaming, inv: Renaming, level: nat)
    requires forall x :: x in subs ==> subs[x] in inv && inv[subs[x]] == x
    requires IdentifiersOfParams(ps) !! inv.Keys
    ensures WalkParams(WalkParams(ps, subs, level), inv, level) == ps
    decreases ps, 0
  {
    forall i | 0 <= i < |ps| ensures WalkParams(WalkParams(ps, subs, level), inv, level)[i] == ps[i] {
      ParamIdentifiers(ps, i);
      RenameBack(ps[i].value, subs, inv, level);
    }
  }

  lemma {:induction false} RenameBackProp(p: Prop, subs: Renaming, inv: Renaming, level: nat)
    requires forall x :: x in subs ==> subs[x] in inv && inv[subs[x]] == x
    requires IdentifiersOfProp(p) !! inv.Keys
    ensures WalkProp(WalkProp(p, subs, level), inv, level) == p
    decreases p
  {
    if p.PEnv? {
      RenameBackArgs(p.params, subs, inv, level);
    } else {
      var cs := PropChildren(p);
      var cs1 := seq(|cs|, i requires 0 <= i < |cs| => WalkProp(cs[i], subs, level));
      var q := WithPropChildren(p, cs1);
      assert PropChildren(q) == cs1;
      var cs2 := seq(|cs1|, i requires 0 <= i < |cs1| => WalkProp(cs1[i], inv, level));
      forall i | 0 <= i < |cs| ensures cs2[i] == cs[i] {
        PropChildIdentifiers(p, i);
        RenameBackProp(cs[i], subs, inv, level);
      }
      assert cs2 == cs;
      WithPropChildrenTwice(p, cs1, cs);
      WithOwnPropChildren(p);
    }
  }
}
