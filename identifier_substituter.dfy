/** IdentifierSubstituter: renames every identifier token of a tree by a name-to-name map,
    with no regard to scope, so binding occurrences (fields, formals, method and function
    names, labels) are renamed as well as uses. */
module IdentifierSubstituter {
  import opened Wrappers
  import opened Syntax

  type Renaming = map<string, string>

  function Ren(x: string, m: Renaming): (r: string)
    ensures x in m ==> r == m[x]
    ensures x !in m ==> r == x
  {
    if x in m then m[x] else x
  }

  function RenameIds(ids: seq<string>, m: Renaming): (r: seq<string>)
    ensures |r| == |ids| && forall i :: 0 <= i < |r| ==> r[i] == Ren(ids[i], m)
  {
    seq(|ids|, i requires 0 <= i < |ids| => Ren(ids[i], m))
  }

  function RenameFormals(fs: seq<FormalParam>, m: Renaming): seq<FormalParam>
  {
    if fs == [] then [] else [FormalParam(Ren(fs[0].id, m), fs[0].annotation)] + RenameFormals(fs[1..], m)
  }

  function RenameOpt(x: Option<string>, m: Renaming): Option<string>
  {
    if x.Some? then Some(Ren(x.value, m)) else None
  }

  function RenameOptIds(x: Option<seq<string>>, m: Renaming): Option<seq<string>>
  {
    if x.Some? then Some(RenameIds(x.value, m)) else None
  }

  function Rename(e: Expr, m: Renaming): Expr
  {
    match e
    case Lookup(x) => Lookup(Ren(x, m))
    case Literal(_) => e
    case Func(n, args) => Func(Ren(n, m), RenameArgs(args, m))
    case Invoke(t, n, args, cls) => Invoke(Rename(t, m), Ren(n, m), RenameArgs(args, m), RenameOptIds(cls, m))
    case New(c, ps, ms) => New(RenameOpt(c, m), RenameParams(ps, m), RenameMethods(ms, m))
    case Paren(lbl, x) => Paren(RenameOpt(lbl, m), Rename(x, m))
    case Ref(x) => Ref(Rename(x, m))
    case MapLookup(a, i) => MapLookup(Rename(a, m), Rename(i, m))
    case MapUpdate(a, i, v) => MapUpdate(Rename(a, m), Rename(i, m), Rename(v, m))
    case Hole => e
    case DotDotDot => e
    case ToBits(x) => ToBits(Rename(x, m))
    case Assert(p) => Assert(RenameProp(p, m))
    case Admit(p) => Admit(RenameProp(p, m))
    case Product(a, op, b) => Product(Rename(a, m), op, Rename(b, m))
    case Sum(a, op, b) => Sum(Rename(a, m), op, Rename(b, m))
    case RelOp(a, op, b) => RelOp(Rename(a, m), op, Rename(b, m))
    case Not(x) => Not(Rename(x, m))
    case Assign(t, v) => Assign(Ren(t, m), Rename(v, m))
    case Seq(a, b) => Seq(Rename(a, m), Rename(b, m))
    case LogicOp(a, op, b) => LogicOp(Rename(a, m), op, Rename(b, m))
    case Ternary(c, a, b) => Ternary(Rename(c, m), Rename(a, m), Rename(b, m))
  }

  function RenameArgs(args: seq<Expr>, m: Renaming): seq<Expr>
  {
    if args == [] then [] else [Rename(args[0], m)] + RenameArgs(args[1..], m)
  }

  function RenameParams(ps: seq<NewParam>, m: Renaming): seq<NewParam>
  {
    if ps == [] then [] else [NewParam(Ren(ps[0].id, m), Rename(ps[0].value, m))] + RenameParams(ps[1..], m)
  }

  function RenameMethods(ms: seq<MethodDef>, m: Renaming): seq<MethodDef>
  {
    if ms == [] then []
    else
      var body := if ms[0].body.Some? then Some(Rename(ms[0].body.value, m)) else None;
      [MethodDef(Ren(ms[0].name, m), RenameFormals(ms[0].formals, m), body)] + RenameMethods(ms[1..], m)
  }

  function RenameProp(p: Prop, m: Renaming): Prop
  {
    match p
    case FieldsEqualPositional => p
    case FieldsEqualExcept(ex) => FieldsEqualExcept(RenameOptIds(ex, m))
    case PToBits(q) => PToBits(RenameProp(q, m))
    case IsBits(q) => IsBits(RenameProp(q, m))
    case PEnv(ps) => PEnv(RenameArgs(ps, m))
    case ObjEq(a, b) => ObjEq(RenameProp(a, m), RenameProp(b, m))
    case PLiteral(_) => p
    case PSum(a, op, b) => PSum(RenameProp(a, m), op, RenameProp(b, m))
    case PProduct(a, op, b) => PProduct(RenameProp(a, m), op, RenameProp(b, m))
    case Independence(h, a, b) => Independence(RenameProp(h, m), RenameProp(a, m), RenameProp(b, m))
    case ObjectIs(o, c) => ObjectIs(RenameProp(o, m), Ren(c, m))
    case FrameAll => p
    case Frame(a, b) => Frame(RenameProp(a, m), RenameProp(b, m))
    case FrameHeap(h1, h2, a, b) =>
      FrameHeap(RenameProp(h1, m), RenameProp(h2, m), RenameProp(a, m), RenameProp(b, m))
    case FromHeapHeap(h, r) => FromHeapHeap(RenameProp(h, m), RenameProp(r, m))
    case ObjLr(_) => p
    case HeapLr(_) => p
    case FromHeapObject(h, r) => FromHeapObject(RenameProp(h, m), RenameProp(r, m))
    case PLookup(x) => PLookup(Ren(x, m))
    case PFunc(n, args) => PFunc(Ren(n, m), RenamePropArgs(args, m))
    case PParen(q) => PParen(RenameProp(q, m))
    case PMapLookup(a, i) => PMapLookup(RenameProp(a, m), RenameProp(i, m))
    case PMapUpdate(a, i, v) => PMapUpdate(RenameProp(a, m), RenameProp(i, m), RenameProp(v, m))
    case ObjectLookup(o, f) => ObjectLookup(RenameProp(o, m), Ren(f, m))
    case PRelOp(a, op, b) => PRelOp(RenameProp(a, m), op, RenameProp(b, m))
    case Quantified(q, fs, body) => Quantified(q, RenameFormals(fs, m), RenameProp(body, m))
    case PLogicOp(a, op, b) => PLogicOp(RenameProp(a, m), op, RenameProp(b, m))
    case PNot(q) => PNot(RenameProp(q, m))
  }

  function RenamePropArgs(args: seq<Prop>, m: Renaming): seq<Prop>
  {
    if args == [] then [] else [RenameProp(args[0], m)] + RenamePropArgs(args[1..], m)
  }

  // ---------------------------------------------------------------------------
  // A map whose targets are not themselves keys leaves no mapped identifier behind
  // ---------------------------------------------------------------------------

  /** The targets of m are not renamed again. */
  predicate Settled(m: Renaming)
  {
    forall x :: x in m ==> m[x] !in m
  }

  lemma RenNotMapped(x: string, m: Renaming)
    requires Settled(m)
    ensures Ren(x, m) !in m
  {
  }

  lemma {:induction false} IdsEliminated(ids: seq<string>, m: Renaming)
    requires Settled(m)
    ensures SetOf(RenameIds(ids, m)) !! m.Keys
  {
    forall i | 0 <= i < |ids| ensures RenameIds(ids, m)[i] !in m {
      RenNotMapped(ids[i], m);
    }
  }

  lemma {:induction false} FormalsEliminated(fs: seq<FormalParam>, m: Renaming)
    requires Settled(m)
    ensures SetOf(FormalIds(RenameFormals(fs, m))) !! m.Keys
    decreases fs
  {
    if fs != [] {
      FormalsEliminated(fs[1..], m);
      var rest := FormalIds(RenameFormals(fs[1..], m));
      var f := FormalIds(RenameFormals(fs, m));
      assert f == [Ren(fs[0].id, m)] + rest;
      RenNotMapped(fs[0].id, m);
      forall i | 0 <= i < |f| ensures f[i] !in m {
        if i > 0 {
          assert f[i] == rest[i - 1];
        }
      }
    }
  }

  /** Every identifier token of the result is unmapped: each mapped token was replaced. */
  lemma {:induction false} RenameEliminates(e: Expr, m: Renaming)
    requires Settled(m)
    ensures Identifiers(Rename(e, m)) !! m.Keys
    decreases e, 1
  {
    if e.Product? || e.Sum? || e.RelOp? || e.LogicOp? || e.Seq? {
      BinaryEliminated(e, m);
    } else if e.Func? || e.Invoke? || e.New? || e.Assert? || e.Admit? {
      NestedEliminated(e, m);
    } else {
      RestEliminated(e, m);
    }
  }

  lemma {:induction false} BinaryEliminated(e: Expr, m: Renaming)
    requires Settled(m)
    requires e.Product? || e.Sum? || e.RelOp? || e.LogicOp? || e.Seq?
    ensures Identifiers(Rename(e, m)) !! m.Keys
    decreases e, 0
  {
    RenameEliminates(e.left, m);
    RenameEliminates(e.right, m);
  }

  lemma {:induction false} RestEliminated(e: Expr, m: Renaming)
    requires Settled(m)
    requires !(e.Product? || e.Sum? || e.RelOp? || e.LogicOp? || e.Seq?)
    requires !(e.Func? || e.Invoke? || e.New? || e.Assert? || e.Admit?)
    ensures Identifiers(Rename(e, m)) !! m.Keys
    decreases e, 0
  {
    match e
    case Lookup(x) => RenNotMapped(x, m);
    case Assign(t, v) => RenNotMapped(t, m); RenameEliminates(v, m);
    case Paren(lbl, x) =>
      if lbl.Some? { RenNotMapped(lbl.value, m); }
      RenameEliminates(x, m);
    case Ref(x) => RenameEliminates(x, m);
    case ToBits(x) => RenameEliminates(x, m);
    case Not(x) => RenameEliminates(x, m);
    case MapLookup(a, i) => RenameEliminates(a, m); RenameEliminates(i, m);
    case MapUpdate(a, i, v) => RenameEliminates(a, m); RenameEliminates(i, m); RenameEliminates(v, m);
    case Ternary(c, a, b) => RenameEliminates(c, m); RenameEliminates(a, m); RenameEliminates(b, m);
    case _ =>
  }

  lemma {:induction false} NestedEliminated(e: Expr, m: Renaming)
    requires Settled(m)
    requires e.Func? || e.Invoke? || e.New? || e.Assert? || e.Admit?
    ensures Identifiers(Rename(e, m)) !! m.Keys
    decreases e, 0
  {
    match e
    case Func(n, args) => RenNotMapped(n, m); ArgsEliminated(args, m);
    case Invoke(t, n, args, cls) =>
      RenameEliminates(t, m); RenNotMapped(n, m); ArgsEliminated(args, m);
      if cls.Some? { IdsEliminated(cls.value, m); }
    case New(c, ps, ms) =>
      if c.Some? { RenNotMapped(c.value, m); }
      ParamsEliminated(ps, m);
      MethodsEliminated(ms, m);
    case Assert(p) => PropEliminated(p, m);
    case Admit(p) => PropEliminated(p, m);
  }

  lemma {:induction false} ArgsEliminated(args: seq<Expr>, m: Renaming)
    requires Settled(m)
    ensures IdentifiersOfArgs(RenameArgs(args, m)) !! m.Keys
    decreases args, 0
  {
    if args != [] {
      var r := RenameArgs(args, m);
      assert r[0] == Rename(args[0], m) && r[1..] == RenameArgs(args[1..], m);
      RenameEliminates(args[0], m);
      ArgsEliminated(args[1..], m);
    }
  }

  lemma {:induction false} ParamsEliminated(ps: seq<NewParam>, m: Renaming)
    requires Settled(m)
    ensures IdentifiersOfParams(RenameParams(ps, m)) !! m.Keys
    decreases ps, 0
  {
    if ps != [] {
      var r := RenameParams(ps, m);
      assert r[0] == NewParam(Ren(ps[0].id, m), Rename(ps[0].value, m)) && r[1..] == RenameParams(ps[1..], m);
      RenNotMapped(ps[0].id, m);
      RenameEliminates(ps[0].value, m);
      ParamsEliminated(ps[1..], m);
    }
  }

  lemma {:induction false} MethodsEliminated(ms: seq<MethodDef>, m: Renaming)
    requires Settled(m)
    ensures IdentifiersOfMethods(RenameMethods(ms, m)) !! m.Keys
    decreases ms, 0
  {
    if ms != [] {
      var r := RenameMethods(ms, m);
      assert r[1..] == RenameMethods(ms[1..], m);
      assert r[0].name == Ren(ms[0].name, m) && r[0].formals == RenameFormals(ms[0].formals, m);
      RenNotMapped(ms[0].name, m);
      FormalsEliminated(ms[0].formals, m);
      if ms[0].body.Some? {
        assert r[0].body == Some(Rename(ms[0].body.value, m));
        RenameEliminates(ms[0].body.value, m);
      }
      MethodsEliminated(ms[1..], m);
    }
  }

  lemma {:induction false} PropEliminated(p: Prop, m: Renaming)
    requires Settled(m)
    ensures IdentifiersOfProp(RenameProp(p, m)) !! m.Keys
    decreases p, 2
  {
    match p
    case FieldsEqualExcept(ex) => if ex.Some? { IdsEliminated(ex.value, m); }
    case PEnv(ps) => ArgsEliminated(ps, m);
    case ObjectIs(o, c) => PropEliminated(o, m); RenNotMapped(c, m);
    case PLookup(x) => RenNotMapped(x, m);
    case PFunc(n, args) => RenNotMapped(n, m); PropArgsEliminated(args, m);
    case ObjectLookup(o, f) => PropEliminated(o, m); RenNotMapped(f, m);
    case Quantified(_, fs, body) => FormalsEliminated(fs, m); PropEliminated(body, m);
    case _ => PlainPropEliminated(p, m);
  }

  lemma {:induction false} PlainPropEliminated(p: Prop, m: Renaming)
    requires Settled(m)
    requires !p.FieldsEqualExcept? && !p.PEnv? && !p.ObjectIs? && !p.PLookup? && !p.PFunc?
    requires !p.ObjectLookup? && !p.Quantified?
    ensures IdentifiersOfProp(RenameProp(p, m)) !! m.Keys
    decreases p, 1
  {
    if p.PToBits? || p.IsBits? || p.PParen? || p.PNot? {
      UnaryPropEliminated(p, m);
    } else if p.ObjEq? || p.Frame? || p.PSum? || p.PProduct? || p.PRelOp? || p.PLogicOp? {
      BinaryPropEliminated(p, m);
    } else if p.FromHeapHeap? || p.FromHeapObject? {
      PropEliminated(p.heap, m);
      PropEliminated(p.ref, m);
    } else if p.PMapLookup? || p.PMapUpdate? {
      MapPropEliminated(p, m);
    } else if p.Independence? || p.FrameHeap? {
      HeapPropEliminated(p, m);
    }
  }

  lemma {:induction false} UnaryPropEliminated(p: Prop, m: Renaming)
    requires Settled(m)
    requires p.PToBits? || p.IsBits? || p.PParen? || p.PNot?
    ensures IdentifiersOfProp(RenameProp(p, m)) !! m.Keys
    decreases p, 0
  {
    PropEliminated(p.p, m);
  }

  lemma {:induction false} BinaryPropEliminated(p: Prop, m: Renaming)
    requires Settled(m)
    requires p.ObjEq? || p.Frame? || p.PSum? || p.PProduct? || p.PRelOp? || p.PLogicOp?
    ensures IdentifiersOfProp(RenameProp(p, m)) !! m.Keys
    decreases p, 0
  {
    PropEliminated(p.left, m);
    PropEliminated(p.right, m);
  }

  lemma {:induction false} MapPropEliminated(p: Prop, m: Renaming)
    requires Settled(m)
    requires p.PMapLookup? || p.PMapUpdate?
    ensures IdentifiersOfProp(RenameProp(p, m)) !! m.Keys
    decreases p, 0
  {
    match p
    case PMapLookup(a, i) => PropEliminated(a, m); PropEliminated(i, m);
    case PMapUpdate(a, i, v) => PropEliminated(a, m); PropEliminated(i, m); PropEliminated(v, m);
  }

  lemma {:induction false} HeapPropEliminated(p: Prop, m: Renaming)
    requires Settled(m)
    requires p.Independence? || p.FrameHeap?
    ensures IdentifiersOfProp(RenameProp(p, m)) !! m.Keys
    decreases p, 0
  {
    match p
    case Independence(h, a, b) => PropEliminated(h, m); PropEliminated(a, m); PropEliminated(b, m);
    case FrameHeap(h1, h2, a, b) =>
      PropEliminated(h1, m); PropEliminated(h2, m); PropEliminated(a, m); PropEliminated(b, m);
  }

  lemma {:induction false} PropArgsEliminated(args: seq<Prop>, m: Renaming)
    requires Settled(m)
    ensures IdentifiersOfPropArgs(RenamePropArgs(args, m)) !! m.Keys
    decreases args, 0
  {
    if args != [] {
      var r := RenamePropArgs(args, m);
      assert r[0] == RenameProp(args[0], m) && r[1..] == RenamePropArgs(args[1..], m);
      PropEliminated(args[0], m);
      PropArgsEliminated(args[1..], m);
    }
  }

  // ---------------------------------------------------------------------------
  // Identifiers without a mapping are unchanged
  // ---------------------------------------------------------------------------

  lemma {:induction false} IdsUnmapped(ids: seq<string>, m: Renaming)
    requires SetOf(ids) !! m.Keys
    ensures RenameIds(ids, m) == ids
  {
    forall i | 0 <= i < |ids| ensures RenameIds(ids, m)[i] == ids[i] {
      assert ids[i] in SetOf(ids);
    }
  }

  lemma {:induction false} FormalsUnmapped(fs: seq<FormalParam>, m: Renaming)
    requires SetOf(FormalIds(fs)) !! m.Keys
    ensures RenameFormals(fs, m) == fs
    decreases fs
  {
    if fs != [] {
      var f := FormalIds(fs);
      assert f[0] == fs[0].id && f[1..] == FormalIds(fs[1..]);
      assert f[0] in SetOf(f);
      assert SetOf(FormalIds(fs[1..])) <= SetOf(f) by {
        forall x | x in SetOf(FormalIds(fs[1..])) ensures x in SetOf(f) {
          var j :| 0 <= j < |f[1..]| && f[1..][j] == x;
          assert f[j + 1] == x;
        }
      }
      FormalsUnmapped(fs[1..], m);
    }
  }

  /** A tree none of whose identifiers is mapped is left as it is. */
  lemma {:induction false} RenameUnmapped(e: Expr, m: Renaming)
    requires Identifiers(e) !! m.Keys
    ensures Rename(e, m) == e
    decreases e, 1
  {
    if e.Product? || e.Sum? || e.RelOp? || e.LogicOp? || e.Seq? {
      RenameUnmapped(e.left, m);
      RenameUnmapped(e.right, m);
    } else if e.Func? || e.Invoke? || e.New? || e.Assert? || e.Admit? {
      NestedUnmapped(e, m);
    } else {
      RestUnmapped(e, m);
    }
  }

  lemma {:induction false} RestUnmapped(e: Expr, m: Renaming)
    requires Identifiers(e) !! m.Keys
    requires !(e.Product? || e.Sum? || e.RelOp? || e.LogicOp? || e.Seq?)
    requires !(e.Func? || e.Invoke? || e.New? || e.Assert? || e.Admit?)
    ensures Rename(e, m) == e
    decreases e, 0
  {
    match e
    case Assign(t, v) => RenameUnmapped(v, m);
    case Paren(lbl, x) => RenameUnmapped(x, m);
    case Ref(x) => RenameUnmapped(x, m);
    case ToBits(x) => RenameUnmapped(x, m);
    case Not(x) => RenameUnmapped(x, m);
    case MapLookup(a, i) => RenameUnmapped(a, m); RenameUnmapped(i, m);
    case MapUpdate(a, i, v) => RenameUnmapped(a, m); RenameUnmapped(i, m); RenameUnmapped(v, m);
    case Ternary(c, a, b) => RenameUnmapped(c, m); RenameUnmapped(a, m); RenameUnmapped(b, m);
    case _ =>
  }

  lemma {:induction false} NestedUnmapped(e: Expr, m: Renaming)
    requires Identifiers(e) !! m.Keys
    requires e.Func? || e.Invoke? || e.New? || e.Assert? || e.Admit?
    ensures Rename(e, m) == e
    decreases e, 0
  {
    match e
    case Func(n, args) => ArgsUnmapped(args, m);
    case Invoke(t, n, args, cls) =>
      RenameUnmapped(t, m); ArgsUnmapped(args, m);
      if cls.Some? { IdsUnmapped(cls.value, m); }
    case New(c, ps, ms) => ParamsUnmapped(ps, m); MethodsUnmapped(ms, m);
    case Assert(p) => PropUnmapped(p, m);
    case Admit(p) => PropUnmapped(p, m);
  }

  lemma {:induction false} ArgsUnmapped(args: seq<Expr>, m: Renaming)
    requires IdentifiersOfArgs(args) !! m.Keys
    ensures RenameArgs(args, m) == args
    decreases args, 0
  {
    if args != [] {
      RenameUnmapped(args[0], m);
      ArgsUnmapped(args[1..], m);
    }
  }

  lemma {:induction false} ParamsUnmapped(ps: seq<NewParam>, m: Renaming)
    requires IdentifiersOfParams(ps) !! m.Keys
    ensures RenameParams(ps, m) == ps
    decreases ps, 0
  {
    if ps != [] {
      RenameUnmapped(ps[0].value, m);
      ParamsUnmapped(ps[1..], m);
    }
  }

  lemma {:induction false} MethodsUnmapped(ms: seq<MethodDef>, m: Renaming)
    requires IdentifiersOfMethods(ms) !! m.Keys
    ensures RenameMethods(ms, m) == ms
    decreases ms, 0
  {
    if ms != [] {
      FormalsUnmapped(ms[0].formals, m);
      if ms[0].body.Some? {
        RenameUnmapped(ms[0].body.value, m);
      }
      MethodsUnmapped(ms[1..], m);
    }
  }

  lemma {:induction false} PropUnmapped(p: Prop, m: Renaming)
    requires IdentifiersOfProp(p) !! m.Keys
    ensures RenameProp(p, m) == p
    decreases p, 2
  {
    match p
    case FieldsEqualExcept(ex) => if ex.Some? { IdsUnmapped(ex.value, m); }
    case PEnv(ps) => ArgsUnmapped(ps, m);
    case ObjectIs(o, c) => PropUnmapped(o, m);
    case PFunc(n, args) => PropArgsUnmapped(args, m);
    case ObjectLookup(o, f) => PropUnmapped(o, m);
    case Quantified(_, fs, body) => FormalsUnmapped(fs, m); PropUnmapped(body, m);
    case _ => PlainPropUnmapped(p, m);
  }

  lemma {:induction false} PlainPropUnmapped(p: Prop, m: Renaming)
    requires IdentifiersOfProp(p) !! m.Keys
    requires !p.FieldsEqualExcept? && !p.PEnv? && !p.ObjectIs? && !p.PFunc?
    requires !p.ObjectLookup? && !p.Quantified?
    ensures RenameProp(p, m) == p
    decreases p, 1
  {
    if p.FromHeapHeap? || p.FromHeapObject? || p.PParen? || p.PMapLookup? || p.PMapUpdate?
      || p.PRelOp? || p.PLogicOp? || p.PNot?
    {
      OtherPropUnmapped(p, m);
    } else {
      match p
      case PToBits(q) => PropUnmapped(q, m);
      case IsBits(q) => PropUnmapped(q, m);
      case ObjEq(a, b) => PropUnmapped(a, m); PropUnmapped(b, m);
      case PSum(a, _, b) => PropUnmapped(a, m); PropUnmapped(b, m);
      case PProduct(a, _, b) => PropUnmapped(a, m); PropUnmapped(b, m);
      case Independence(h, a, b) => PropUnmapped(h, m); PropUnmapped(a, m); PropUnmapped(b, m);
      case Frame(a, b) => PropUnmapped(a, m); PropUnmapped(b, m);
      case FrameHeap(h1, h2, a, b) =>
        PropUnmapped(h1, m); PropUnmapped(h2, m); PropUnmapped(a, m); PropUnmapped(b, m);
      case _ =>
    }
  }

  lemma {:induction false} OtherPropUnmapped(p: Prop, m: Renaming)
    requires IdentifiersOfProp(p) !! m.Keys
    requires !p.FieldsEqualExcept? && !p.PEnv? && !p.ObjectIs? && !p.PFunc?
    requires !p.ObjectLookup? && !p.Quantified?
    requires !p.PToBits? && !p.IsBits? && !p.ObjEq? && !p.PSum? && !p.PProduct?
    requires !p.Independence? && !p.Frame? && !p.FrameHeap?
    ensures RenameProp(p, m) == p
    decreases p, 0
  {
    match p
    case FromHeapHeap(h, r) => PropUnmapped(h, m); PropUnmapped(r, m);
    case FromHeapObject(h, r) => PropUnmapped(h, m); PropUnmapped(r, m);
    case PParen(q) => PropUnmapped(q, m);
    case PMapLookup(a, i) => PropUnmapped(a, m); PropUnmapped(i, m);
    case PMapUpdate(a, i, v) => PropUnmapped(a, m); PropUnmapped(i, m); PropUnmapped(v, m);
    case PRelOp(a, _, b) => PropUnmapped(a, m); PropUnmapped(b, m);
    case PLogicOp(a, _, b) => PropUnmapped(a, m); PropUnmapped(b, m);
    case PNot(q) => PropUnmapped(q, m);
    case _ =>
  }

  lemma {:induction false} PropArgsUnmapped(args: seq<Prop>, m: Renaming)
    requires IdentifiersOfPropArgs(args) !! m.Keys
    ensures RenamePropArgs(args, m) == args
    decreases args, 0
  {
    if args != [] {
      PropUnmapped(args[0], m);
      PropArgsUnmapped(args[1..], m);
    }
  }

  /** Binding occurrences are renamed with their uses: in `new (a := 1) { m() { a } }`
      renaming a to b renames the field as well as the lookup in the method. */
  lemma RenamesBindings()
    ensures Rename(New(None, [NewParam("a", Literal(Numeric("1")))], [MethodDef("m", [], Some(Lookup("a")))]),
                   map["a" := "b"])
         == New(None, [NewParam("b", Literal(Numeric("1")))], [MethodDef("m", [], Some(Lookup("b")))])
  {
    var m := map["a" := "b"];
    var ps := [NewParam("a", Literal(Numeric("1")))];
    var ms := [MethodDef("m", [], Some(Lookup("a")))];
    assert RenameParams(ps[1..], m) == [];
    assert RenameMethods(ms[1..], m) == [];
    assert RenameFormals([], m) == [];
  }
}
