/** LocalVariableDeclCollector: before a scope is checked, every assignment target in it
    that no frame declares yet is declared, as Opaque, in the innermost frame. */
module LocalVariableDeclCollector {
  import opened Wrappers
  import opened Types
  import opened Syntax
  import opened SymbolTable

  /** The assignment targets of an expression, in the depth-first order in which the
      traversal leaves the assignments (the value before the assignment itself). */
  function AssignTargets(e: Expr): seq<string>
  {
    match e
    case Func(_, args) => TargetsOfArgs(args)
    case Invoke(t, _, args, _) => AssignTargets(t) + TargetsOfArgs(args)
    case New(_, ps, ms) => TargetsOfParams(ps) + TargetsOfMethods(ms)
    case Paren(_, x) => AssignTargets(x)
    case Ref(x) => AssignTargets(x)
    case MapLookup(m, i) => AssignTargets(m) + AssignTargets(i)
    case MapUpdate(m, i, v) => AssignTargets(m) + AssignTargets(i) + AssignTargets(v)
    case ToBits(x) => AssignTargets(x)
    case Assert(p) => TargetsOfProp(p)
    case Admit(p) => TargetsOfProp(p)
    case Product(a, _, b) => AssignTargets(a) + AssignTargets(b)
    case Sum(a, _, b) => AssignTargets(a) + AssignTargets(b)
    case RelOp(a, _, b) => AssignTargets(a) + AssignTargets(b)
    case Not(x) => AssignTargets(x)
    case Assign(t, v) => AssignTargets(v) + [t]
    case Seq(a, b) => AssignTargets(a) + AssignTargets(b)
    case LogicOp(a, _, b) => AssignTargets(a) + AssignTargets(b)
    case Ternary(c, a, b) => AssignTargets(c) + AssignTargets(a) + AssignTargets(b)
    case _ => []
  }

  function TargetsOfArgs(args: seq<Expr>): seq<string>
  {
    if args == [] then [] else AssignTargets(args[0]) + TargetsOfArgs(args[1..])
  }

  function TargetsOfParams(ps: seq<NewParam>): seq<string>
  {
    if ps == [] then [] else AssignTargets(ps[0].value) + TargetsOfParams(ps[1..])
  }

  function TargetsOfMethods(ms: seq<MethodDef>): seq<string>
  {
    if ms == [] then []
    else (if ms[0].body.Some? then AssignTargets(ms[0].body.value) else []) + TargetsOfMethods(ms[1..])
  }

  function TargetsOfProp(p: Prop): seq<string>
  {
    match p
    case PToBits(q) => TargetsOfProp(q)
    case IsBits(q) => TargetsOfProp(q)
    case PEnv(ps) => TargetsOfArgs(ps)
    case ObjEq(a, b) => TargetsOfProp(a) + TargetsOfProp(b)
    case PSum(a, _, b) => TargetsOfProp(a) + TargetsOfProp(b)
    case PProduct(a, _, b) => TargetsOfProp(a) + TargetsOfProp(b)
    case Independence(h, a, b) => TargetsOfProp(h) + TargetsOfProp(a) + TargetsOfProp(b)
    case ObjectIs(o, _) => TargetsOfProp(o)
    case Frame(a, b) => TargetsOfProp(a) + TargetsOfProp(b)
    case FrameHeap(h1, h2, a, b) => TargetsOfProp(h1) + TargetsOfProp(h2) + TargetsOfProp(a) + TargetsOfProp(b)
    case FromHeapHeap(h, r) => TargetsOfProp(h) + TargetsOfProp(r)
    case FromHeapObject(h, r) => TargetsOfProp(h) + TargetsOfProp(r)
    case PFunc(_, args) => TargetsOfPropArgs(args)
    case PParen(q) => TargetsOfProp(q)
    case PMapLookup(m, i) => TargetsOfProp(m) + TargetsOfProp(i)
    case PMapUpdate(m, i, v) => TargetsOfProp(m) + TargetsOfProp(i) + TargetsOfProp(v)
    case ObjectLookup(o, _) => TargetsOfProp(o)
    case PRelOp(a, _, b) => TargetsOfProp(a) + TargetsOfProp(b)
    case Quantified(_, _, body) => TargetsOfProp(body)
    case PLogicOp(a, _, b) => TargetsOfProp(a) + TargetsOfProp(b)
    case PNot(q) => TargetsOfProp(q)
    case _ => []
  }

  function TargetsOfPropArgs(args: seq<Prop>): seq<string>
  {
    if args == [] then [] else TargetsOfProp(args[0]) + TargetsOfPropArgs(args[1..])
  }

  /** outAAssignAssignExpr: declare the target as Opaque unless some frame has it. */
  function DeclareIfUnknown(sc: Scopes, t: string): Scopes
    requires sc != []
  {
    if ReferenceAllowed(sc, t) then sc else AddValue(sc, t, Some(Opaque))
  }

  /** The table after visiting targets ts in order. */
  function DeclareAll(sc: Scopes, ts: seq<string>): (r: Scopes)
    requires sc != []
    ensures |r| == |sc| && r[1..] == sc[1..] && r[0].kind == sc[0].kind
    decreases |ts|
  {
    if ts == [] then sc
    else DeclareIfUnknown(DeclareAll(sc, ts[..|ts| - 1]), ts[|ts| - 1])
  }

  /** The collector's effect on the table: only the innermost frame grows, by exactly
      the targets no frame declared, each typed Opaque; every earlier lookup answers
      as before and every target is now referenceable. */
  lemma {:induction false} DeclareAllEffect(sc: Scopes, ts: seq<string>)
    requires sc != []
    ensures DeclareAll(sc, ts)[1..] == sc[1..]
    ensures DeclareAll(sc, ts)[0].ids.Keys ==
      sc[0].ids.Keys + (set t | t in ts && !ReferenceAllowed(sc, t))
    ensures forall s :: ReferenceAllowed(sc, s) ==> TypeOf(DeclareAll(sc, ts), s) == TypeOf(sc, s)
    ensures forall s :: s in ts && !ReferenceAllowed(sc, s) ==> TypeOf(DeclareAll(sc, ts), s) == Some(Opaque)
    ensures forall s :: s in ts ==> ReferenceAllowed(DeclareAll(sc, ts), s)
    ensures forall s :: ReferenceAllowed(DeclareAll(sc, ts), s) <==> ReferenceAllowed(sc, s) || s in ts
    decreases |ts|
  {
    if ts != [] {
      var n := |ts| - 1;
      var prev := DeclareAll(sc, ts[..n]);
      DeclareAllEffect(sc, ts[..n]);
      assert ts == ts[..n] + [ts[n]];
      forall s ensures (s in ts) <==> (s in ts[..n] || s == ts[n]) {
        if s in ts {
          var k :| 0 <= k < |ts| && ts[k] == s;
          if k < n { assert ts[..n][k] == s; }
        }
      }
      if !ReferenceAllowed(prev, ts[n]) {
        forall s ensures TypeOf(AddValue(prev, ts[n], Some(Opaque)), s) ==
                         (if s == ts[n] then Some(Opaque) else TypeOf(prev, s))
          && (ReferenceAllowed(AddValue(prev, ts[n], Some(Opaque)), s) <==> ReferenceAllowed(prev, s) || s == ts[n])
        {
          AddValueEffect(prev, ts[n], Some(Opaque), s);
          ReferenceAllowedIffDeclared(prev, s);
          ReferenceAllowedIffDeclared(AddValue(prev, ts[n], Some(Opaque)), s);
        }
      }
    }
  }

  /** The collector run over an expression with the given table. */
  method Collect(table: Table, e: Expr)
    requires table.Valid() && table.frames != []
    modifies table.frames[0]
    ensures table.Valid() && table.frames == old(table.frames)
    ensures table.Scopes() == DeclareAll(old(table.Scopes()), AssignTargets(e))
  {
    ghost var start := table.Scopes();
    var ts := AssignTargets(e);
    var i := 0;
    while i < |ts|
      invariant 0 <= i <= |ts| && table.Valid() && table.frames == old(table.frames)
      invariant table.Scopes() == DeclareAll(start, ts[..i])
    {
      assert ts[..i + 1][..i] == ts[..i];
      var known := table.VarReferenceAllowed(ts[i]);
      if !known {
        table.AddSymbol(ts[i], Some(Opaque));
      }
      i := i + 1;
    }
    assert ts[..i] == ts;
  }
}
