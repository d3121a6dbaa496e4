/** VariableReferenceCollector: the names a tree looks up without binding them itself.
    The walk starts from an empty table and keeps its own frames: a `new` and each of its
    parameters open a frame, fields are bound after their own parameter, methods open a
    frame holding their assignment targets and formals, and the formals of a quantified
    proposition are bound in the frame that encloses it. A lookup is reported when no
    frame binds its name at the point where it is visited. */
module VariableReferenceCollector {
  import opened Wrappers
  import opened Types
  import opened Syntax
  import opened SymbolTable
  import LocalVariableDeclCollector
  import IdentifierAndTypeExtractor

  type Found = (set<string>, Scopes)

  /** a is b after a step that touches only the innermost frame: the same frames below
      it, and an innermost frame holding at least the names it held. */
  ghost predicate Extends(a: Scopes, b: Scopes)
  {
    |a| == |b| && (a != [] ==> a[1..] == b[1..] && b[0].ids.Keys <= a[0].ids.Keys)
  }

  /** What every step of the walk keeps: the names reported are identifiers of the part
      walked, none of them is bound at entry, and only the innermost frame grows. */
  ghost predicate Sound(r: Outcome<Found>, ids: set<string>, sc: Scopes)
  {
    r.Success? ==> r.value.0 <= ids && r.value.0 !! AllSymbols(sc) && Extends(r.value.1, sc)
  }

  lemma ExtendsSymbols(a: Scopes, b: Scopes)
    requires Extends(a, b)
    ensures AllSymbols(b) <= AllSymbols(a)
  {
    if a != [] {
      AllSymbolsCons(a);
      AllSymbolsCons(b);
    }
  }

  lemma ExtendsTrans(a: Scopes, b: Scopes, c: Scopes)
    requires Extends(a, b) && Extends(b, c)
    ensures Extends(a, c)
  {
  }

  lemma ExtendsPop(a: Scopes, b: Scopes)
    requires Extends(a, b) && a != []
    ensures a[1..] == b[1..]
  {
  }

  lemma ExtendsPush(sc: Scopes, f: FrameValue)
    ensures AllSymbols(sc) <= AllSymbols([f] + sc)
  {
    AllSymbolsCons([f] + sc);
    assert ([f] + sc)[1..] == sc;
  }

  lemma ExtendsAdd(sc: Scopes, s: string, t: Option<Type>)
    requires sc != []
    ensures Extends(AddValue(sc, s, t), sc)
  {
  }

  lemma ExtendsDeclare(sc: Scopes, ts: seq<string>)
    requires sc != []
    ensures Extends(LocalVariableDeclCollector.DeclareAll(sc, ts), sc)
  {
    LocalVariableDeclCollector.DeclareAllEffect(sc, ts);
  }

  /** A frame of its own (pushFrame(false)). */
  function Opened(sc: Scopes): (r: Scopes)
    ensures r != [] && r[1..] == sc && AllSymbols(sc) <= AllSymbols(r)
  {
    ExtendsPush(sc, FrameValue(Mutable, map[]));
    [FrameValue(Mutable, map[])] + sc
  }

  /** Two children walked left to right. */
  function Pair(a: Expr, b: Expr, sc: Scopes, parent: Expr): (r: Outcome<Found>)
    requires a < parent && b < parent
    ensures Sound(r, Identifiers(a) + Identifiers(b), sc)
    decreases parent, 0
  {
    var ra :- Refs(a, sc);
    var rb :- Refs(b, ra.1);
    ExtendsSymbols(ra.1, sc);
    ExtendsTrans(rb.1, ra.1, sc);
    Success((ra.0 + rb.0, rb.1))
  }

  function Triple(a: Expr, b: Expr, c: Expr, sc: Scopes, parent: Expr): (r: Outcome<Found>)
    requires a < parent && b < parent && c < parent
    ensures Sound(r, Identifiers(a) + Identifiers(b) + Identifiers(c), sc)
    decreases parent, 1
  {
    var ra :- Refs(a, sc);
    var rbc :- Pair(b, c, ra.1, parent);
    ExtendsSymbols(ra.1, sc);
    ExtendsTrans(rbc.1, ra.1, sc);
    Success((ra.0 + rbc.0, rbc.1))
  }

  /** The names e looks up that no frame of sc, or of e itself, binds; and the frames
      after e. */
  function Refs(e: Expr, sc: Scopes): (r: Outcome<Found>)
    ensures Sound(r, Identifiers(e), sc)
    decreases e, 3
  {
    if e.Lookup? then
      ReferenceAllowedIffDeclared(sc, e.id);
      Success((if ReferenceAllowed(sc, e.id) then {} else {e.id}, sc))
    else if e.Product? || e.Sum? || e.RelOp? || e.LogicOp? || e.Seq? then
      Pair(e.left, e.right, sc, e)
    else if e.MapLookup? || e.MapUpdate? || e.Ternary? || e.Not? || e.Paren? || e.Ref? || e.ToBits? || e.Assign? then
      RefsInner(e, sc)
    else RefsNested(e, sc)
  }

  function RefsInner(e: Expr, sc: Scopes): (r: Outcome<Found>)
    requires e.MapLookup? || e.MapUpdate? || e.Ternary? || e.Not? || e.Paren? || e.Ref? || e.ToBits? || e.Assign?
    ensures Sound(r, Identifiers(e), sc)
    decreases e, 2
  {
    match e
    case MapLookup(m, i) => Pair(m, i, sc, e)
    case MapUpdate(m, i, v) => Triple(m, i, v, sc, e)
    case Ternary(c, a, b) => Triple(c, a, b, sc, e)
    case Not(x) => Refs(x, sc)
    case Paren(_, x) => Refs(x, sc)
    case Ref(x) => Refs(x, sc)
    case ToBits(x) => Refs(x, sc)
    case Assign(_, v) => Refs(v, sc)
  }

  function RefsNested(e: Expr, sc: Scopes): (r: Outcome<Found>)
    requires !e.Lookup? && !e.Product? && !e.Sum? && !e.RelOp? && !e.LogicOp? && !e.Seq?
    requires !e.MapLookup? && !e.MapUpdate? && !e.Ternary? && !e.Not? && !e.Paren? && !e.Ref? && !e.ToBits? && !e.Assign?
    ensures Sound(r, Identifiers(e), sc)
    decreases e, 2
  {
    match e
    case Func(_, args) => RefsArgs(args, sc)
    case Invoke(t, _, args, _) =>
      var rt :- Refs(t, sc);
      var ra :- RefsArgs(args, rt.1);
      ExtendsSymbols(rt.1, sc);
      ExtendsTrans(ra.1, rt.1, sc);
      Success((rt.0 + ra.0, ra.1))
    case New(_, ps, ms) =>
      var inner := Opened(sc);
      var rp :- RefsParams(ps, inner);
      var rm :- RefsMethods(ms, rp.1);
      ExtendsSymbols(rp.1, inner);
      ExtendsTrans(rm.1, rp.1, inner);
      ExtendsPop(rm.1, inner);
      Success((rp.0 + rm.0, rm.1[1..]))
    case Assert(p) => RefsProp(p, sc)
    case Admit(p) => RefsProp(p, sc)
    case _ => Success(({}, sc))
  }

  function RefsArgs(args: seq<Expr>, sc: Scopes): (r: Outcome<Found>)
    ensures Sound(r, IdentifiersOfArgs(args), sc)
    decreases args, 0
  {
    if args == [] then Success(({}, sc))
    else
      var r0 :- Refs(args[0], sc);
      var rs :- RefsArgs(args[1..], r0.1);
      ExtendsSymbols(r0.1, sc);
      ExtendsTrans(rs.1, r0.1, sc);
      Success((r0.0 + rs.0, rs.1))
  }

  /** The parameters of a `new`: each opens a frame holding the assignment targets of its
      value, and after it the field is bound, as Opaque, in the `new`'s frame. */
  function RefsParams(ps: seq<NewParam>, sc: Scopes): (r: Outcome<Found>)
    requires sc != []
    ensures Sound(r, IdentifiersOfParams(ps), sc)
    decreases ps, 0
  {
    if ps == [] then Success(({}, sc))
    else
      var frame := LocalVariableDeclCollector.DeclareAll(Opened(sc), LocalVariableDeclCollector.AssignTargets(ps[0].value));
      ExtendsDeclare(Opened(sc), LocalVariableDeclCollector.AssignTargets(ps[0].value));
      ExtendsSymbols(frame, Opened(sc));
      var rv :- Refs(ps[0].value, frame);
      ExtendsTrans(rv.1, frame, Opened(sc));
      ExtendsPop(rv.1, Opened(sc));
      var bound := AddValue(rv.1[1..], ps[0].id, Some(Opaque));
      ExtendsAdd(rv.1[1..], ps[0].id, Some(Opaque));
      ExtendsTrans(bound, rv.1[1..], sc);
      ExtendsSymbols(bound, sc);
      var rs :- RefsParams(ps[1..], bound);
      ExtendsTrans(rs.1, bound, sc);
      Success((rv.0 + rs.0, rs.1))
  }

  /** Binds each formal, untyped, in the innermost frame, after its annotation has been
      read; an annotation the extractor refuses fails, and with no frame to bind in the
      binding is a null pointer. */
  function BindFormals(sc: Scopes, fs: seq<FormalParam>): (r: Outcome<Scopes>)
    ensures r.Success? ==> Extends(r.value, sc)
    decreases fs
  {
    if fs == [] then Success(sc)
    else
      var x :- IdentifierAndTypeExtractor.Extract(fs[0]);
      if sc == [] then NullPointer()
      else
        ExtendsAdd(sc, x.0, None);
        var w :- BindFormals(AddValue(sc, x.0, None), fs[1..]);
        ExtendsTrans(w, AddValue(sc, x.0, None), sc);
        Success(w)
  }

  /** The methods of a `new`: each opens a frame holding the assignment targets of its
      body and its formals; a method without a body is a null pointer. */
  function RefsMethods(ms: seq<MethodDef>, sc: Scopes): (r: Outcome<Found>)
    requires sc != []
    ensures Sound(r, IdentifiersOfMethods(ms), sc)
    decreases ms, 0
  {
    if ms == [] then Success(({}, sc))
    else if ms[0].body.None? then NullPointer()
    else
      var body := ms[0].body.value;
      var declared := LocalVariableDeclCollector.DeclareAll(Opened(sc), LocalVariableDeclCollector.AssignTargets(body));
      ExtendsDeclare(Opened(sc), LocalVariableDeclCollector.AssignTargets(body));
      var frame :- BindFormals(declared, ms[0].formals);
      ExtendsTrans(frame, declared, Opened(sc));
      ExtendsSymbols(frame, Opened(sc));
      var rb :- Refs(body, frame);
      ExtendsTrans(rb.1, frame, Opened(sc));
      ExtendsPop(rb.1, Opened(sc));
      ExtendsSymbols(rb.1[1..], sc);
      var rs :- RefsMethods(ms[1..], rb.1[1..]);
      ExtendsTrans(rs.1, rb.1[1..], sc);
      Success((rb.0 + rs.0, rs.1))
  }

  /** A proposition: only expression lookups inside its env terms are candidates; the
      formals of a quantifier are bound in the enclosing frame, a null pointer when there
      is none. */
  function RefsProp(p: Prop, sc: Scopes): (r: Outcome<Found>)
    ensures Sound(r, IdentifiersOfProp(p), sc)
    decreases p, 1
  {
    if p.PEnv? then RefsArgs(p.params, sc)
    else if p.Quantified? then RefsQuantified(p, sc)
    else
      PropChildIdentifiersAll(p);
      RefsChildren(PropChildren(p), sc, p)
  }

  function RefsQuantified(p: Prop, sc: Scopes): (r: Outcome<Found>)
    requires p.Quantified?
    ensures Sound(r, IdentifiersOfProp(p), sc)
    decreases p, 0
  {
    var bound :- BindFormals(sc, p.formals);
    assert IdentifiersOfProp(p.body) <= IdentifiersOfProp(p);
    RefsWithin(p.body, bound, sc)
  }

  /** A proposition walked in frames that extend sc. */
  function RefsWithin(p: Prop, bound: Scopes, sc: Scopes): (r: Outcome<Found>)
    requires Extends(bound, sc)
    ensures Sound(r, IdentifiersOfProp(p), sc)
    decreases p, 2
  {
    ExtendsSymbols(bound, sc);
    var rb :- RefsProp(p, bound);
    ExtendsTrans(rb.1, bound, sc);
    Success(rb)
  }

  lemma PropChildIdentifiersAll(p: Prop)
    ensures forall i :: 0 <= i < |PropChildren(p)| ==> IdentifiersOfProp(PropChildren(p)[i]) <= IdentifiersOfProp(p)
  {
    forall i | 0 <= i < |PropChildren(p)| ensures IdentifiersOfProp(PropChildren(p)[i]) <= IdentifiersOfProp(p) {
      PropChildIdentifiers(p, i);
    }
  }

  function RefsChildren(cs: seq<Prop>, sc: Scopes, parent: Prop): (r: Outcome<Found>)
    requires forall i :: 0 <= i < |cs| ==> cs[i] < parent
    requires forall i :: 0 <= i < |cs| ==> IdentifiersOfProp(cs[i]) <= IdentifiersOfProp(parent)
    ensures Sound(r, IdentifiersOfProp(parent), sc)
    decreases parent, 0, |cs|
  {
    if cs == [] then Success(({}, sc))
    else
      var r0 :- RefsProp(cs[0], sc);
      var rs :- RefsChildren(cs[1..], r0.1, parent);
      ExtendsSymbols(r0.1, sc);
      ExtendsTrans(rs.1, r0.1, sc);
      Success((r0.0 + rs.0, rs.1))
  }

  /** The collector applied to an expression: it starts with no frame. */
  function Collect(e: Expr): (r: Outcome<set<string>>)
    ensures r.Success? ==> r.value <= Identifiers(e)
  {
    var f :- Refs(e, []);
    Success(f.0)
  }

  // ---------------------------------------------------------------------------
  // Bounds: only the expressions inside env terms are walked
  // ---------------------------------------------------------------------------

  function RefsBounds(b: Bounds, sc: Scopes): (r: Outcome<Found>)
    ensures r.Success? ==> r.value.0 !! AllSymbols(sc) && Extends(r.value.1, sc)
    decreases b, 1
  {
    match b
    case BEnv(ps) =>
      var f :- RefsArgs(ps, sc);
      Success(f)
    case BParen(x) => RefsBounds(x, sc)
    case BFunc(_, args) => RefsBoundsArgs(args, sc)
    case BSum(x, _, y) => RefsBoundsPair(x, y, sc, b)
    case BProduct(x, _, y) => RefsBoundsPair(x, y, sc, b)
    case BExp(x, _, y) => RefsBoundsPair(x, y, sc, b)
    case _ => Success(({}, sc))
  }

  function RefsBoundsPair(x: Bounds, y: Bounds, sc: Scopes, parent: Bounds): (r: Outcome<Found>)
    requires x < parent && y < parent
    ensures r.Success? ==> r.value.0 !! AllSymbols(sc) && Extends(r.value.1, sc)
    decreases parent, 0
  {
    var rx :- RefsBounds(x, sc);
    var ry :- RefsBounds(y, rx.1);
    ExtendsSymbols(rx.1, sc);
    ExtendsTrans(ry.1, rx.1, sc);
    Success((rx.0 + ry.0, ry.1))
  }

  function RefsBoundsArgs(args: seq<Bounds>, sc: Scopes): (r: Outcome<Found>)
    ensures r.Success? ==> r.value.0 !! AllSymbols(sc) && Extends(r.value.1, sc)
    decreases args, 0
  {
    if args == [] then Success(({}, sc))
    else
      var r0 :- RefsBounds(args[0], sc);
      var rs :- RefsBoundsArgs(args[1..], r0.1);
      ExtendsSymbols(r0.1, sc);
      ExtendsTrans(rs.1, r0.1, sc);
      Success((r0.0 + rs.0, rs.1))
  }

  /** The collector applied to a bounds term. */
  function CollectBounds(b: Bounds): Outcome<set<string>>
  {
    var f :- RefsBounds(b, []);
    Success(f.0)
  }

  // ---------------------------------------------------------------------------
  // A reference semantics: the bound names as one flat set
  // ---------------------------------------------------------------------------

  /** The names reported and the names bound after the part walked. */
  type Flat = (set<string>, set<string>)

  /** The ids of the formals, each read through the extractor in turn; binding one needs
      a frame to bind it in. */
  function FormalNames(fs: seq<FormalParam>, framed: bool): (r: Outcome<set<string>>)
    ensures r.Success? ==> r.value == SetOf(FormalIds(fs))
    decreases fs
  {
    if fs == [] then Success({})
    else
      var x :- IdentifierAndTypeExtractor.Extract(fs[0]);
      if !framed then NullPointer()
      else
        var rest :- FormalNames(fs[1..], framed);
        FormalIdsCons(fs);
        Success({x.0} + rest)
  }

  lemma FormalIdsCons(fs: seq<FormalParam>)
    requires fs != []
    ensures SetOf(FormalIds(fs)) == {fs[0].id} + SetOf(FormalIds(fs[1..]))
  {
    var ids, tail := FormalIds(fs), FormalIds(fs[1..]);
    assert ids == [fs[0].id] + tail;
    forall s ensures s in SetOf(ids) <==> s == fs[0].id || s in SetOf(tail) {
      if s in SetOf(ids) {
        var i :| 0 <= i < |ids| && ids[i] == s;
        if i > 0 { assert tail[i - 1] == s; }
      }
      if s in SetOf(tail) {
        var i :| 0 <= i < |tail| && tail[i] == s;
        assert ids[i + 1] == s;
      }
      if s == fs[0].id { assert ids[0] == s; }
    }
  }

  /** A formal whose annotation the extractor refuses makes the binding fail. */
  lemma {:induction false} UnsupportedFormalFails(fs: seq<FormalParam>, framed: bool, j: int)
    requires 0 <= j < |fs| && fs[j].annotation.Some? && fs[j].annotation.value.OtherType?
    ensures FormalNames(fs, framed).Failure?
    decreases fs
  {
    if j > 0 && IdentifierAndTypeExtractor.Extract(fs[0]).Success? && framed {
      UnsupportedFormalFails(fs[1..], framed, j - 1);
    }
  }

  /** The names e looks up that are not in bound, framed telling whether there is a frame
      to bind in; and the names bound after e. Every scoping rule of the collector is
      stated on names alone: a `new` binds each field for the parameters after it and for
      all its methods; a parameter's value sees the assignment targets in it, a method's
      body its own targets and formals; none of these outlives the `new`. The formals of a
      quantifier stay bound after it. */
  function Free(e: Expr, bound: set<string>, framed: bool): (r: Outcome<Flat>)
    ensures r.Success? ==> bound <= r.value.1
    decreases e, 2
  {
    match e
    case Lookup(x) => Success((if x in bound then {} else {x}, bound))
    case Func(_, args) => FreeArgs(args, bound, framed)
    case Invoke(t, _, args, _) =>
      var ft :- Free(t, bound, framed);
      var fa :- FreeArgs(args, ft.1, framed);
      Success((ft.0 + fa.0, fa.1))
    case New(_, ps, ms) =>
      var fp :- FreeParams(ps, bound);
      var fm :- FreeMethods(ms, fp.1);
      Success((fp.0 + fm.0, bound))
    case Assert(p) => FreeProp(p, bound, framed)
    case Admit(p) => FreeProp(p, bound, framed)
    case Paren(_, x) => Free(x, bound, framed)
    case Ref(x) => Free(x, bound, framed)
    case ToBits(x) => Free(x, bound, framed)
    case Not(x) => Free(x, bound, framed)
    case Assign(_, v) => Free(v, bound, framed)
    case MapLookup(m, i) => Both(m, i, bound, framed, e)
    case MapUpdate(m, i, v) => Three(m, i, v, bound, framed, e)
    case Ternary(c, a, b) => Three(c, a, b, bound, framed, e)
    case Product(a, _, b) => Both(a, b, bound, framed, e)
    case Sum(a, _, b) => Both(a, b, bound, framed, e)
    case RelOp(a, _, b) => Both(a, b, bound, framed, e)
    case LogicOp(a, _, b) => Both(a, b, bound, framed, e)
    case Seq(a, b) => Both(a, b, bound, framed, e)
    case _ => Success(({}, bound))
  }

  function Both(a: Expr, b: Expr, bound: set<string>, framed: bool, parent: Expr): (r: Outcome<Flat>)
    requires a < parent && b < parent
    ensures r.Success? ==> bound <= r.value.1
    decreases parent, 0
  {
    var fa :- Free(a, bound, framed);
    var fb :- Free(b, fa.1, framed);
    Success((fa.0 + fb.0, fb.1))
  }

  function Three(a: Expr, b: Expr, c: Expr, bound: set<string>, framed: bool, parent: Expr): (r: Outcome<Flat>)
    requires a < parent && b < parent && c < parent
    ensures r.Success? ==> bound <= r.value.1
    decreases parent, 1
  {
    var fa :- Free(a, bound, framed);
    var fr :- Both(b, c, fa.1, framed, parent);
    Success((fa.0 + fr.0, fr.1))
  }

  function FreeArgs(args: seq<Expr>, bound: set<string>, framed: bool): (r: Outcome<Flat>)
    ensures r.Success? ==> bound <= r.value.1
    decreases args, 0
  {
    if args == [] then Success(({}, bound))
    else
      var f0 :- Free(args[0], bound, framed);
      var fs :- FreeArgs(args[1..], f0.1, framed);
      Success((f0.0 + fs.0, fs.1))
  }

  function FreeParams(ps: seq<NewParam>, bound: set<string>): (r: Outcome<Flat>)
    ensures r.Success? ==> bound <= r.value.1
    decreases ps, 0
  {
    if ps == [] then Success(({}, bound))
    else
      var targets := SetOf(LocalVariableDeclCollector.AssignTargets(ps[0].value));
      var fv :- Free(ps[0].value, bound + targets, true);
      var fs :- FreeParams(ps[1..], bound + {ps[0].id});
      Success((fv.0 + fs.0, fs.1))
  }

  function FreeMethods(ms: seq<MethodDef>, bound: set<string>): (r: Outcome<Flat>)
    ensures r.Success? ==> r.value.1 == bound
    decreases ms, 0
  {
    if ms == [] then Success(({}, bound))
    else if ms[0].body.None? then NullPointer()
    else
      var body := ms[0].body.value;
      var targets := SetOf(LocalVariableDeclCollector.AssignTargets(body));
      var names :- FormalNames(ms[0].formals, true);
      var fb :- Free(body, bound + targets + names, true);
      var fs :- FreeMethods(ms[1..], bound);
      Success((fb.0 + fs.0, fs.1))
  }

  function FreeProp(p: Prop, bound: set<string>, framed: bool): (r: Outcome<Flat>)
    ensures r.Success? ==> bound <= r.value.1
    decreases p, 1
  {
    if p.PEnv? then FreeArgs(p.params, bound, framed)
    else if p.Quantified? then
      var names :- FormalNames(p.formals, framed);
      FreeProp(p.body, bound + names, framed)
    else FreeProps(PropChildren(p), bound, framed, p)
  }

  function FreeProps(cs: seq<Prop>, bound: set<string>, framed: bool, parent: Prop): (r: Outcome<Flat>)
    requires forall i :: 0 <= i < |cs| ==> cs[i] < parent
    ensures r.Success? ==> bound <= r.value.1
    decreases parent, 0, |cs|
  {
    if cs == [] then Success(({}, bound))
    else
      var f0 :- FreeProp(cs[0], bound, framed);
      var fs :- FreeProps(cs[1..], f0.1, framed, parent);
      Success((f0.0 + fs.0, fs.1))
  }

  function FreeBounds(b: Bounds, bound: set<string>, framed: bool): (r: Outcome<Flat>)
    ensures r.Success? ==> bound <= r.value.1
    decreases b, 1
  {
    match b
    case BEnv(ps) => FreeArgs(ps, bound, framed)
    case BParen(x) => FreeBounds(x, bound, framed)
    case BFunc(_, args) => FreeBoundsArgs(args, bound, framed)
    case BSum(x, _, y) => FreeBoundsBoth(x, y, bound, framed, b)
    case BProduct(x, _, y) => FreeBoundsBoth(x, y, bound, framed, b)
    case BExp(x, _, y) => FreeBoundsBoth(x, y, bound, framed, b)
    case _ => Success(({}, bound))
  }

  function FreeBoundsBoth(x: Bounds, y: Bounds, bound: set<string>, framed: bool, parent: Bounds): (r: Outcome<Flat>)
    requires x < parent && y < parent
    ensures r.Success? ==> bound <= r.value.1
    decreases parent, 0
  {
    var fx :- FreeBounds(x, bound, framed);
    var fy :- FreeBounds(y, fx.1, framed);
    Success((fx.0 + fy.0, fy.1))
  }

  function FreeBoundsArgs(args: seq<Bounds>, bound: set<string>, framed: bool): (r: Outcome<Flat>)
    ensures r.Success? ==> bound <= r.value.1
    decreases args, 0
  {
    if args == [] then Success(({}, bound))
    else
      var f0 :- FreeBounds(args[0], bound, framed);
      var fs :- FreeBoundsArgs(args[1..], f0.1, framed);
      Success((f0.0 + fs.0, fs.1))
  }

  /** The collector's outcome and the flat one say the same: the same failure, or the same
      names reported and the same names bound after. */
  predicate Agree(r: Outcome<Found>, f: Outcome<Flat>)
  {
    if r.Success? then f.Success? && r.value.0 == f.value.0 && AllSymbols(r.value.1) == f.value.1
    else f.Failure? && f.error == r.error
  }

  lemma OpenedSymbols(sc: Scopes)
    ensures AllSymbols(Opened(sc)) == AllSymbols(sc)
  {
    AllSymbolsCons(Opened(sc));
  }

  lemma DeclareSymbols(sc: Scopes, ts: seq<string>)
    requires sc != []
    ensures AllSymbols(LocalVariableDeclCollector.DeclareAll(sc, ts)) == AllSymbols(sc) + SetOf(ts)
  {
    var d := LocalVariableDeclCollector.DeclareAll(sc, ts);
    LocalVariableDeclCollector.DeclareAllEffect(sc, ts);
    forall s ensures s in AllSymbols(d) <==> s in AllSymbols(sc) || s in SetOf(ts) {
      ReferenceAllowedIffDeclared(d, s);
      ReferenceAllowedIffDeclared(sc, s);
      if s in ts {
        var i :| 0 <= i < |ts| && ts[i] == s;
        assert s in SetOf(ts);
      }
    }
  }

  /** Binding the formals in frames and collecting their names agree: the same failure, or
      frames whose names are those of sc and the formals. */
  lemma {:induction false} FormalsAgree(sc: Scopes, fs: seq<FormalParam>)
    ensures BindFormals(sc, fs).Success? <==> FormalNames(fs, sc != []).Success?
    ensures BindFormals(sc, fs).Success? ==>
      AllSymbols(BindFormals(sc, fs).value) == AllSymbols(sc) + FormalNames(fs, sc != []).value
    ensures BindFormals(sc, fs).Failure? ==> BindFormals(sc, fs).error == FormalNames(fs, sc != []).error
    decreases fs
  {
    if fs != [] && IdentifierAndTypeExtractor.Extract(fs[0]).Success? && sc != [] {
      var x := IdentifierAndTypeExtractor.Extract(fs[0]).value;
      AddValueEffect(sc, x.0, None, x.0);
      FormalsAgree(AddValue(sc, x.0, None), fs[1..]);
    }
  }

  /** The collector is the flat semantics: for every tree and every table, it fails exactly
      when the flat walk does, with the same error, and otherwise reports exactly the
      names the flat walk finds free and leaves exactly the names it leaves bound. */
  lemma {:induction false} RefsAgree(e: Expr, sc: Scopes)
    ensures Agree(Refs(e, sc), Free(e, AllSymbols(sc), sc != []))
    decreases e, 4
  {
    if e.Lookup? {
      ReferenceAllowedIffDeclared(sc, e.id);
    } else if e.Product? || e.Sum? || e.RelOp? || e.LogicOp? || e.Seq? {
      PairAgree(e.left, e.right, sc, e);
    } else if e.MapLookup? || e.MapUpdate? || e.Ternary? || e.Not? || e.Paren? || e.Ref? || e.ToBits? || e.Assign? {
      InnerAgree(e, sc);
    } else {
      NestedAgree(e, sc);
    }
  }

  lemma {:induction false} PairAgree(a: Expr, b: Expr, sc: Scopes, parent: Expr)
    requires a < parent && b < parent
    ensures Agree(Pair(a, b, sc, parent), Both(a, b, AllSymbols(sc), sc != [], parent))
    decreases parent, 1
  {
    RefsAgree(a, sc);
    var ra := Refs(a, sc);
    if ra.Success? {
      RefsAgree(b, ra.value.1);
    }
  }

  lemma {:induction false} TripleAgree(a: Expr, b: Expr, c: Expr, sc: Scopes, parent: Expr)
    requires a < parent && b < parent && c < parent
    ensures Agree(Triple(a, b, c, sc, parent), Three(a, b, c, AllSymbols(sc), sc != [], parent))
    decreases parent, 2
  {
    RefsAgree(a, sc);
    var ra := Refs(a, sc);
    if ra.Success? {
      PairAgree(b, c, ra.value.1, parent);
    }
  }

  lemma {:induction false} InnerAgree(e: Expr, sc: Scopes)
    requires e.MapLookup? || e.MapUpdate? || e.Ternary? || e.Not? || e.Paren? || e.Ref? || e.ToBits? || e.Assign?
    ensures Agree(RefsInner(e, sc), Free(e, AllSymbols(sc), sc != []))
    decreases e, 3
  {
    match e
    case MapLookup(m, i) => PairAgree(m, i, sc, e);
    case MapUpdate(m, i, v) => TripleAgree(m, i, v, sc, e);
    case Ternary(c, a, b) => TripleAgree(c, a, b, sc, e);
    case Not(x) => RefsAgree(x, sc);
    case Paren(_, x) => RefsAgree(x, sc);
    case Ref(x) => RefsAgree(x, sc);
    case ToBits(x) => RefsAgree(x, sc);
    case Assign(_, v) => RefsAgree(v, sc);
  }

  lemma {:induction false} NestedAgree(e: Expr, sc: Scopes)
    requires !e.Lookup? && !e.Product? && !e.Sum? && !e.RelOp? && !e.LogicOp? && !e.Seq?
    requires !e.MapLookup? && !e.MapUpdate? && !e.Ternary? && !e.Not? && !e.Paren? && !e.Ref? && !e.ToBits? && !e.Assign?
    ensures Agree(RefsNested(e, sc), Free(e, AllSymbols(sc), sc != []))
    decreases e, 3
  {
    match e
    case Func(_, args) => ArgsAgree(args, sc);
    case Invoke(t, _, args, _) =>
      RefsAgree(t, sc);
      if Refs(t, sc).Success? {
        ArgsAgree(args, Refs(t, sc).value.1);
      }
    case New(_, ps, ms) =>
      var inner := Opened(sc);
      OpenedSymbols(sc);
      ParamsAgree(ps, inner);
      var rp := RefsParams(ps, inner);
      if rp.Success? {
        MethodsAgree(ms, rp.value.1);
      }
    case Assert(p) => PropAgree(p, sc);
    case Admit(p) => PropAgree(p, sc);
    case _ =>
  }

  lemma {:induction false} ArgsAgree(args: seq<Expr>, sc: Scopes)
    ensures Agree(RefsArgs(args, sc), FreeArgs(args, AllSymbols(sc), sc != []))
    decreases args, 0
  {
    if args != [] {
      RefsAgree(args[0], sc);
      var r0 := Refs(args[0], sc);
      if r0.Success? {
        ArgsAgree(args[1..], r0.value.1);
      }
    }
  }

  lemma {:induction false} ParamsAgree(ps: seq<NewParam>, sc: Scopes)
    requires sc != []
    ensures Agree(RefsParams(ps, sc), FreeParams(ps, AllSymbols(sc)))
    decreases ps, 0
  {
    if ps != [] {
      var ts := LocalVariableDeclCollector.AssignTargets(ps[0].value);
      var frame := LocalVariableDeclCollector.DeclareAll(Opened(sc), ts);
      OpenedSymbols(sc);
      DeclareSymbols(Opened(sc), ts);
      RefsAgree(ps[0].value, frame);
      var rv := Refs(ps[0].value, frame);
      if rv.Success? {
        assert rv.value.1[1..] == sc;
        AddValueEffect(sc, ps[0].id, Some(Opaque), ps[0].id);
        ParamsAgree(ps[1..], AddValue(sc, ps[0].id, Some(Opaque)));
      }
    }
  }

  lemma {:induction false} MethodsAgree(ms: seq<MethodDef>, sc: Scopes)
    requires sc != []
    ensures Agree(RefsMethods(ms, sc), FreeMethods(ms, AllSymbols(sc)))
    decreases ms, 0
  {
    if ms != [] && ms[0].body.Some? {
      var body := ms[0].body.value;
      var ts := LocalVariableDeclCollector.AssignTargets(body);
      var declared := LocalVariableDeclCollector.DeclareAll(Opened(sc), ts);
      OpenedSymbols(sc);
      DeclareSymbols(Opened(sc), ts);
      FormalsAgree(declared, ms[0].formals);
      var bf := BindFormals(declared, ms[0].formals);
      if bf.Success? {
        RefsAgree(body, bf.value);
        var rb := Refs(body, bf.value);
        if rb.Success? {
          assert rb.value.1[1..] == sc;
          MethodsAgree(ms[1..], sc);
        }
      }
    }
  }

  lemma {:induction false} PropAgree(p: Prop, sc: Scopes)
    ensures Agree(RefsProp(p, sc), FreeProp(p, AllSymbols(sc), sc != []))
    decreases p, 1
  {
    if p.PEnv? {
      ArgsAgree(p.params, sc);
    } else if p.Quantified? {
      FormalsAgree(sc, p.formals);
      var bf := BindFormals(sc, p.formals);
      if bf.Success? {
        PropAgree(p.body, bf.value);
        assert RefsProp(p, sc) == RefsWithin(p.body, bf.value, sc);
        assert |bf.value| == |sc|;
      } else {
        assert RefsProp(p, sc) == Failure(bf.error);
      }
    } else {
      PropChildIdentifiersAll(p);
      ChildrenAgree(PropChildren(p), sc, p);
    }
  }

  lemma {:induction false} ChildrenAgree(cs: seq<Prop>, sc: Scopes, parent: Prop)
    requires forall i :: 0 <= i < |cs| ==> cs[i] < parent
    requires forall i :: 0 <= i < |cs| ==> IdentifiersOfProp(cs[i]) <= IdentifiersOfProp(parent)
    ensures Agree(RefsChildren(cs, sc, parent), FreeProps(cs, AllSymbols(sc), sc != [], parent))
    decreases parent, 0, |cs|
  {
    if cs != [] {
      PropAgree(cs[0], sc);
      var r0 := RefsProp(cs[0], sc);
      if r0.Success? {
        ChildrenAgree(cs[1..], r0.value.1, parent);
      }
    }
  }

  lemma {:induction false} BoundsAgree(b: Bounds, sc: Scopes)
    ensures Agree(RefsBounds(b, sc), FreeBounds(b, AllSymbols(sc), sc != []))
    decreases b, 1
  {
    match b
    case BEnv(ps) => ArgsAgree(ps, sc);
    case BParen(x) => BoundsAgree(x, sc);
    case BFunc(_, args) => BoundsArgsAgree(args, sc);
    case BSum(x, _, y) => BoundsPairAgree(x, y, sc, b);
    case BProduct(x, _, y) => BoundsPairAgree(x, y, sc, b);
    case BExp(x, _, y) => BoundsPairAgree(x, y, sc, b);
    case _ =>
  }

  lemma {:induction false} BoundsPairAgree(x: Bounds, y: Bounds, sc: Scopes, parent: Bounds)
    requires x < parent && y < parent
    ensures Agree(RefsBoundsPair(x, y, sc, parent), FreeBoundsBoth(x, y, AllSymbols(sc), sc != [], parent))
    decreases parent, 0
  {
    BoundsAgree(x, sc);
    var rx := RefsBounds(x, sc);
    if rx.Success? {
      BoundsAgree(y, rx.value.1);
    }
  }

  lemma {:induction false} BoundsArgsAgree(args: seq<Bounds>, sc: Scopes)
    ensures Agree(RefsBoundsArgs(args, sc), FreeBoundsArgs(args, AllSymbols(sc), sc != []))
    decreases args, 0
  {
    if args != [] {
      BoundsAgree(args[0], sc);
      var r0 := RefsBounds(args[0], sc);
      if r0.Success? {
        BoundsArgsAgree(args[1..], r0.value.1);
      }
    }
  }

  /** Collect reports exactly the names the flat walk finds free from nothing bound and no
      frame, and fails exactly when it does, with the same error. */
  lemma CollectIsFree(e: Expr)
    ensures Collect(e).Success? <==> Free(e, {}, false).Success?
    ensures Collect(e).Success? ==> Collect(e).value == Free(e, {}, false).value.0
    ensures Collect(e).Failure? ==> Collect(e).error == Free(e, {}, false).error
  {
    RefsAgree(e, []);
  }

  /** The same for a bounds term. */
  lemma CollectBoundsIsFree(b: Bounds)
    ensures CollectBounds(b).Success? <==> FreeBounds(b, {}, false).Success?
    ensures CollectBounds(b).Success? ==> CollectBounds(b).value == FreeBounds(b, {}, false).value.0
    ensures CollectBounds(b).Failure? ==> CollectBounds(b).error == FreeBounds(b, {}, false).error
  {
    BoundsAgree(b, []);
  }

  // ---------------------------------------------------------------------------
  // A reference definition for trees that bind nothing
  // ---------------------------------------------------------------------------

  /** No `new`, no assertion: nothing in e opens a frame or binds a name. */
  predicate BindingFree(e: Expr)
  {
    match e
    case Func(_, args) => forall i :: 0 <= i < |args| ==> BindingFree(args[i])
    case Invoke(t, _, args, _) => BindingFree(t) && forall i :: 0 <= i < |args| ==> BindingFree(args[i])
    case New(_, _, _) => false
    case Assert(_) => false
    case Admit(_) => false
    case Paren(_, x) => BindingFree(x)
    case Ref(x) => BindingFree(x)
    case ToBits(x) => BindingFree(x)
    case Not(x) => BindingFree(x)
    case Assign(_, v) => BindingFree(v)
    case MapLookup(m, i) => BindingFree(m) && BindingFree(i)
    case MapUpdate(m, i, v) => BindingFree(m) && BindingFree(i) && BindingFree(v)
    case Ternary(c, a, b) => BindingFree(c) && BindingFree(a) && BindingFree(b)
    case Product(a, _, b) => BindingFree(a) && BindingFree(b)
    case Sum(a, _, b) => BindingFree(a) && BindingFree(b)
    case RelOp(a, _, b) => BindingFree(a) && BindingFree(b)
    case LogicOp(a, _, b) => BindingFree(a) && BindingFree(b)
    case Seq(a, b) => BindingFree(a) && BindingFree(b)
    case _ => true
  }

  /** The names of the lookups of a binding-free tree. */
  function Lookups(e: Expr): set<string>
  {
    match e
    case Lookup(x) => {x}
    case Func(_, args) => LookupsOfArgs(args)
    case Invoke(t, _, args, _) => Lookups(t) + LookupsOfArgs(args)
    case Paren(_, x) => Lookups(x)
    case Ref(x) => Lookups(x)
    case ToBits(x) => Lookups(x)
    case Not(x) => Lookups(x)
    case Assign(_, v) => Lookups(v)
    case MapLookup(m, i) => Lookups(m) + Lookups(i)
    case MapUpdate(m, i, v) => Lookups(m) + Lookups(i) + Lookups(v)
    case Ternary(c, a, b) => Lookups(c) + Lookups(a) + Lookups(b)
    case Product(a, _, b) => Lookups(a) + Lookups(b)
    case Sum(a, _, b) => Lookups(a) + Lookups(b)
    case RelOp(a, _, b) => Lookups(a) + Lookups(b)
    case LogicOp(a, _, b) => Lookups(a) + Lookups(b)
    case Seq(a, b) => Lookups(a) + Lookups(b)
    case _ => {}
  }

  function LookupsOfArgs(args: seq<Expr>): set<string>
  {
    if args == [] then {} else Lookups(args[0]) + LookupsOfArgs(args[1..])
  }

  /** In a tree that binds nothing, a lookup is reported iff no frame binds its name, and
      the frames are left as they were. */
  lemma {:induction false} BindingFreeRefs(e: Expr, sc: Scopes)
    requires BindingFree(e)
    ensures Refs(e, sc).Success? && Refs(e, sc).value.1 == sc
    ensures Refs(e, sc).value.0 == Lookups(e) - AllSymbols(sc)
    decreases e, 1
  {
    if e.Lookup? {
      ReferenceAllowedIffDeclared(sc, e.id);
    } else if e.Product? || e.Sum? || e.RelOp? || e.LogicOp? || e.Seq? {
      BindingFreeRefs(e.left, sc);
      BindingFreeRefs(e.right, sc);
    } else if e.MapLookup? || e.MapUpdate? || e.Ternary? {
      assert Refs(e, sc) == RefsInner(e, sc);
      match e
      case MapLookup(m, i) =>
        BindingFreeRefs(m, sc); BindingFreeRefs(i, sc);
        assert RefsInner(e, sc) == Pair(m, i, sc, e);
      case MapUpdate(m, i, v) =>
        BindingFreeRefs(m, sc); BindingFreeRefs(i, sc); BindingFreeRefs(v, sc);
        assert RefsInner(e, sc) == Triple(m, i, v, sc, e);
        assert Pair(i, v, sc, e).value.0 == Lookups(i) + Lookups(v) - AllSymbols(sc);
      case Ternary(c, a, b) =>
        BindingFreeRefs(c, sc); BindingFreeRefs(a, sc); BindingFreeRefs(b, sc);
        assert RefsInner(e, sc) == Triple(c, a, b, sc, e);
        assert Pair(a, b, sc, e).value.0 == Lookups(a) + Lookups(b) - AllSymbols(sc);
    } else {
      assert Refs(e, sc) == (if e.Not? || e.Paren? || e.Ref? || e.ToBits? || e.Assign? then RefsInner(e, sc) else RefsNested(e, sc));
      BindingFreeNested(e, sc);
    }
  }

  lemma {:induction false} BindingFreeNested(e: Expr, sc: Scopes)
    requires BindingFree(e)
    requires !e.Lookup? && !e.Product? && !e.Sum? && !e.RelOp? && !e.LogicOp? && !e.Seq?
    requires !e.MapLookup? && !e.MapUpdate? && !e.Ternary?
    ensures Refs(e, sc).Success? && Refs(e, sc).value.1 == sc
    ensures Refs(e, sc).value.0 == Lookups(e) - AllSymbols(sc)
    decreases e, 0
  {
    if !(e.Not? || e.Paren? || e.Ref? || e.ToBits? || e.Assign?) {
      assert Refs(e, sc) == RefsNested(e, sc);
    }
    match e
    case Not(x) => BindingFreeRefs(x, sc);
    case Paren(_, x) => BindingFreeRefs(x, sc);
    case Ref(x) => BindingFreeRefs(x, sc);
    case ToBits(x) => BindingFreeRefs(x, sc);
    case Assign(_, v) => BindingFreeRefs(v, sc);
    case Func(_, args) => BindingFreeArgs(args, sc);
    case Invoke(t, _, args, _) => BindingFreeRefs(t, sc); BindingFreeArgs(args, sc);
    case _ =>
  }

  lemma {:induction false} BindingFreeArgs(args: seq<Expr>, sc: Scopes)
    requires forall i :: 0 <= i < |args| ==> BindingFree(args[i])
    ensures RefsArgs(args, sc).Success? && RefsArgs(args, sc).value.1 == sc
    ensures RefsArgs(args, sc).value.0 == LookupsOfArgs(args) - AllSymbols(sc)
    decreases args, 0
  {
    if args != [] {
      BindingFreeRefs(args[0], sc);
      assert forall i :: 0 <= i < |args[1..]| ==> BindingFree(args[1..][i]) by {
        forall i | 0 <= i < |args[1..]| ensures BindingFree(args[1..][i]) {
          assert args[1..][i] == args[i + 1];
        }
      }
      BindingFreeArgs(args[1..], sc);
    }
  }

  // ---------------------------------------------------------------------------
  // The binding rules on small trees
  // ---------------------------------------------------------------------------

  /** A field is bound for the methods: `new (a := 1) { m() { a } }` reports nothing. */
  lemma FieldBoundInMethods()
    ensures Collect(New(None, [NewParam("a", Literal(Numeric("1")))], [MethodDef("m", [], Some(Lookup("a")))])).value == {}
  {
    var one := Literal(Numeric("1"));
    var ps := [NewParam("a", one)];
    var ms := [MethodDef("m", [], Some(Lookup("a")))];
    var sc0 := Opened([]);
    var frame := LocalVariableDeclCollector.DeclareAll(Opened(sc0), LocalVariableDeclCollector.AssignTargets(one));
    assert LocalVariableDeclCollector.AssignTargets(one) == [];
    assert frame == Opened(sc0);
    assert Refs(one, frame) == Success(({}, frame));
    var bound := AddValue(sc0, "a", Some(Opaque));
    assert RefsParams(ps[1..], bound) == Success(({}, bound));
    var declared := LocalVariableDeclCollector.DeclareAll(Opened(bound), LocalVariableDeclCollector.AssignTargets(Lookup("a")));
    assert LocalVariableDeclCollector.AssignTargets(Lookup("a")) == [];
    assert declared == Opened(bound);
    assert BindFormals(declared, []) == Success(declared);
    assert ReferenceAllowed(declared, "a") by {
      assert declared[1] == bound[0];
      assert "a" in declared[1].ids;
      ReferenceAllowedIffDeclared(declared, "a");
    }
    assert Refs(Lookup("a"), declared) == Success(({}, declared));
    assert RefsMethods(ms[1..], bound) == Success(({}, bound));
  }

  /** A name bound nowhere is reported: `new (a := b) {}` reports b. */
  lemma UnboundReported()
    ensures Collect(New(None, [NewParam("a", Lookup("b"))], [])) == Success({"b"})
  {
    var ps := [NewParam("a", Lookup("b"))];
    var sc0 := Opened([]);
    var frame := LocalVariableDeclCollector.DeclareAll(Opened(sc0), LocalVariableDeclCollector.AssignTargets(Lookup("b")));
    assert LocalVariableDeclCollector.AssignTargets(Lookup("b")) == [];
    assert frame == Opened(sc0);
    assert !ReferenceAllowed(frame, "b") by {
      ReferenceAllowedIffDeclared(frame, "b");
      AllSymbolsCons(frame);
      AllSymbolsCons(frame[1..]);
    }
    assert Refs(Lookup("b"), frame) == Success(({"b"}, frame));
    var bound := AddValue(sc0, "a", Some(Opaque));
    assert RefsParams(ps[1..], bound) == Success(({}, bound));
    assert RefsMethods([], bound) == Success(({}, bound));
  }

  /** A method without a body cannot be walked. */
  lemma MissingBodyFails()
    ensures Collect(New(None, [], [MethodDef("m", [], None)])).Failure?
  {
    var sc0 := Opened([]);
    assert RefsParams([], sc0) == Success(({}, sc0));
  }

  /** A formal the extractor refuses fails the walk with the extractor's error:
      `new () { m(x: t) { x } }` with t no type. */
  lemma UnsupportedMethodFormalFails()
    ensures Collect(New(None, [], [MethodDef("m", [FormalParam("x", Some(OtherType("t")))], Some(Lookup("x")))]))
      == Failure(Internal("unsupported type expression: t"))
  {
    var sc0 := Opened([]);
    assert RefsParams([], sc0) == Success(({}, sc0));
  }

  /** The formals of a quantifier are bound in the enclosing frame; at the top of a walk
      there is none. */
  lemma TopLevelQuantifierFails()
    ensures Collect(Assert(Quantified(true, [FormalParam("x", None)], PEnv([Lookup("x")])))).Failure?
  {
  }

  /** A bounds lookup is not an expression lookup: a distance `x * eps` reports nothing,
      while the same names inside an env term are reported. */
  lemma BoundsLookupsNotReported()
    ensures CollectBounds(BProduct(BLookup("x"), "*", BLookup("eps"))) == Success({})
    ensures CollectBounds(BEnv([Lookup("x")])) == Success({"x"})
  {
    assert RefsBounds(BLookup("x"), []) == Success(({}, []));
    assert RefsBounds(BLookup("eps"), []) == Success(({}, []));
    var d := BProduct(BLookup("x"), "*", BLookup("eps"));
    assert RefsBoundsPair(BLookup("x"), BLookup("eps"), [], d) == Success(({} + {}, []));
    assert RefsBounds(d, []) == Success(({} + {}, []));
    assert RefsBounds(d, []).value.0 == {};
    assert Refs(Lookup("x"), []) == Success(({"x"}, []));
    assert RefsArgs([Lookup("x")][1..], []) == Success(({}, []));
    assert RefsArgs([Lookup("x")], []) == Success(({"x"} + {}, []));
    assert RefsBounds(BEnv([Lookup("x")]), []).value.0 == {"x"};
  }
}
