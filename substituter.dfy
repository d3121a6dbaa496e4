/** Substituter: applies a unifier solution to an expression or a bounds expression.
    A lookup mapped to an identifier is renamed; a lookup mapped to any other node
    replaces its whole nearest enclosing expression region (the smallest subtree at the
    expression level containing it) by that node; an assignment target mapped to an
    identifier is renamed. */
module Substituter {
  import opened Wrappers
  import opened Syntax
  import Util

  type Subs = map<string, Term>

  /** The state of the expression region being walked: None while it is in the tree,
      Some(v) once it has been replaced by v (later changes to it are not visible). */
  type RegionState = Option<Expr>

  /** The substitute of a name, when it has a non-null one. */
  function Mapped(subs: Subs, x: string): (r: Option<Term>)
    ensures r.Some? ==> !r.value.Null? && x in subs && r.value == subs[x]
    ensures r.None? ==> x !in subs || subs[x].Null?
  {
    if x in subs && !subs[x].Null? then Some(subs[x]) else None
  }

  /** outALookupPrimaryExpr. The enclosing region is found and the substitute converted
      before the region is replaced. As written, replacing a region that has no parent
      dereferences null: that is the case for a region already replaced, and for the
      root region of the walked tree. In the corrected form the root region's
      replacement becomes the new top. */
  function LookupHit(x: string, subs: Subs, st: RegionState, isRoot: bool, asWritten: bool): (r: Outcome<(Expr, RegionState)>)
    ensures Mapped(subs, x).None? ==> r == Success((Lookup(x), st))
    ensures Mapped(subs, x).Some? && Mapped(subs, x).value.Ident? ==> r == Success((Lookup(Mapped(subs, x).value.id), st))
    ensures r.Success? && st.Some? ==> r.value.1 == st
  {
    match Mapped(subs, x)
    case None => Success((Lookup(x), st))
    case Some(t) =>
      if t.Ident? then Success((Lookup(t.id), st))
      else
        var v :- Util.TermToExpr(t);
        if st.Some? || (isRoot && asWritten) then NullPointer()
        else Success((Lookup(x), Some(v)))
  }

  /** outAAssignAssignExpr: the target token is replaced by the substitute itself,
      which must be an identifier. */
  function TargetHit(t: string, subs: Subs): (r: Outcome<string>)
    ensures Mapped(subs, t).None? ==> r == Success(t)
    ensures Mapped(subs, t).Some? && Mapped(subs, t).value.Ident? ==> r == Success(Mapped(subs, t).value.id)
    ensures Mapped(subs, t).Some? && !Mapped(subs, t).value.Ident? ==> r.Failure?
  {
    match Mapped(subs, t)
    case None => Success(t)
    case Some(s) => if s.Ident? then Success(s.id) else InternalFail("ClassCastException")
  }

  /** One expression region: walk it, and if it has been replaced, its replacement. */
  function Region(e: Expr, subs: Subs, isRoot: bool, asWritten: bool): Outcome<Expr>
    decreases e, 1
  {
    var w :- Walk(e, subs, None, isRoot, asWritten);
    if w.1.Some? then Success(w.1.value) else Success(w.0)
  }

  /** The depth-first walk of the nodes of one region, children before parents. */
  function Walk(e: Expr, subs: Subs, st: RegionState, isRoot: bool, asWritten: bool): (r: Outcome<(Expr, RegionState)>)
    ensures r.Success? && st.Some? ==> r.value.1 == st
    decreases e, 0
  {
    match e
    case Lookup(x) => LookupHit(x, subs, st, isRoot, asWritten)
    case Func(n, args) =>
      var args' :- Regions(args, subs, asWritten);
      Success((Func(n, args'), st))
    case Invoke(t, m, args, c) =>
      var t' :- Walk(t, subs, st, isRoot, asWritten);
      var args' :- Regions(args, subs, asWritten);
      Success((Invoke(t'.0, m, args', c), t'.1))
    case New(c, ps, ms) =>
      var ps' :- ParamRegions(ps, subs, asWritten);
      var ms' :- MethodRegions(ms, subs, asWritten);
      Success((New(c, ps', ms'), st))
    case Paren(lbl, x) =>
      var x' :- Region(x, subs, false, asWritten);
      Success((Paren(lbl, x'), st))
    case Ref(x) =>
      var x' :- Region(x, subs, false, asWritten);
      Success((Ref(x'), st))
    case MapLookup(m, i) =>
      var m' :- Walk(m, subs, st, isRoot, asWritten);
      var i' :- Region(i, subs, false, asWritten);
      Success((MapLookup(m'.0, i'), m'.1))
    case MapUpdate(m, i, v) =>
      var m' :- Walk(m, subs, st, isRoot, asWritten);
      var i' :- Region(i, subs, false, asWritten);
      var v' :- Region(v, subs, false, asWritten);
      Success((MapUpdate(m'.0, i', v'), m'.1))
    case ToBits(x) =>
      var x' :- Region(x, subs, false, asWritten);
      Success((ToBits(x'), st))
    case Assert(p) =>
      var p' :- WalkProp(p, subs, asWritten);
      Success((Assert(p'), st))
    case Admit(p) =>
      var p' :- WalkProp(p, subs, asWritten);
      Success((Admit(p'), st))
    case Product(a, op, b) =>
      var a' :- Walk(a, subs, st, isRoot, asWritten);
      var b' :- Walk(b, subs, a'.1, isRoot, asWritten);
      Success((Product(a'.0, op, b'.0), b'.1))
    case Sum(a, op, b) =>
      var a' :- Walk(a, subs, st, isRoot, asWritten);
      var b' :- Walk(b, subs, a'.1, isRoot, asWritten);
      Success((Sum(a'.0, op, b'.0), b'.1))
    case RelOp(a, op, b) =>
      var a' :- Walk(a, subs, st, isRoot, asWritten);
      var b' :- Walk(b, subs, a'.1, isRoot, asWritten);
      Success((RelOp(a'.0, op, b'.0), b'.1))
    case Not(x) =>
      var x' :- Walk(x, subs, st, isRoot, asWritten);
      Success((Not(x'.0), x'.1))
    case Assign(t, v) =>
      var v' :- Walk(v, subs, st, isRoot, asWritten);
      var t' :- TargetHit(t, subs);
      Success((Assign(t', v'.0), v'.1))
    case Seq(a, b) =>
      var a' :- Walk(a, subs, st, isRoot, asWritten);
      var b' :- Walk(b, subs, a'.1, isRoot, asWritten);
      Success((Seq(a'.0, b'.0), b'.1))
    case LogicOp(a, op, b) =>
      var a' :- Walk(a, subs, st, isRoot, asWritten);
      var b' :- Walk(b, subs, a'.1, isRoot, asWritten);
      Success((LogicOp(a'.0, op, b'.0), b'.1))
    case Ternary(c, a, b) =>
      var c' :- Walk(c, subs, st, isRoot, asWritten);
      var a' :- Region(a, subs, false, asWritten);
      var b' :- Region(b, subs, false, asWritten);
      Success((Ternary(c'.0, a', b'), c'.1))
    case _ => Success((e, st))
  }

  function Regions(es: seq<Expr>, subs: Subs, asWritten: bool): (r: Outcome<seq<Expr>>)
    ensures r.Success? ==> |r.value| == |es|
  {
    if es == [] then Success([])
    else
      var hd :- Region(es[0], subs, false, asWritten);
      var tl :- Regions(es[1..], subs, asWritten);
      Success([hd] + tl)
  }

  function ParamRegions(ps: seq<NewParam>, subs: Subs, asWritten: bool): Outcome<seq<NewParam>>
  {
    if ps == [] then Success([])
    else
      var hd :- Region(ps[0].value, subs, false, asWritten);
      var tl :- ParamRegions(ps[1..], subs, asWritten);
      Success([NewParam(ps[0].id, hd)] + tl)
  }

  function MethodRegions(ms: seq<MethodDef>, subs: Subs, asWritten: bool): Outcome<seq<MethodDef>>
  {
    if ms == [] then Success([])
    else
      var body :- if ms[0].body.Some? then
                    var b :- Region(ms[0].body.value, subs, false, asWritten); Success(Some(b))
                  else Success(None);
      var tl :- MethodRegions(ms[1..], subs, asWritten);
      Success([MethodDef(ms[0].name, ms[0].formals, body)] + tl)
  }

  /** Propositions contain expressions only as env parameters. */
  function WalkProp(p: Prop, subs: Subs, asWritten: bool): Outcome<Prop>
  {
    match p
    case PToBits(q) => var q' :- WalkProp(q, subs, asWritten); Success(PToBits(q'))
    case IsBits(q) => var q' :- WalkProp(q, subs, asWritten); Success(IsBits(q'))
    case PEnv(ps) => var ps' :- Regions(ps, subs, asWritten); Success(PEnv(ps'))
    case ObjEq(a, b) =>
      var a' :- WalkProp(a, subs, asWritten); var b' :- WalkProp(b, subs, asWritten); Success(ObjEq(a', b'))
    case PSum(a, op, b) =>
      var a' :- WalkProp(a, subs, asWritten); var b' :- WalkProp(b, subs, asWritten); Success(PSum(a', op, b'))
    case PProduct(a, op, b) =>
      var a' :- WalkProp(a, subs, asWritten); var b' :- WalkProp(b, subs, asWritten); Success(PProduct(a', op, b'))
    case Independence(h, a, b) =>
      var h' :- WalkProp(h, subs, asWritten); var a' :- WalkProp(a, subs, asWritten);
      var b' :- WalkProp(b, subs, asWritten); Success(Independence(h', a', b'))
    case ObjectIs(o, c) => var o' :- WalkProp(o, subs, asWritten); Success(ObjectIs(o', c))
    case Frame(a, b) =>
      var a' :- WalkProp(a, subs, asWritten); var b' :- WalkProp(b, subs, asWritten); Success(Frame(a', b'))
    case FrameHeap(h1, h2, a, b) =>
      var h1' :- WalkProp(h1, subs, asWritten); var h2' :- WalkProp(h2, subs, asWritten);
      var a' :- WalkProp(a, subs, asWritten); var b' :- WalkProp(b, subs, asWritten);
      Success(FrameHeap(h1', h2', a', b'))
    case FromHeapHeap(h, r) =>
      var h' :- WalkProp(h, subs, asWritten); var r' :- WalkProp(r, subs, asWritten); Success(FromHeapHeap(h', r'))
    case FromHeapObject(h, r) =>
      var h' :- WalkProp(h, subs, asWritten); var r' :- WalkProp(r, subs, asWritten); Success(FromHeapObject(h', r'))
    case PFunc(n, args) => var args' :- WalkPropArgs(args, subs, asWritten); Success(PFunc(n, args'))
    case PParen(q) => var q' :- WalkProp(q, subs, asWritten); Success(PParen(q'))
    case PMapLookup(m, i) =>
      var m' :- WalkProp(m, subs, asWritten); var i' :- WalkProp(i, subs, asWritten); Success(PMapLookup(m', i'))
    case PMapUpdate(m, i, v) =>
      var m' :- WalkProp(m, subs, asWritten); var i' :- WalkProp(i, subs, asWritten);
      var v' :- WalkProp(v, subs, asWritten); Success(PMapUpdate(m', i', v'))
    case ObjectLookup(o, f) => var o' :- WalkProp(o, subs, asWritten); Success(ObjectLookup(o', f))
    case PRelOp(a, op, b) =>
      var a' :- WalkProp(a, subs, asWritten); var b' :- WalkProp(b, subs, asWritten); Success(PRelOp(a', op, b'))
    case Quantified(q, fs, body) => var body' :- WalkProp(body, subs, asWritten); Success(Quantified(q, fs, body'))
    case PLogicOp(a, op, b) =>
      var a' :- WalkProp(a, subs, asWritten); var b' :- WalkProp(b, subs, asWritten); Success(PLogicOp(a', op, b'))
    case PNot(q) => var q' :- WalkProp(q, subs, asWritten); Success(PNot(q'))
    case _ => Success(p)
  }

  function WalkPropArgs(args: seq<Prop>, subs: Subs, asWritten: bool): Outcome<seq<Prop>>
  {
    if args == [] then Success([])
    else
      var hd :- WalkProp(args[0], subs, asWritten);
      var tl :- WalkPropArgs(args[1..], subs, asWritten);
      Success([hd] + tl)
  }

  // ---------------------------------------------------------------------------
  // Bounds expressions
  // ---------------------------------------------------------------------------

  /** outALookupPrimaryBoundsExpr: an identifier renames the lookup, a literal or lookup
      primary becomes the same literal or lookup, and any other substitute is converted
      to a bounds expression in parentheses. */
  function BoundsLookupHit(x: string, subs: Subs): (r: Outcome<Bounds>)
    ensures Mapped(subs, x).None? ==> r == Success(BLookup(x))
    ensures Mapped(subs, x).Some? ==>
      var t := Mapped(subs, x).value;
      (t.Ident? ==> r == Success(BLookup(t.id))) &&
      (t.At? && t.level == PrimaryL && t.e.Literal? ==> r == Success(BLit(t.e.lit))) &&
      (t.At? && t.level == PrimaryL && t.e.Lookup? ==> r == Success(BLookup(t.e.id))) &&
      (r.Success? && !t.Ident? && !(t.At? && t.level == PrimaryL && (t.e.Literal? || t.e.Lookup?)) ==>
         t.At? && t.level == SumL && RenderBounds(r.value) == ["("] + Render(t.e) + [")"])
  {
    match Mapped(subs, x)
    case None => Success(BLookup(x))
    case Some(t) =>
      if t.Ident? then Success(BLookup(t.id))
      else if t.At? && t.level == PrimaryL && t.e.Literal? then Success(BLit(t.e.lit))
      else if t.At? && t.level == PrimaryL && t.e.Lookup? then Success(BLookup(t.e.id))
      else
        var b :- Util.TermToBounds(t);
        Util.ExprToBoundsNodeText(t.e, SumL);
        Success(BParen(b))
  }

  function WalkBounds(b: Bounds, subs: Subs, asWritten: bool): Outcome<Bounds>
  {
    match b
    case BLookup(x) => BoundsLookupHit(x, subs)
    case BParen(x) => var x' :- WalkBounds(x, subs, asWritten); Success(BParen(x'))
    case BFunc(n, args) => var args' :- WalkBoundsArgs(args, subs, asWritten); Success(BFunc(n, args'))
    case BEnv(ps) => var ps' :- Regions(ps, subs, asWritten); Success(BEnv(ps'))
    case BSum(l, op, r) =>
      var l' :- WalkBounds(l, subs, asWritten); var r' :- WalkBounds(r, subs, asWritten); Success(BSum(l', op, r'))
    case BProduct(l, op, r) =>
      var l' :- WalkBounds(l, subs, asWritten); var r' :- WalkBounds(r, subs, asWritten); Success(BProduct(l', op, r'))
    case BExp(l, op, r) =>
      var l' :- WalkBounds(l, subs, asWritten); var r' :- WalkBounds(r, subs, asWritten); Success(BExp(l', op, r'))
    case BLit(_) => Success(b)
  }

  function WalkBoundsArgs(args: seq<Bounds>, subs: Subs, asWritten: bool): Outcome<seq<Bounds>>
  {
    if args == [] then Success([])
    else
      var hd :- WalkBounds(args[0], subs, asWritten);
      var tl :- WalkBoundsArgs(args[1..], subs, asWritten);
      Success([hd] + tl)
  }

  // ---------------------------------------------------------------------------
  // Entry points: an expression tree (an AExpr root) and a bounds tree
  // ---------------------------------------------------------------------------

  /** The substituted expression, with the root-region fix. */
  function SubstituteExpr(e: Expr, subs: Subs): Outcome<Expr>
  {
    Region(e, subs, true, false)
  }

  /** The substituted expression as the source computes it. */
  function SubstituteExprAsWritten(e: Expr, subs: Subs): Outcome<Expr>
  {
    Region(e, subs, true, true)
  }

  function SubstituteBounds(b: Bounds, subs: Subs): Outcome<Bounds>
  {
    WalkBounds(b, subs, false)
  }

  // ---------------------------------------------------------------------------
  // Properties
  // ---------------------------------------------------------------------------

  /** As written, substituting a non-identifier for a lookup whose nearest enclosing
      expression is the root of the substituted tree dereferences the root's missing
      parent: a rewrite whose right-hand side is a bare variable fails. */
  lemma SubstituteRootAsWritten(x: string, f: string)
    ensures SubstituteExprAsWritten(Lookup(x), map[x := At(Func(f, []), PrimaryL)]).Failure?
    ensures SubstituteExprAsWritten(Sum(Lookup(x), "+", Literal(Numeric("1"))), map[x := At(Func(f, []), PrimaryL)]).Failure?
  {
    var subs := map[x := At(Func(f, []), PrimaryL)];
    assert Mapped(subs, x) == Some(At(Func(f, []), PrimaryL));
    assert Util.TermToExpr(subs[x]) == Success(Func(f, []));
    assert LookupHit(x, subs, None, true, true).Failure?;
    assert Walk(Lookup(x), subs, None, true, true).Failure?;
    assert Walk(Sum(Lookup(x), "+", Literal(Numeric("1"))), subs, None, true, true).Failure?;
  }

  /** With the root-region fix, a variable that is the whole tree becomes the
      substitute, whatever convertible node it is. */
  lemma SubstituteRootCorrected(x: string, t: Term)
    requires !t.Null? && !t.Ident? && Util.TermToExpr(t).Success?
    ensures SubstituteExpr(Lookup(x), map[x := t]) == Success(t.e)
  {
    assert Mapped(map[x := t], x) == Some(t);
    assert Walk(Lookup(x), map[x := t], None, true, false) == Success((Lookup(x), Some(t.e)));
  }

  /** The whole enclosing region is replaced, not just the lookup: with x mapped to a
      call, g(x + 1) becomes g(a()). */
  lemma SubstituteReplacesRegion(g: string, x: string, a: string)
    ensures SubstituteExpr(Func(g, [Sum(Lookup(x), "+", Literal(Numeric("1")))]), map[x := At(Func(a, []), PrimaryL)])
      == Success(Func(g, [Func(a, [])]))
  {
    var subs := map[x := At(Func(a, []), PrimaryL)];
    var arg := Sum(Lookup(x), "+", Literal(Numeric("1")));
    assert Mapped(subs, x) == Some(At(Func(a, []), PrimaryL));
    assert Util.TermToExpr(subs[x]) == Success(Func(a, []));
    assert Walk(Lookup(x), subs, None, false, false) == Success((Lookup(x), Some(Func(a, []))));
    assert Walk(arg, subs, None, false, false) == Success((arg, Some(Func(a, []))));
    assert Regions([], subs, false) == Success([]);
    assert Region(arg, subs, false, false) == Success(Func(a, []));
    assert [arg][1..] == [];
    assert [Func(a, [])] + [] == [Func(a, [])];
    assert Regions([arg], subs, false) == Success([Func(a, [])]);
    assert Walk(Func(g, [arg]), subs, None, true, false) == Success((Func(g, [Func(a, [])]), None));
  }

  /** A substitution mentioning none of the tree's identifiers changes nothing. */
  lemma {:induction false} WalkUnmapped(e: Expr, subs: Subs, st: RegionState, isRoot: bool, asWritten: bool)
    requires Identifiers(e) !! subs.Keys
    ensures Walk(e, subs, st, isRoot, asWritten) == Success((e, st))
    decreases e, 1
  {
    if e.Lookup? || e.Assign? || e.Not? || e.Seq? {
      StatementUnmapped(e, subs, st, isRoot, asWritten);
    } else if e.Product? || e.Sum? || e.RelOp? || e.LogicOp? {
      BinaryUnmapped(e, subs, st, isRoot, asWritten);
    } else if e.Invoke? || e.MapLookup? || e.MapUpdate? || e.Ternary? {
      AccessUnmapped(e, subs, st, isRoot, asWritten);
    } else {
      NestedUnmapped(e, subs, st, isRoot, asWritten);
    }
  }

  lemma {:induction false} StatementUnmapped(e: Expr, subs: Subs, st: RegionState, isRoot: bool, asWritten: bool)
    requires Identifiers(e) !! subs.Keys
    requires e.Lookup? || e.Assign? || e.Not? || e.Seq?
    ensures Walk(e, subs, st, isRoot, asWritten) == Success((e, st))
    decreases e, 0
  {
    match e
    case Lookup(x) =>
      assert x in Identifiers(e);
    case Not(x) => WalkUnmapped(x, subs, st, isRoot, asWritten);
    case Assign(t, v) =>
      WalkUnmapped(v, subs, st, isRoot, asWritten);
      assert t in Identifiers(e);
    case Seq(a, b) =>
      WalkUnmapped(a, subs, st, isRoot, asWritten); WalkUnmapped(b, subs, st, isRoot, asWritten);
  }

  lemma {:induction false} BinaryUnmapped(e: Expr, subs: Subs, st: RegionState, isRoot: bool, asWritten: bool)
    requires Identifiers(e) !! subs.Keys
    requires e.Product? || e.Sum? || e.RelOp? || e.LogicOp?
    ensures Walk(e, subs, st, isRoot, asWritten) == Success((e, st))
    decreases e, 0
  {
    WalkUnmapped(e.left, subs, st, isRoot, asWritten);
    WalkUnmapped(e.right, subs, st, isRoot, asWritten);
  }

  lemma {:induction false} AccessUnmapped(e: Expr, subs: Subs, st: RegionState, isRoot: bool, asWritten: bool)
    requires Identifiers(e) !! subs.Keys
    requires e.Invoke? || e.MapLookup? || e.MapUpdate? || e.Ternary?
    ensures Walk(e, subs, st, isRoot, asWritten) == Success((e, st))
    decreases e, 0
  {
    match e
    case Invoke(t, m, args, c) =>
      WalkUnmapped(t, subs, st, isRoot, asWritten); RegionsUnmapped(args, subs, asWritten);
    case MapLookup(m, i) =>
      WalkUnmapped(m, subs, st, isRoot, asWritten); WalkUnmapped(i, subs, None, false, asWritten);
    case MapUpdate(m, i, v) =>
      WalkUnmapped(m, subs, st, isRoot, asWritten); WalkUnmapped(i, subs, None, false, asWritten);
      WalkUnmapped(v, subs, None, false, asWritten);
    case Ternary(c, a, b) =>
      WalkUnmapped(c, subs, st, isRoot, asWritten); WalkUnmapped(a, subs, None, false, asWritten);
      WalkUnmapped(b, subs, None, false, asWritten);
  }

  /** The constructors whose children all start regions of their own. */
  lemma {:induction false} NestedUnmapped(e: Expr, subs: Subs, st: RegionState, isRoot: bool, asWritten: bool)
    requires Identifiers(e) !! subs.Keys
    requires e.Func? || e.New? || e.Paren? || e.Ref? || e.ToBits? || e.Assert? || e.Admit? ||
             e.Literal? || e.Hole? || e.DotDotDot?
    ensures Walk(e, subs, st, isRoot, asWritten) == Success((e, st))
    decreases e, 0
  {
    match e
    case Func(n, args) => RegionsUnmapped(args, subs, asWritten);
    case New(c, ps, ms) => ParamsUnmapped(ps, subs, asWritten); MethodsUnmapped(ms, subs, asWritten);
    case Paren(lbl, x) => WalkUnmapped(x, subs, None, false, asWritten);
    case Ref(x) => WalkUnmapped(x, subs, None, false, asWritten);
    case ToBits(x) => WalkUnmapped(x, subs, None, false, asWritten);
    case Assert(p) => PropUnmapped(p, subs, asWritten);
    case Admit(p) => PropUnmapped(p, subs, asWritten);
    case _ =>
  }

  lemma RegionUnmapped(e: Expr, subs: Subs, isRoot: bool, asWritten: bool)
    requires Identifiers(e) !! subs.Keys
    ensures Region(e, subs, isRoot, asWritten) == Success(e)
  {
    WalkUnmapped(e, subs, None, isRoot, asWritten);
  }

  lemma {:induction false} RegionsUnmapped(es: seq<Expr>, subs: Subs, asWritten: bool)
    requires IdentifiersOfArgs(es) !! subs.Keys
    ensures Regions(es, subs, asWritten) == Success(es)
    decreases es
  {
    if es != [] {
      WalkUnmapped(es[0], subs, None, false, asWritten);
      RegionsUnmapped(es[1..], subs, asWritten);
      assert es == [es[0]] + es[1..];
    }
  }

  lemma {:induction false} ParamsUnmapped(ps: seq<NewParam>, subs: Subs, asWritten: bool)
    requires IdentifiersOfParams(ps) !! subs.Keys
    ensures ParamRegions(ps, subs, asWritten) == Success(ps)
    decreases ps
  {
    if ps != [] {
      WalkUnmapped(ps[0].value, subs, None, false, asWritten);
      ParamsUnmapped(ps[1..], subs, asWritten);
      assert ps == [NewParam(ps[0].id, ps[0].value)] + ps[1..];
    }
  }

  lemma {:induction false} MethodsUnmapped(ms: seq<MethodDef>, subs: Subs, asWritten: bool)
    requires IdentifiersOfMethods(ms) !! subs.Keys
    ensures MethodRegions(ms, subs, asWritten) == Success(ms)
    decreases ms
  {
    if ms != [] {
      if ms[0].body.Some? {
        WalkUnmapped(ms[0].body.value, subs, None, false, asWritten);
      }
      MethodsUnmapped(ms[1..], subs, asWritten);
      assert ms == [MethodDef(ms[0].name, ms[0].formals, ms[0].body)] + ms[1..];
    }
  }

  lemma {:induction false} PropUnmapped(p: Prop, subs: Subs, asWritten: bool)
    requires IdentifiersOfProp(p) !! subs.Keys
    ensures WalkProp(p, subs, asWritten) == Success(p)
    decreases p, 1
  {
    match p
    case PToBits(q) => PropUnmapped(q, subs, asWritten);
    case IsBits(q) => PropUnmapped(q, subs, asWritten);
    case PEnv(ps) => RegionsUnmapped(ps, subs, asWritten);
    case ObjEq(a, b) => PropUnmapped(a, subs, asWritten); PropUnmapped(b, subs, asWritten);
    case PSum(a, _, b) => PropUnmapped(a, subs, asWritten); PropUnmapped(b, subs, asWritten);
    case PProduct(a, _, b) => PropUnmapped(a, subs, asWritten); PropUnmapped(b, subs, asWritten);
    case Independence(h, a, b) =>
      PropUnmapped(h, subs, asWritten); PropUnmapped(a, subs, asWritten); PropUnmapped(b, subs, asWritten);
    case ObjectIs(o, _) => PropUnmapped(o, subs, asWritten);
    case Frame(a, b) => PropUnmapped(a, subs, asWritten); PropUnmapped(b, subs, asWritten);
    case FrameHeap(h1, h2, a, b) =>
      PropUnmapped(h1, subs, asWritten); PropUnmapped(h2, subs, asWritten);
      PropUnmapped(a, subs, asWritten); PropUnmapped(b, subs, asWritten);
    case _ => PropUnmappedRest(p, subs, asWritten);
  }

  lemma {:induction false} PropUnmappedRest(p: Prop, subs: Subs, asWritten: bool)
    requires IdentifiersOfProp(p) !! subs.Keys
    requires !(p.PToBits? || p.IsBits? || p.PEnv? || p.ObjEq? || p.PSum? || p.PProduct? ||
               p.Independence? || p.ObjectIs? || p.Frame? || p.FrameHeap?)
    ensures WalkProp(p, subs, asWritten) == Success(p)
    decreases p, 0
  {
    match p
    case FromHeapHeap(h, r) => PropUnmapped(h, subs, asWritten); PropUnmapped(r, subs, asWritten);
    case FromHeapObject(h, r) => PropUnmapped(h, subs, asWritten); PropUnmapped(r, subs, asWritten);
    case PFunc(_, args) => PropArgsUnmapped(args, subs, asWritten);
    case PParen(q) => PropUnmapped(q, subs, asWritten);
    case PMapLookup(m, i) => PropUnmapped(m, subs, asWritten); PropUnmapped(i, subs, asWritten);
    case PMapUpdate(m, i, v) =>
      PropUnmapped(m, subs, asWritten); PropUnmapped(i, subs, asWritten); PropUnmapped(v, subs, asWritten);
    case ObjectLookup(o, _) => PropUnmapped(o, subs, asWritten);
    case PRelOp(a, _, b) => PropUnmapped(a, subs, asWritten); PropUnmapped(b, subs, asWritten);
    case Quantified(_, _, body) => PropUnmapped(body, subs, asWritten);
    case PLogicOp(a, _, b) => PropUnmapped(a, subs, asWritten); PropUnmapped(b, subs, asWritten);
    case PNot(q) => PropUnmapped(q, subs, asWritten);
    case _ =>
  }

  lemma {:induction false} PropArgsUnmapped(args: seq<Prop>, subs: Subs, asWritten: bool)
    requires IdentifiersOfPropArgs(args) !! subs.Keys
    ensures WalkPropArgs(args, subs, asWritten) == Success(args)
    decreases args
  {
    if args != [] {
      PropUnmapped(args[0], subs, asWritten);
      PropArgsUnmapped(args[1..], subs, asWritten);
      assert args == [args[0]] + args[1..];
    }
  }

  // ---------------------------------------------------------------------------
  // Substitutions of identifiers only: a plain renaming
  // ---------------------------------------------------------------------------

  /** Every non-null substitute is an identifier. This is the case for the unifier's
      solutions when every pattern variable is matched by a variable. */
  predicate IdentOnly(subs: Subs)
  {
    forall x :: x in subs && !subs[x].Null? ==> subs[x].Ident?
  }

  /** The name-to-name map an identifier-only substitution stands for. */
  function Renaming(subs: Subs): map<string, string>
  {
    map x | x in subs && subs[x].Ident? :: subs[x].id
  }

  function RenameName(x: string, ren: map<string, string>): string
  {
    if x in ren then ren[x] else x
  }

  /** The reference renaming: every lookup and every assignment target, wherever it
      stands, is renamed; constructor parameter names, formals, method and function
      names are left alone. */
  function Renamed(e: Expr, ren: map<string, string>): Expr
    decreases e
  {
    match e
    case Lookup(x) => Lookup(RenameName(x, ren))
    case Func(n, args) => Func(n, RenamedArgs(args, ren))
    case Invoke(t, m, args, c) => Invoke(Renamed(t, ren), m, RenamedArgs(args, ren), c)
    case New(c, ps, ms) => New(c, RenamedParams(ps, ren), RenamedMethods(ms, ren))
    case Paren(lbl, x) => Paren(lbl, Renamed(x, ren))
    case Ref(x) => Ref(Renamed(x, ren))
    case ToBits(x) => ToBits(Renamed(x, ren))
    case MapLookup(m, i) => MapLookup(Renamed(m, ren), Renamed(i, ren))
    case MapUpdate(m, i, v) => MapUpdate(Renamed(m, ren), Renamed(i, ren), Renamed(v, ren))
    case Assert(p) => Assert(RenamedProp(p, ren))
    case Admit(p) => Admit(RenamedProp(p, ren))
    case Product(a, op, b) => Product(Renamed(a, ren), op, Renamed(b, ren))
    case Sum(a, op, b) => Sum(Renamed(a, ren), op, Renamed(b, ren))
    case RelOp(a, op, b) => RelOp(Renamed(a, ren), op, Renamed(b, ren))
    case Not(x) => Not(Renamed(x, ren))
    case Assign(t, v) => Assign(RenameName(t, ren), Renamed(v, ren))
    case Seq(a, b) => Seq(Renamed(a, ren), Renamed(b, ren))
    case LogicOp(a, op, b) => LogicOp(Renamed(a, ren), op, Renamed(b, ren))
    case Ternary(c, a, b) => Ternary(Renamed(c, ren), Renamed(a, ren), Renamed(b, ren))
    case _ => e
  }

  function RenamedArgs(es: seq<Expr>, ren: map<string, string>): seq<Expr>
    decreases es
  {
    if es == [] then [] else [Renamed(es[0], ren)] + RenamedArgs(es[1..], ren)
  }

  function RenamedParams(ps: seq<NewParam>, ren: map<string, string>): seq<NewParam>
    decreases ps
  {
    if ps == [] then [] else [NewParam(ps[0].id, Renamed(ps[0].value, ren))] + RenamedParams(ps[1..], ren)
  }

  function RenamedMethods(ms: seq<MethodDef>, ren: map<string, string>): seq<MethodDef>
    decreases ms
  {
    if ms == [] then []
    else
      var body := if ms[0].body.Some? then Some(Renamed(ms[0].body.value, ren)) else None;
      [MethodDef(ms[0].name, ms[0].formals, body)] + RenamedMethods(ms[1..], ren)
  }

  function RenamedProp(p: Prop, ren: map<string, string>): Prop
    decreases p
  {
    match p
    case PToBits(q) => PToBits(RenamedProp(q, ren))
    case IsBits(q) => IsBits(RenamedProp(q, ren))
    case PEnv(ps) => PEnv(RenamedArgs(ps, ren))
    case ObjEq(a, b) => ObjEq(RenamedProp(a, ren), RenamedProp(b, ren))
    case PSum(a, op, b) => PSum(RenamedProp(a, ren), op, RenamedProp(b, ren))
    case PProduct(a, op, b) => PProduct(RenamedProp(a, ren), op, RenamedProp(b, ren))
    case Independence(h, a, b) => Independence(RenamedProp(h, ren), RenamedProp(a, ren), RenamedProp(b, ren))
    case ObjectIs(o, c) => ObjectIs(RenamedProp(o, ren), c)
    case Frame(a, b) => Frame(RenamedProp(a, ren), RenamedProp(b, ren))
    case FrameHeap(h1, h2, a, b) =>
      FrameHeap(RenamedProp(h1, ren), RenamedProp(h2, ren), RenamedProp(a, ren), RenamedProp(b, ren))
    case FromHeapHeap(h, r) => FromHeapHeap(RenamedProp(h, ren), RenamedProp(r, ren))
    case FromHeapObject(h, r) => FromHeapObject(RenamedProp(h, ren), RenamedProp(r, ren))
    case PFunc(n, args) => PFunc(n, RenamedPropArgs(args, ren))
    case PParen(q) => PParen(RenamedProp(q, ren))
    case PMapLookup(m, i) => PMapLookup(RenamedProp(m, ren), RenamedProp(i, ren))
    case PMapUpdate(m, i, v) => PMapUpdate(RenamedProp(m, ren), RenamedProp(i, ren), RenamedProp(v, ren))
    case ObjectLookup(o, f) => ObjectLookup(RenamedProp(o, ren), f)
    case PRelOp(a, op, b) => PRelOp(RenamedProp(a, ren), op, RenamedProp(b, ren))
    case Quantified(q, fs, body) => Quantified(q, fs, RenamedProp(body, ren))
    case PLogicOp(a, op, b) => PLogicOp(RenamedProp(a, ren), op, RenamedProp(b, ren))
    case PNot(q) => PNot(RenamedProp(q, ren))
    case _ => p
  }

  function RenamedPropArgs(args: seq<Prop>, ren: map<string, string>): seq<Prop>
    decreases args
  {
    if args == [] then [] else [RenamedProp(args[0], ren)] + RenamedPropArgs(args[1..], ren)
  }

  /** A lookup or an assignment target under an identifier-only substitution is
      renamed by the name-to-name map. */
  lemma HitRenames(x: string, subs: Subs, st: RegionState, isRoot: bool, asWritten: bool)
    requires IdentOnly(subs)
    ensures LookupHit(x, subs, st, isRoot, asWritten) == Success((Lookup(RenameName(x, Renaming(subs))), st))
    ensures TargetHit(x, subs) == Success(RenameName(x, Renaming(subs)))
  {
    var ren := Renaming(subs);
    if x in subs && subs[x].Ident? {
      assert x in ren && ren[x] == subs[x].id;
    } else {
      assert x !in ren;
    }
  }

  /** An identifier-only substitution never replaces a region: the substituter then is
      exactly the reference renaming, and never fails. */
  lemma {:induction false} WalkRenames(e: Expr, subs: Subs, st: RegionState, isRoot: bool, asWritten: bool)
    requires IdentOnly(subs)
    ensures Walk(e, subs, st, isRoot, asWritten) == Success((Renamed(e, Renaming(subs)), st))
    decreases e, 1
  {
    if e.Lookup? || e.Assign? || e.Not? || e.Seq? {
      StatementRenames(e, subs, st, isRoot, asWritten);
    } else if e.Product? || e.Sum? || e.RelOp? || e.LogicOp? {
      BinaryRenames(e, subs, st, isRoot, asWritten);
    } else if e.Invoke? || e.MapLookup? || e.MapUpdate? || e.Ternary? {
      AccessRenames(e, subs, st, isRoot, asWritten);
    } else {
      NestedRenames(e, subs, st, isRoot, asWritten);
    }
  }

  lemma {:induction false} StatementRenames(e: Expr, subs: Subs, st: RegionState, isRoot: bool, asWritten: bool)
    requires IdentOnly(subs)
    requires e.Lookup? || e.Assign? || e.Not? || e.Seq?
    ensures Walk(e, subs, st, isRoot, asWritten) == Success((Renamed(e, Renaming(subs)), st))
    decreases e, 0
  {
    match e
    case Lookup(x) => HitRenames(x, subs, st, isRoot, asWritten);
    case Not(x) => WalkRenames(x, subs, st, isRoot, asWritten);
    case Assign(t, v) =>
      WalkRenames(v, subs, st, isRoot, asWritten);
      HitRenames(t, subs, st, isRoot, asWritten);
    case Seq(a, b) =>
      WalkRenames(a, subs, st, isRoot, asWritten); WalkRenames(b, subs, st, isRoot, asWritten);
  }

  lemma {:induction false} BinaryRenames(e: Expr, subs: Subs, st: RegionState, isRoot: bool, asWritten: bool)
    requires IdentOnly(subs)
    requires e.Product? || e.Sum? || e.RelOp? || e.LogicOp?
    ensures Walk(e, subs, st, isRoot, asWritten) == Success((Renamed(e, Renaming(subs)), st))
    decreases e, 0
  {
    WalkRenames(e.left, subs, st, isRoot, asWritten);
    WalkRenames(e.right, subs, st, isRoot, asWritten);
  }

  lemma {:induction false} AccessRenames(e: Expr, subs: Subs, st: RegionState, isRoot: bool, asWritten: bool)
    requires IdentOnly(subs)
    requires e.Invoke? || e.MapLookup? || e.MapUpdate? || e.Ternary?
    ensures Walk(e, subs, st, isRoot, asWritten) == Success((Renamed(e, Renaming(subs)), st))
    decreases e, 0
  {
    match e
    case Invoke(t, m, args, c) =>
      WalkRenames(t, subs, st, isRoot, asWritten); RegionsRename(args, subs, asWritten);
    case MapLookup(m, i) =>
      WalkRenames(m, subs, st, isRoot, asWritten); WalkRenames(i, subs, None, false, asWritten);
    case MapUpdate(m, i, v) =>
      WalkRenames(m, subs, st, isRoot, asWritten); WalkRenames(i, subs, None, false, asWritten);
      WalkRenames(v, subs, None, false, asWritten);
    case Ternary(c, a, b) =>
      WalkRenames(c, subs, st, isRoot, asWritten); WalkRenames(a, subs, None, false, asWritten);
      WalkRenames(b, subs, None, false, asWritten);
  }

  lemma {:induction false} NestedRenames(e: Expr, subs: Subs, st: RegionState, isRoot: bool, asWritten: bool)
    requires IdentOnly(subs)
    requires e.Func? || e.New? || e.Paren? || e.Ref? || e.ToBits? || e.Assert? || e.Admit? ||
             e.Literal? || e.Hole? || e.DotDotDot?
    ensures Walk(e, subs, st, isRoot, asWritten) == Success((Renamed(e, Renaming(subs)), st))
    decreases e, 0
  {
    match e
    case Func(n, args) => RegionsRename(args, subs, asWritten);
    case New(c, ps, ms) => ParamsRename(ps, subs, asWritten); MethodsRename(ms, subs, asWritten);
    case Paren(lbl, x) => WalkRenames(x, subs, None, false, asWritten);
    case Ref(x) => WalkRenames(x, subs, None, false, asWritten);
    case ToBits(x) => WalkRenames(x, subs, None, false, asWritten);
    case Assert(p) => PropRenames(p, subs, asWritten);
    case Admit(p) => PropRenames(p, subs, asWritten);
    case _ =>
  }

  /** The entry point: an identifier-only substitution renames the whole tree. */
  lemma SubstituteRenames(e: Expr, subs: Subs)
    requires IdentOnly(subs)
    ensures SubstituteExpr(e, subs) == Success(Renamed(e, Renaming(subs)))
    ensures SubstituteExprAsWritten(e, subs) == Success(Renamed(e, Renaming(subs)))
  {
    WalkRenames(e, subs, None, true, false);
    WalkRenames(e, subs, None, true, true);
  }

  lemma {:induction false} RegionsRename(es: seq<Expr>, subs: Subs, asWritten: bool)
    requires IdentOnly(subs)
    ensures Regions(es, subs, asWritten) == Success(RenamedArgs(es, Renaming(subs)))
    decreases es
  {
    if es != [] {
      WalkRenames(es[0], subs, None, false, asWritten);
      RegionsRename(es[1..], subs, asWritten);
    }
  }

  lemma {:induction false} ParamsRename(ps: seq<NewParam>, subs: Subs, asWritten: bool)
    requires IdentOnly(subs)
    ensures ParamRegions(ps, subs, asWritten) == Success(RenamedParams(ps, Renaming(subs)))
    decreases ps
  {
    if ps != [] {
      WalkRenames(ps[0].value, subs, None, false, asWritten);
      ParamsRename(ps[1..], subs, asWritten);
    }
  }

  lemma {:induction false} MethodsRename(ms: seq<MethodDef>, subs: Subs, asWritten: bool)
    requires IdentOnly(subs)
    ensures MethodRegions(ms, subs, asWritten) == Success(RenamedMethods(ms, Renaming(subs)))
    decreases ms
  {
    if ms != [] {
      if ms[0].body.Some? {
        WalkRenames(ms[0].body.value, subs, None, false, asWritten);
      }
      MethodsRename(ms[1..], subs, asWritten);
    }
  }

  lemma {:induction false} PropRenames(p: Prop, subs: Subs, asWritten: bool)
    requires IdentOnly(subs)
    ensures WalkProp(p, subs, asWritten) == Success(RenamedProp(p, Renaming(subs)))
    decreases p, 1
  {
    match p
    case PToBits(q) => PropRenames(q, subs, asWritten);
    case IsBits(q) => PropRenames(q, subs, asWritten);
    case PEnv(ps) => RegionsRename(ps, subs, asWritten);
    case ObjEq(a, b) => PropRenames(a, subs, asWritten); PropRenames(b, subs, asWritten);
    case PSum(a, _, b) => PropRenames(a, subs, asWritten); PropRenames(b, subs, asWritten);
    case PProduct(a, _, b) => PropRenames(a, subs, asWritten); PropRenames(b, subs, asWritten);
    case Independence(h, a, b) =>
      PropRenames(h, subs, asWritten); PropRenames(a, subs, asWritten); PropRenames(b, subs, asWritten);
    case ObjectIs(o, _) => PropRenames(o, subs, asWritten);
    case Frame(a, b) => PropRenames(a, subs, asWritten); PropRenames(b, subs, asWritten);
    case FrameHeap(h1, h2, a, b) =>
      PropRenames(h1, subs, asWritten); PropRenames(h2, subs, asWritten);
      PropRenames(a, subs, asWritten); PropRenames(b, subs, asWritten);
    case _ => PropRenamesRest(p, subs, asWritten);
  }

  lemma {:induction false} PropRenamesRest(p: Prop, subs: Subs, asWritten: bool)
    requires IdentOnly(subs)
    requires !(p.PToBits? || p.IsBits? || p.PEnv? || p.ObjEq? || p.PSum? || p.PProduct? ||
               p.Independence? || p.ObjectIs? || p.Frame? || p.FrameHeap?)
    ensures WalkProp(p, subs, asWritten) == Success(RenamedProp(p, Renaming(subs)))
    decreases p, 0
  {
    match p
    case FromHeapHeap(h, r) => PropRenames(h, subs, asWritten); PropRenames(r, subs, asWritten);
    case FromHeapObject(h, r) => PropRenames(h, subs, asWritten); PropRenames(r, subs, asWritten);
    case PFunc(_, args) => PropArgsRename(args, subs, asWritten);
    case PParen(q) => PropRenames(q, subs, asWritten);
    case PMapLookup(m, i) => PropRenames(m, subs, asWritten); PropRenames(i, subs, asWritten);
    case PMapUpdate(m, i, v) =>
      PropRenames(m, subs, asWritten); PropRenames(i, subs, asWritten); PropRenames(v, subs, asWritten);
    case ObjectLookup(o, _) => PropRenames(o, subs, asWritten);
    case PRelOp(a, _, b) => PropRenames(a, subs, asWritten); PropRenames(b, subs, asWritten);
    case Quantified(_, _, body) => PropRenames(body, subs, asWritten);
    case PLogicOp(a, _, b) => PropRenames(a, subs, asWritten); PropRenames(b, subs, asWritten);
    case PNot(q) => PropRenames(q, subs, asWritten);
    case _ =>
  }

  lemma {:induction false} PropArgsRename(args: seq<Prop>, subs: Subs, asWritten: bool)
    requires IdentOnly(subs)
    ensures WalkPropArgs(args, subs, asWritten) == Success(RenamedPropArgs(args, Renaming(subs)))
    decreases args
  {
    if args != [] {
      PropRenames(args[0], subs, asWritten);
      PropArgsRename(args[1..], subs, asWritten);
    }
  }
}
