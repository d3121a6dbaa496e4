/** ExprSimplifier: erases the annotations that do not affect meaning (invocation class
    hints, expression labels, class identifiers of `new`) and unwraps every expression
    that is nothing but a parenthesised expression, so that two expressions can be
    compared as text. */
module ExprSimplifier {
  import opened Wrappers
  import opened Syntax
  import Util

  /** Nothing left to erase below e. */
  predicate Clean(e: Expr)
    decreases e, 0
  {
    match e
    case Func(_, args) => forall i :: 0 <= i < |args| ==> SlotClean(args[i])
    case Invoke(t, _, args, c) => c.None? && Clean(t) && forall i :: 0 <= i < |args| ==> SlotClean(args[i])
    case New(c, ps, ms) =>
      c.None? && (forall i :: 0 <= i < |ps| ==> SlotClean(ps[i].value)) &&
      forall i :: 0 <= i < |ms| ==> ms[i].body.Some? ==> SlotClean(ms[i].body.value)
    case Paren(lbl, x) => lbl.None? && SlotClean(x)
    case Ref(x) => SlotClean(x)
    case ToBits(x) => SlotClean(x)
    case MapLookup(m, i) => Clean(m) && SlotClean(i)
    case MapUpdate(m, i, v) => Clean(m) && SlotClean(i) && SlotClean(v)
    case Assert(p) => PropClean(p)
    case Admit(p) => PropClean(p)
    case Product(a, _, b) => Clean(a) && Clean(b)
    case Sum(a, _, b) => Clean(a) && Clean(b)
    case RelOp(a, _, b) => Clean(a) && Clean(b)
    case Not(x) => Clean(x)
    case Assign(_, v) => Clean(v)
    case Seq(a, b) => Clean(a) && Clean(b)
    case LogicOp(a, _, b) => Clean(a) && Clean(b)
    case Ternary(c, a, b) => Clean(c) && SlotClean(a) && SlotClean(b)
    case _ => true
  }

  /** An expression slot (an AExpr node) that is clean and not merely parenthesised. */
  predicate SlotClean(e: Expr)
    decreases e, 1
  {
    !e.Paren? && Clean(e)
  }

  predicate PropClean(p: Prop)
  {
    if p.PEnv? then forall i :: 0 <= i < |p.params| ==> SlotClean(p.params[i])
    else forall i :: 0 <= i < |PropChildren(p)| ==> PropClean(PropChildren(p)[i])
  }

  /** The simplified contents of an expression slot: children first, then a slot that is
      a parenthesised expression becomes the expression inside. At the root this is the
      top expression the simplifier reports. */
  function SimplifySlot(e: Expr): (r: Expr)
    ensures SlotClean(r)
    decreases e, 1
  {
    var w := SimplifyNode(e);
    match Util.ToQuantPrimaryExpr(w)
    case Some(q) => q.inner
    case None => w
  }

  function SimplifySlots(es: seq<Expr>): (r: seq<Expr>)
    ensures |r| == |es| && forall i :: 0 <= i < |r| ==> r[i] == SimplifySlot(es[i])
  {
    seq(|es|, i requires 0 <= i < |es| => SimplifySlot(es[i]))
  }

  /** One node and everything below it, the node keeping its own shape. */
  function SimplifyNode(e: Expr): (r: Expr)
    ensures Clean(r) && (r.Paren? <==> e.Paren?)
    decreases e, 0
  {
    match e
    case Func(n, args) => Func(n, SimplifySlots(args))
    case Invoke(t, m, args, _) => Invoke(SimplifyNode(t), m, SimplifySlots(args), None)
    case New(_, ps, ms) =>
      New(None,
          seq(|ps|, i requires 0 <= i < |ps| => NewParam(ps[i].id, SimplifySlot(ps[i].value))),
          seq(|ms|, i requires 0 <= i < |ms| =>
            MethodDef(ms[i].name, ms[i].formals,
                      if ms[i].body.Some? then Some(SimplifySlot(ms[i].body.value)) else None)))
    case Paren(_, x) => Paren(None, SimplifySlot(x))
    case Ref(x) => Ref(SimplifySlot(x))
    case ToBits(x) => ToBits(SimplifySlot(x))
    case MapLookup(m, i) => MapLookup(SimplifyNode(m), SimplifySlot(i))
    case MapUpdate(m, i, v) => MapUpdate(SimplifyNode(m), SimplifySlot(i), SimplifySlot(v))
    case Assert(p) => Assert(SimplifyProp(p))
    case Admit(p) => Admit(SimplifyProp(p))
    case Product(a, op, b) => Product(SimplifyNode(a), op, SimplifyNode(b))
    case Sum(a, op, b) => Sum(SimplifyNode(a), op, SimplifyNode(b))
    case RelOp(a, op, b) => RelOp(SimplifyNode(a), op, SimplifyNode(b))
    case Not(x) => Not(SimplifyNode(x))
    case Assign(t, v) => Assign(t, SimplifyNode(v))
    case Seq(a, b) => Seq(SimplifyNode(a), SimplifyNode(b))
    case LogicOp(a, op, b) => LogicOp(SimplifyNode(a), op, SimplifyNode(b))
    case Ternary(c, a, b) => Ternary(SimplifyNode(c), SimplifySlot(a), SimplifySlot(b))
    case _ => e
  }

  function SimplifyProp(p: Prop): (r: Prop)
    ensures PropClean(r)
    decreases p
  {
    if p.PEnv? then PEnv(SimplifySlots(p.params))
    else
      var cs := PropChildren(p);
      WithPropChildren(p, seq(|cs|, i requires 0 <= i < |cs| => SimplifyProp(cs[i])))
  }

  /** checkEquiv's use: the simplified obligation (the top expression if the root was
      unwrapped, else the simplified tree). */
  function Simplify(e: Expr): (r: Expr)
    ensures SlotClean(r)
  {
    SimplifySlot(e)
  }

  /** A clean expression is its own simplification. */
  lemma {:induction false} CleanIsFixpoint(e: Expr)
    ensures Clean(e) ==> SimplifyNode(e) == e
    decreases e, 1
  {
    match e
    case Product(a, _, b) => CleanIsFixpoint(a); CleanIsFixpoint(b);
    case Sum(a, _, b) => CleanIsFixpoint(a); CleanIsFixpoint(b);
    case RelOp(a, _, b) => CleanIsFixpoint(a); CleanIsFixpoint(b);
    case Not(x) => CleanIsFixpoint(x);
    case Assign(_, v) => CleanIsFixpoint(v);
    case Seq(a, b) => CleanIsFixpoint(a); CleanIsFixpoint(b);
    case LogicOp(a, _, b) => CleanIsFixpoint(a); CleanIsFixpoint(b);
    case Ternary(c, a, b) => CleanIsFixpoint(c); SlotCleanIsFixpoint(a); SlotCleanIsFixpoint(b);
    case MapLookup(m, i) => CleanIsFixpoint(m); SlotCleanIsFixpoint(i);
    case MapUpdate(m, i, v) => CleanIsFixpoint(m); SlotCleanIsFixpoint(i); SlotCleanIsFixpoint(v);
    case Invoke(t, m, args, _) =>
      CleanIsFixpoint(t);
      forall i | 0 <= i < |args| { SlotCleanIsFixpoint(args[i]); }
      if Clean(e) { assert SimplifySlots(args) == args; }
    case _ => PrimaryCleanIsFixpoint(e);
  }

  lemma {:induction false} PrimaryCleanIsFixpoint(e: Expr)
    requires !(e.Product? || e.Sum? || e.RelOp? || e.Not? || e.Assign? || e.Seq? || e.LogicOp? ||
               e.Ternary? || e.MapLookup? || e.MapUpdate? || e.Invoke?)
    ensures Clean(e) ==> SimplifyNode(e) == e
    decreases e, 0
  {
    match e
    case Func(n, args) =>
      forall i | 0 <= i < |args| { SlotCleanIsFixpoint(args[i]); }
      if Clean(e) { assert SimplifySlots(args) == args; }
    case New(_, ps, ms) =>
      forall i | 0 <= i < |ps| { SlotCleanIsFixpoint(ps[i].value); }
      forall i | 0 <= i < |ms| && ms[i].body.Some? { SlotCleanIsFixpoint(ms[i].body.value); }
      if Clean(e) {
        var ps' := seq(|ps|, i requires 0 <= i < |ps| => NewParam(ps[i].id, SimplifySlot(ps[i].value)));
        assert ps' == ps;
        var ms' := seq(|ms|, i requires 0 <= i < |ms| =>
            MethodDef(ms[i].name, ms[i].formals,
                      if ms[i].body.Some? then Some(SimplifySlot(ms[i].body.value)) else None));
        assert forall i | 0 <= i < |ms| :: ms'[i] == ms[i];
        assert ms' == ms;
      }
    case Paren(_, x) => SlotCleanIsFixpoint(x);
    case Ref(x) => SlotCleanIsFixpoint(x);
    case ToBits(x) => SlotCleanIsFixpoint(x);
    case Assert(p) => PropCleanIsFixpoint(p);
    case Admit(p) => PropCleanIsFixpoint(p);
    case _ =>
  }

  lemma {:induction false} SlotCleanIsFixpoint(e: Expr)
    ensures SlotClean(e) ==> SimplifySlot(e) == e
    decreases e, 2
  {
    CleanIsFixpoint(e);
  }

  lemma {:induction false} PropCleanIsFixpoint(p: Prop)
    ensures PropClean(p) ==> SimplifyProp(p) == p
    decreases p
  {
    if p.PEnv? {
      forall i | 0 <= i < |p.params| { SlotCleanIsFixpoint(p.params[i]); }
      if PropClean(p) {
        assert SimplifySlots(p.params) == p.params;
      }
    } else {
      var cs := PropChildren(p);
      forall i | 0 <= i < |cs| { PropCleanIsFixpoint(cs[i]); }
      if PropClean(p) {
        assert seq(|cs|, i requires 0 <= i < |cs| => SimplifyProp(cs[i])) == cs;
        WithOwnPropChildren(p);
      }
    }
  }

  /** Simplifying twice gives what simplifying once gives. */
  lemma SimplifyIdempotent(e: Expr)
    ensures Simplify(Simplify(e)) == Simplify(e)
  {
    SlotCleanIsFixpoint(Simplify(e));
  }

  /** A slot holding only parentheses is unwrapped, however deeply nested, and the
      labels are dropped. */
  lemma SimplifyUnwrapsParens(x: string, l: string)
    ensures Simplify(Paren(Some(l), Paren(None, Lookup(x)))) == Lookup(x)
    ensures Simplify(Product(Paren(Some(l), Lookup(x)), "*", Lookup(x))) == Product(Paren(None, Lookup(x)), "*", Lookup(x))
  {
    assert SimplifySlot(Lookup(x)) == Lookup(x);
    assert SimplifyNode(Paren(None, Lookup(x))) == Paren(None, Lookup(x));
    assert SimplifySlot(Paren(None, Lookup(x))) == Lookup(x);
    assert SimplifyNode(Paren(Some(l), Paren(None, Lookup(x)))) == Paren(None, Lookup(x));
    assert SimplifyNode(Paren(Some(l), Lookup(x))) == Paren(None, Lookup(x));
    assert SimplifyNode(Lookup(x)) == Lookup(x);
    var prod := Product(Paren(Some(l), Lookup(x)), "*", Lookup(x));
    assert SimplifyNode(prod) == Product(Paren(None, Lookup(x)), "*", Lookup(x));
  }
}
