/** BoundsExprConverter: turns a bounds term back into an expression. Only a literal or a
    lookup, under the sum / product / exponent / primary wrapper chain, converts; the
    wrappers are rebuilt as the expression wrapper chain, and every other node raises. */
module BoundsExprConverter {
  import opened Wrappers
  import opened Syntax
  import Util

  /** The parser class of the node on which a conversion stops: the outermost node of
      the term, since the wrapper chain above it passes through. */
  function NodeClass(b: Bounds): string
  {
    match b
    case BSum(_, _, _) => "ABinOpSumBoundsExpr"
    case BProduct(_, _, _) => "ABinOpProductBoundsExpr"
    case BExp(_, _, _) => "ABinOpExponentBoundsExpr"
    case BParen(_) => "AQuantPrimaryBoundsExpr"
    case BFunc(_, _) => "AFuncExprPrimaryBoundsExpr"
    case BEnv(_) => "AEnvPrimaryBoundsExpr"
    case BLit(_) => "ALiteralPrimaryBoundsExpr"
    case BLookup(_) => "ALookupPrimaryBoundsExpr"
  }

  /** The expression a bounds term converts to. */
  function ToExpr(b: Bounds): (r: Outcome<Expr>)
    ensures r.Success? <==> b.BLit? || b.BLookup?
    ensures r.Success? ==> Render(r.value) == RenderBounds(b)
    ensures r.Failure? ==> r.error == Internal("Conversion of com.amazon.quivela.parser.node." + NodeClass(b) + " not implemented.")
  {
    match b
    case BLit(l) => Success(Literal(l))
    case BLookup(x) => Success(Lookup(x))
    case _ => InternalFail("Conversion of com.amazon.quivela.parser.node." + NodeClass(b) + " not implemented.")
  }

  /** Converting back to bounds at the sum level gives the term that was converted. */
  lemma ToExprRoundTrip(b: Bounds)
    requires ToExpr(b).Success?
    ensures Util.ExprToBoundsNode(ToExpr(b).value, SumL) == Success(b)
  {
    var e := ToExpr(b).value;
    assert IsWrapper(e, SumL) && IsWrapper(e, ProductL) && !IsWrapper(e, PrimaryL);
    assert Util.ExprToBoundsNode(e, PrimaryL) == Success(b);
    assert Util.ExprToBoundsNode(e, ProductL) == Success(b);
  }

  /** And from the other side: a lookup or a literal converted to bounds converts back. */
  lemma FromExprRoundTrip(e: Expr)
    requires e.Lookup? || e.Literal?
    ensures Util.ExprToBoundsNode(e, SumL).Success?
    ensures ToExpr(Util.ExprToBoundsNode(e, SumL).value) == Success(e)
  {
    assert IsWrapper(e, SumL) && IsWrapper(e, ProductL) && !IsWrapper(e, PrimaryL);
    var b := if e.Lookup? then BLookup(e.id) else BLit(e.lit);
    assert Util.ExprToBoundsNode(e, PrimaryL) == Success(b);
    assert Util.ExprToBoundsNode(e, ProductL) == Success(b);
  }

  /** The converter object: the node stack of the walk. */
  class Converter {
    var stack: seq<Expr>

    constructor ()
      ensures stack == []
    {
      stack := [];
    }

    /** apply: a converted term is pushed; a term that does not convert raises before
        anything is pushed. */
    method Apply(b: Bounds) returns (r: Outcome<()>)
      modifies this
      ensures r.Success? <==> ToExpr(b).Success?
      ensures r.Failure? ==> r.error == ToExpr(b).error && stack == old(stack)
      ensures r.Success? ==> stack == [ToExpr(b).value] + old(stack)
    {
      var e := ToExpr(b);
      if e.Failure? {
        return Failure(e.error);
      }
      stack := [e.value] + stack;
      return Success(());
    }

    /** getExpr: pops the top of the stack; popping an empty stack raises. */
    method GetExpr() returns (r: Outcome<Expr>)
      modifies this
      ensures old(stack) == [] ==> r == InternalFail("NoSuchElementException") && stack == []
      ensures old(stack) != [] ==> r == Success(old(stack)[0]) && stack == old(stack)[1..]
    {
      if stack == [] {
        return InternalFail("NoSuchElementException");
      }
      r := Success(stack[0]);
      stack := stack[1..];
    }
  }

  /** A fresh converter applied to a term, then asked for its expression. */
  method Convert(b: Bounds) returns (r: Outcome<Expr>)
    ensures r == ToExpr(b)
  {
    var conv := new Converter();
    var a := conv.Apply(b);
    if a.Failure? {
      return Failure(a.error);
    }
    r := conv.GetExpr();
  }
}
