/** Value: a piece of Boogie text with the tag saying what Boogie type it has, and the
    coercions that wrap the text in the conversion functions of the prelude (fromBool,
    toInt, toMemory, ...). A coercion that has no conversion function raises. */
module BoogieValue {
  import opened Wrappers
  import opened BoogieTypes

  datatype Value = Value(t: BoogieType, v: string)

  /** toBitstringString: defined for the Bitstring, Opaque, Boolean, Integer and Real
      tags; the others raise. */
  function ToBitstringString(x: Value): (r: Outcome<string>)
    ensures r.Success? <==> x.t in {Bitstring, Opaque, Boolean, Integer, Real}
    ensures r.Failure? ==> r.error == Internal("Unsupported type: " + Name(x.t))
    ensures x.t == Bitstring ==> r == Success(x.v)
  {
    match x.t
    case Bitstring => Success(x.v)
    case Opaque => Success("toBitstring(" + x.v + ")")
    case Boolean => Success("fromBool(" + x.v + ")")
    case Integer => Success("fromInt(" + x.v + ")")
    case Real => Success("fromReal(" + x.v + ")")
    case _ => InternalFail("Unsupported type: " + Name(x.t))
  }

  /** toOpaqueString: the identity for Opaque, fromObjectId / fromMemory / fromExpr for
      those tags, and fromBitstring of the bitstring form for the rest, so only Object
      and Heap values have no opaque form. */
  function ToOpaqueString(x: Value): (r: Outcome<string>)
    ensures x.t == Opaque ==> r == Success(x.v)
    ensures r.Failure? <==> x.t in {Object, Heap}
    ensures r.Failure? ==> r.error == Internal("Unsupported type: " + Name(x.t))
  {
    if x.t == Opaque then Success(x.v)
    else if x.t == ObjectId then Success("fromObjectId(" + x.v + ")")
    else if x.t == Memory then Success("fromMemory(" + x.v + ")")
    else if x.t == Expr then Success("fromExpr(" + x.v + ")")
    else Wrapped("fromBitstring(", ToBitstringString(x), ")")
  }

  /** toIntegerString. */
  function ToIntegerString(x: Value): (r: Outcome<string>)
    ensures x.t == Integer ==> r == Success(x.v)
    ensures r.Success? <==> x.t in {Bitstring, Opaque, Boolean, Integer, Real}
  {
    if x.t == Integer then Success(x.v)
    else Wrapped("toInt(", ToBitstringString(x), ")")
  }

  /** toBooleanString: the text itself for a Boolean, otherwise a test of the bitstring
      form against nil. */
  function ToBooleanString(x: Value): (r: Outcome<string>)
    ensures x.t == Boolean ==> r == Success(x.v)
    ensures r.Success? <==> x.t in {Bitstring, Opaque, Boolean, Integer, Real}
    ensures x.t != Boolean && r.Success? ==> r.value == ToBitstringString(x).value + "!=nil"
  {
    if x.t == Boolean then Success(x.v)
    else
      match ToBitstringString(x)
      case Success(b) => Success(b + "!=nil")
      case Failure(e) => Failure(e)
  }

  /** toObjectIdString. */
  function ToObjectIdString(x: Value): (r: Outcome<string>)
    ensures x.t == ObjectId ==> r == Success(x.v)
    ensures r.Failure? <==> x.t in {Object, Heap}
  {
    if x.t == ObjectId then Success(x.v)
    else Wrapped("toObjectId(", ToOpaqueString(x), ")")
  }

  /** toMemoryString: the memory attribute of an Object, the text itself for a Memory. */
  function ToMemoryString(x: Value): (r: Outcome<string>)
    ensures x.t == Object ==> r == Success(x.v + "[objectMemoryAttr]")
    ensures x.t == Memory ==> r == Success(x.v)
    ensures r.Failure? <==> x.t == Heap
  {
    if x.t == Object then Success(x.v + "[objectMemoryAttr]")
    else if x.t == Memory then Success(x.v)
    else Wrapped("toMemory(", ToOpaqueString(x), ")")
  }

  /** toRealString: an Integer is cast with real(...), anything else but a Real goes
      through the bitstring form. */
  function ToRealString(x: Value): (r: Outcome<string>)
    ensures x.t == Real ==> r == Success(x.v)
    ensures x.t == Integer ==> r == Success("real(" + x.v + ")")
    ensures r.Success? <==> x.t in {Bitstring, Opaque, Boolean, Integer, Real}
  {
    if x.t == Real then Success(x.v)
    else if x.t == Integer then Success("real(" + x.v + ")")
    else Wrapped("toReal(", ToBitstringString(x), ")")
  }

  /** getValue(t): the text unchanged when the tag is already t, otherwise the coercion
      to t; there is no coercion into ObjectId, Object, Heap or Expr. */
  function GetValue(x: Value, t: BoogieType): (r: Outcome<string>)
    ensures t == x.t ==> r == Success(x.v)
    ensures t != x.t && t in {ObjectId, Object, Heap, Expr} ==> r == InternalFail("Unknown type: " + Name(t))
    ensures t != x.t && t == Opaque ==> r == ToOpaqueString(x)
    ensures t != x.t && t == Bitstring ==> r == ToBitstringString(x)
    ensures t != x.t && t == Real ==> r == ToRealString(x)
  {
    if t == x.t then Success(x.v)
    else if t == Opaque then ToOpaqueString(x)
    else if t == Integer then Wrapped("toInt(", ToBitstringString(x), ")")
    else if t == Boolean then Wrapped("toBool(", ToBitstringString(x), ")")
    else if t == Real then
      (if x.t == Integer then Success("real(" + x.v + ")") else Wrapped("toReal(", ToBitstringString(x), ")"))
    else if t == Bitstring then ToBitstringString(x)
    else if t == Memory then Wrapped("toMemory(", ToOpaqueString(x), ")")
    else InternalFail("Unknown type: " + Name(t))
  }

  /** toString of a value always raises: a value must be coerced before it is printed. */
  function ToStringValue(x: Value): (r: Outcome<string>)
    ensures r == InternalFail("No!")
  {
    InternalFail("No!")
  }

  /** A coercion result that wraps an inner result between two fixed strings. */
  function Wrapped(pre: string, inner: Outcome<string>, post: string): Outcome<string>
  {
    if inner.Success? then Success(pre + inner.value + post) else inner
  }

  // ---------------------------------------------------------------------------
  // A reference description of the coercions: every coercion from one tag to another
  // either raises, whatever the text, or places the text between a prefix and a
  // suffix that depend on the two tags alone.
  // ---------------------------------------------------------------------------

  /** The bitstring context of a tag. */
  function BitsContext(from: BoogieType): Option<(string, string)>
  {
    match from
    case Bitstring => Some(("", ""))
    case Opaque => Some(("toBitstring(", ")"))
    case Boolean => Some(("fromBool(", ")"))
    case Integer => Some(("fromInt(", ")"))
    case Real => Some(("fromReal(", ")"))
    case _ => None
  }

  /** The opaque context of a tag. */
  function OpaqueContext(from: BoogieType): Option<(string, string)>
  {
    match from
    case Opaque => Some(("", ""))
    case ObjectId => Some(("fromObjectId(", ")"))
    case Memory => Some(("fromMemory(", ")"))
    case Expr => Some(("fromExpr(", ")"))
    case _ => Around("fromBitstring(", BitsContext(from), ")")
  }

  function Around(pre: string, c: Option<(string, string)>, post: string): Option<(string, string)>
  {
    if c.Some? then Some((pre + c.value.0, c.value.1 + post)) else None
  }

  /** The context getValue places a text of tag `from` in to obtain tag `to`. */
  function Coercion(from: BoogieType, to: BoogieType): Option<(string, string)>
  {
    if from == to then Some(("", ""))
    else
      match to
      case Opaque => OpaqueContext(from)
      case Integer => Around("toInt(", BitsContext(from), ")")
      case Boolean => Around("toBool(", BitsContext(from), ")")
      case Real => if from == Integer then Some(("real(", ")")) else Around("toReal(", BitsContext(from), ")")
      case Bitstring => BitsContext(from)
      case Memory => Around("toMemory(", OpaqueContext(from), ")")
      case _ => None
  }

  lemma BitsContextAgrees(x: Value)
    ensures BitsContext(x.t).Some? <==> ToBitstringString(x).Success?
    ensures BitsContext(x.t).Some? ==>
      ToBitstringString(x).value == BitsContext(x.t).value.0 + x.v + BitsContext(x.t).value.1
  {
  }

  lemma OpaqueContextAgrees(x: Value)
    ensures OpaqueContext(x.t).Some? <==> ToOpaqueString(x).Success?
    ensures OpaqueContext(x.t).Some? ==>
      ToOpaqueString(x).value == OpaqueContext(x.t).value.0 + x.v + OpaqueContext(x.t).value.1
  {
    BitsContextAgrees(x);
    if x.t !in {Opaque, ObjectId, Memory, Expr} {
      WrappedContext("fromBitstring(", ToBitstringString(x), BitsContext(x.t), ")", x.v);
    }
  }

  lemma WrappedContext(pre: string, inner: Outcome<string>, c: Option<(string, string)>, post: string, v: string)
    requires c.Some? <==> inner.Success?
    requires c.Some? ==> inner.value == c.value.0 + v + c.value.1
    ensures Around(pre, c, post).Some? <==> Wrapped(pre, inner, post).Success?
    ensures Around(pre, c, post).Some? ==>
      Wrapped(pre, inner, post).value == Around(pre, c, post).value.0 + v + Around(pre, c, post).value.1
  {
    if c.Some? {
      assert pre + (c.value.0 + v + c.value.1) + post == (pre + c.value.0) + v + (c.value.1 + post);
    }
  }

  /** getValue agrees with the reference table: it raises exactly when the table has no
      entry, and otherwise returns the text inside the table's context. */
  lemma GetValueIsCoercion(x: Value, t: BoogieType)
    ensures Coercion(x.t, t).Some? <==> GetValue(x, t).Success?
    ensures Coercion(x.t, t).Some? ==>
      GetValue(x, t).value == Coercion(x.t, t).value.0 + x.v + Coercion(x.t, t).value.1
  {
    BitsContextAgrees(x);
    OpaqueContextAgrees(x);
    if t == x.t {
    } else if t == Integer {
      WrappedContext("toInt(", ToBitstringString(x), BitsContext(x.t), ")", x.v);
    } else if t == Boolean {
      WrappedContext("toBool(", ToBitstringString(x), BitsContext(x.t), ")", x.v);
    } else if t == Real && x.t != Integer {
      WrappedContext("toReal(", ToBitstringString(x), BitsContext(x.t), ")", x.v);
    } else if t == Memory {
      WrappedContext("toMemory(", ToOpaqueString(x), OpaqueContext(x.t), ")", x.v);
    }
  }

  /** No coercion loses information: two texts of one tag that coerce to the same
      text were the same text. */
  lemma GetValueInjective(t: BoogieType, v1: string, v2: string, to: BoogieType)
    requires GetValue(Value(t, v1), to).Success? && GetValue(Value(t, v2), to).Success?
    requires GetValue(Value(t, v1), to).value == GetValue(Value(t, v2), to).value
    ensures v1 == v2
  {
    GetValueIsCoercion(Value(t, v1), to);
    GetValueIsCoercion(Value(t, v2), to);
    var c := Coercion(t, to).value;
    var s1 := c.0 + v1 + c.1;
    var s2 := c.0 + v2 + c.1;
    assert v1 == s1[|c.0|..|s1| - |c.1|];
    assert v2 == s2[|c.0|..|s2| - |c.1|];
  }

  /** Which coercions exist: every tag coerces to itself; nothing but Object and Heap
      fails to reach Opaque; no other tag reaches ObjectId, Object, Heap or Expr. */
  lemma CoercionExists(from: BoogieType, to: BoogieType)
    ensures from == to ==> Coercion(from, to) == Some(("", ""))
    ensures to == Opaque ==> (Coercion(from, to).None? <==> from in {Object, Heap})
    ensures to in {ObjectId, Object, Heap, Expr} ==> (Coercion(from, to).Some? <==> from == to)
    ensures to in {Bitstring, Integer, Boolean} && from != to ==>
      (Coercion(from, to).Some? <==> from in {Bitstring, Opaque, Boolean, Integer, Real})
  {
  }
}
