/** The tags of the Boogie translation: each value the generators produce carries one,
    and each tag has the Boogie type it is declared with. */
module BoogieTypes {
  import opened Wrappers

  datatype BoogieType = Boolean | Opaque | Integer | ObjectId | Object | Memory | Heap | Real | Expr | Bitstring

  /** getBoogieString: the Boogie type a tag is declared with. */
  function BoogieString(t: BoogieType): (s: string)
    ensures t == ObjectId ==> s == "ObjectID"
    ensures t == Boolean ==> s == "Bool"
    ensures t == Opaque ==> s == "T"
  {
    match t
    case Boolean => "Bool"
    case Opaque => "T"
    case Integer => "int"
    case ObjectId => "ObjectID"
    case Object => "Object"
    case Memory => "Memory"
    case Heap => "Heap"
    case Real => "real"
    case Expr => "Expr"
    case Bitstring => "Bitstring"
  }

  /** The enum constant's own name, which Java prints when a tag is concatenated into
      an error message. */
  function Name(t: BoogieType): string
  {
    match t
    case Boolean => "Boolean"
    case Opaque => "Opaque"
    case Integer => "Integer"
    case ObjectId => "ObjectId"
    case Object => "Object"
    case Memory => "Memory"
    case Heap => "Heap"
    case Real => "Real"
    case Expr => "Expr"
    case Bitstring => "Bitstring"
  }

  /** The ten tags in declaration order. */
  function AllTags(): (r: seq<BoogieType>)
    ensures |r| == 10
  {
    [Boolean, Opaque, Integer, ObjectId, Object, Memory, Heap, Real, Expr, Bitstring]
  }

  /** The tag a rendering belongs to, if any. */
  function FromBoogieString(s: string): (r: Option<BoogieType>)
  {
    if s == "Bool" then Some(Boolean)
    else if s == "T" then Some(Opaque)
    else if s == "int" then Some(Integer)
    else if s == "ObjectID" then Some(ObjectId)
    else if s == "Object" then Some(Object)
    else if s == "Memory" then Some(Memory)
    else if s == "Heap" then Some(Heap)
    else if s == "real" then Some(Real)
    else if s == "Expr" then Some(Expr)
    else if s == "Bitstring" then Some(Bitstring)
    else None
  }

  /** There are exactly ten tags, listed once each. */
  lemma TagsEnumerated(t: BoogieType)
    ensures t in AllTags()
    ensures forall i, j :: 0 <= i < j < |AllTags()| ==> AllTags()[i] != AllTags()[j]
  {
  }

  /** Reading a rendering back gives its tag, and only renderings read back: so the ten
      renderings are pairwise distinct. */
  lemma {:induction false} BoogieStringRoundTrip(t: BoogieType, s: string)
    ensures FromBoogieString(BoogieString(t)) == Some(t)
    ensures FromBoogieString(s).Some? ==> BoogieString(FromBoogieString(s).value) == s
  {
    match t
    case Boolean =>
    case Opaque =>
    case Integer =>
    case ObjectId =>
      assert "ObjectID" != "Object";
    case Object =>
    case Memory =>
    case Heap =>
    case Real =>
    case Expr =>
    case Bitstring =>
  }

  lemma BoogieStringInjective(t: BoogieType, u: BoogieType)
    ensures BoogieString(t) == BoogieString(u) <==> t == u
  {
    BoogieStringRoundTrip(t, "");
    BoogieStringRoundTrip(u, "");
  }
}
