/** IdentifierAndTypeExtractor: reading a formal parameter's name and the type its
    optional `: type` suffix denotes. */
module IdentifierAndTypeExtractor {
  import opened Wrappers
  import opened Types
  import opened Syntax

  /** The type a suffix's type expression denotes; any type expression other than the
      five known ones sets no type, which the extractor reports as an error. */
  function SuffixType(t: TypeExpr): (r: Outcome<Type>)
    ensures r.Failure? <==> t.OtherType?
    ensures r.Failure? ==> r.error == Internal("unsupported type expression: " + t.text)
  {
    match t
    case IntType => Success(Integer)
    case BitsType => Success(Bitstring)
    case RealType => Success(Real)
    case MapType => Success(Map)
    case ExprType => Success(Expr)
    case OtherType(text) => Failure(Internal("unsupported type expression: " + text))
  }

  /** The annotation that denotes a symbol type, where there is one (Opaque has none). */
  function Annotation(t: Type): Option<TypeExpr>
  {
    match t
    case Opaque => None
    case Integer => Some(IntType)
    case Bitstring => Some(BitsType)
    case Real => Some(RealType)
    case Map => Some(MapType)
    case Expr => Some(ExprType)
  }

  /** The five annotations and the five non-opaque types are in one-to-one correspondence. */
  lemma SuffixTypeRoundTrip(t: Type, a: TypeExpr)
    ensures Annotation(t).Some? ==> SuffixType(Annotation(t).value) == Success(t)
    ensures SuffixType(a).Success? ==> Annotation(SuffixType(a).value) == Some(a)
    ensures SuffixType(a) != Success(Opaque)
  {
  }

  /** The extractor's result for one `id [: type]`: the identifier and the type, None
      when there is no suffix. */
  function Extract(p: FormalParam): (r: Outcome<(string, Option<Type>)>)
    ensures r.Success? <==> (p.annotation.None? || !p.annotation.value.OtherType?)
    ensures r.Success? ==> r.value.0 == p.id
    ensures r.Success? ==> (r.value.1.None? <==> p.annotation.None?)
    ensures r.Success? && p.annotation.Some? ==> Success(r.value.1.value) == SuffixType(p.annotation.value)
  {
    if p.annotation.None? then Success((p.id, None))
    else
      var t :- SuffixType(p.annotation.value);
      Success((p.id, Some(t)))
  }
}
