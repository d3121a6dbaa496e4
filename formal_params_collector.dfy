/** FormalParamsCollector: the parallel id and type lists of a formal parameter list. */
module FormalParamsCollector {
  import opened Wrappers
  import opened Types
  import opened Syntax
  import IdentifierAndTypeExtractor

  /** The collected lists: ids and types in declaration order, None for an
      unannotated parameter; the first unsupported annotation aborts. */
  function Collected(fs: seq<FormalParam>): (r: Outcome<(seq<string>, seq<Option<Type>>)>)
    ensures r.Success? <==> forall i :: 0 <= i < |fs| ==> IdentifierAndTypeExtractor.Extract(fs[i]).Success?
    ensures r.Success? ==> |r.value.0| == |fs| && |r.value.1| == |fs|
    ensures r.Success? ==> forall i :: 0 <= i < |fs| ==>
      (r.value.0[i], r.value.1[i]) == IdentifierAndTypeExtractor.Extract(fs[i]).value
  {
    if fs == [] then Success(([], []))
    else
      var first :- IdentifierAndTypeExtractor.Extract(fs[0]);
      var rest :- Collected(fs[1..]);
      assert forall i :: 1 <= i < |fs| ==> fs[i] == fs[1..][i - 1];
      Success(([first.0] + rest.0, [first.1] + rest.1))
  }

  /** The ids alone (`collect`). */
  function Ids(fs: seq<FormalParam>): (ids: seq<string>)
    ensures |ids| == |fs| && forall i :: 0 <= i < |fs| ==> ids[i] == fs[i].id
  {
    if fs == [] then [] else [fs[0].id] + Ids(fs[1..])
  }

  /** `collect`: the parameter names in order, or the failure of the first annotation the
      extractor refuses. */
  function CollectIds(fs: seq<FormalParam>): (r: Outcome<seq<string>>)
    ensures r.Success? <==> forall i :: 0 <= i < |fs| ==> IdentifierAndTypeExtractor.Extract(fs[i]).Success?
    ensures r.Success? ==> |r.value| == |fs| && forall i :: 0 <= i < |fs| ==> r.value[i] == fs[i].id
  {
    var c :- Collected(fs);
    Success(c.0)
  }

  lemma CollectedIds(fs: seq<FormalParam>)
    requires Collected(fs).Success?
    ensures Collected(fs).value.0 == Ids(fs)
  {
  }

  /** The visitor's append loop over the parameter list. */
  method Collect(fs: seq<FormalParam>) returns (r: Outcome<(seq<string>, seq<Option<Type>>)>)
    ensures r == Collected(fs)
  {
    var ids: seq<string> := [];
    var types: seq<Option<Type>> := [];
    var i := 0;
    while i < |fs|
      invariant 0 <= i <= |fs|
      invariant Collected(fs[..i]).Success? && Collected(fs[..i]).value == (ids, types)
    {
      var ext := IdentifierAndTypeExtractor.Extract(fs[i]);
      if ext.Failure? {
        CollectedPrefixFails(fs, i);
        return Failure(ext.error);
      }
      CollectedSnoc(fs[..i], fs[i]);
      assert fs[..i + 1] == fs[..i] + [fs[i]];
      ids := ids + [ext.value.0];
      types := types + [ext.value.1];
      i := i + 1;
    }
    assert fs[..i] == fs;
    r := Success((ids, types));
  }

  lemma {:induction false} CollectedSnoc(fs: seq<FormalParam>, f: FormalParam)
    requires Collected(fs).Success? && IdentifierAndTypeExtractor.Extract(f).Success?
    ensures Collected(fs + [f]) == Success((Collected(fs).value.0 + [f.id],
                                            Collected(fs).value.1 + [IdentifierAndTypeExtractor.Extract(f).value.1]))
  {
    if fs == [] {
      assert fs + [f] == [f] && [f][1..] == [];
      assert Collected([]) == Success(([], []));
      var first := IdentifierAndTypeExtractor.Extract(f).value;
      assert Collected([f]) == Success(([first.0] + [], [first.1] + []));
      assert Collected(fs).value.0 + [f.id] == [first.0] + [];
      assert Collected(fs).value.1 + [first.1] == [first.1] + [];
      assert Collected(fs + [f]) == Collected([f]);
    } else {
      assert (fs + [f])[0] == fs[0] && (fs + [f])[1..] == fs[1..] + [f];
      var first := IdentifierAndTypeExtractor.Extract(fs[0]).value;
      assert Collected(fs[1..]).Success?;
      CollectedSnoc(fs[1..], f);
      var rest := Collected(fs[1..]).value;
      assert Collected(fs).value == ([first.0] + rest.0, [first.1] + rest.1);
      assert Collected(fs + [f]).value
          == ([first.0] + (rest.0 + [f.id]), [first.1] + (rest.1 + [IdentifierAndTypeExtractor.Extract(f).value.1]));
      assert [first.0] + (rest.0 + [f.id]) == ([first.0] + rest.0) + [f.id];
      assert [first.1] + (rest.1 + [IdentifierAndTypeExtractor.Extract(f).value.1])
          == ([first.1] + rest.1) + [IdentifierAndTypeExtractor.Extract(f).value.1];
    }
  }

  /** The first failing parameter decides the error. */
  lemma {:induction false} CollectedPrefixFails(fs: seq<FormalParam>, i: nat)
    requires i < |fs| && Collected(fs[..i]).Success?
    requires IdentifierAndTypeExtractor.Extract(fs[i]).Failure?
    ensures Collected(fs) == Failure(IdentifierAndTypeExtractor.Extract(fs[i]).error)
  {
    if i > 0 {
      assert fs[..i][1..] == fs[1..][..i - 1];
      CollectedPrefixFails(fs[1..], i - 1);
    }
  }
}
