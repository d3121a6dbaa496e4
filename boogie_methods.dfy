/** BoogieMethods: the Boogie procedure standing for each method name invoked in a
    translation. */
module BoogieMethods {
  import opened Wrappers
  import Fresh

  /** Method name to procedure name. */
  type Methods = map<string, string>

  /** getBoogieProcName, null for a name never put. */
  function ProcName(m: Methods, name: string): (r: Option<string>)
    ensures r.Some? <==> name in m
    ensures r.Some? ==> r.value == m[name]
  {
    if name in m then Some(m[name]) else None
  }

  /** put overwrites whatever the name had. */
  function PutValue(m: Methods, name: string, proc: string): (r: Methods)
    ensures ProcName(r, name) == Some(proc)
    ensures forall x :: x != name ==> ProcName(r, x) == ProcName(m, x)
  {
    m[name := proc]
  }

  function ProcPrefix(name: string): string
  {
    name + ".proc."
  }

  /** freshMethodProcName: the first "<name>.proc.<i>" that is not already a procedure
      name. */
  function FreshProcName(m: Methods, name: string): string
  {
    Fresh.FreshName(ProcPrefix(name), m.Values)
  }

  /** The fresh name is not the procedure of any method, and putting it under any name
      keeps the procedure names pairwise distinct when they were. */
  lemma FreshProcNameUnused(m: Methods, name: string, x: string)
    ensures forall y :: y in m ==> m[y] != FreshProcName(m, name)
    ensures (forall a, b :: a in m && b in m && a != b ==> m[a] != m[b]) && x !in m ==>
      forall a, b :: a in PutValue(m, x, FreshProcName(m, name)) && b in PutValue(m, x, FreshProcName(m, name)) && a != b ==>
        PutValue(m, x, FreshProcName(m, name))[a] != PutValue(m, x, FreshProcName(m, name))[b]
  {
    Fresh.FreshNameSmallest(ProcPrefix(name), m.Values, 0);
    forall y | y in m
      ensures m[y] != FreshProcName(m, name)
    {
      assert m[y] in m.Values;
    }
  }

  class BoogieMethods {
    var methodsMap: Methods

    constructor ()
      ensures methodsMap == map[]
    {
      methodsMap := map[];
    }

    function GetBoogieProcName(name: string): (r: Option<string>)
      reads this
      ensures r == ProcName(methodsMap, name)
    {
      if name in methodsMap then Some(methodsMap[name]) else None
    }

    method Put(name: string, proc: string)
      modifies this
      ensures methodsMap == PutValue(old(methodsMap), name, proc)
    {
      methodsMap := methodsMap[name := proc];
    }

    /** The counting loop; the table is not changed. */
    method FreshMethodProcName(name: string) returns (proc: string)
      ensures proc == FreshProcName(methodsMap, name)
    {
      var i;
      proc, i := Fresh.SmallestFresh(ProcPrefix(name), methodsMap.Values);
    }
  }
}
