/** BoogieFunctions: the functions a development declares, by name, and their names in
    the order they were declared (the order the Boogie preludes write them in). */
module BoogieFunctions {
  import opened Wrappers
  import opened Syntax

  /** The value of the table. */
  datatype Table = Table(byName: map<string, FuncDecl>, names: seq<string>)

  /** What every table reachable from the empty one satisfies: the names list holds each
      declared name exactly once. */
  predicate Valid(t: Table)
  {
    (forall x :: x in t.names ==> x in t.byName) && (forall x :: x in t.byName ==> x in t.names) &&
    (forall i, j :: 0 <= i < j < |t.names| ==> t.names[i] != t.names[j])
  }

  function Empty(): (t: Table)
    ensures Valid(t) && t.byName == map[]
  {
    Table(map[], [])
  }

  /** getByName: the declaration, null when the name was never put. */
  function GetByName(t: Table, name: string): (r: Option<FuncDecl>)
    ensures r.Some? <==> name in t.byName
    ensures r.Some? ==> r.value == t.byName[name]
  {
    if name in t.byName then Some(t.byName[name]) else None
  }

  /** put: a name can be declared once; a second declaration is an internal error. */
  function PutValue(t: Table, name: string, f: FuncDecl): (r: Outcome<Table>)
    ensures r.Failure? <==> name in t.byName
    ensures r.Failure? ==> r == InternalFail("Internal error. Function redefinition: " + name)
    ensures r.Success? ==> GetByName(r.value, name) == Some(f)
    ensures r.Success? ==> forall x :: x != name ==> GetByName(r.value, x) == GetByName(t, x)
    ensures r.Success? ==> r.value.names == t.names + [name]
    ensures r.Success? && Valid(t) ==> Valid(r.value)
  {
    if name in t.byName then InternalFail("Internal error. Function redefinition: " + name)
    else Success(Table(t.byName[name := f], t.names + [name]))
  }

  /** Putting the same name twice fails however the first put went. */
  lemma PutTwiceFails(t: Table, name: string, f: FuncDecl, g: FuncDecl)
    requires PutValue(t, name, f).Success?
    ensures PutValue(PutValue(t, name, f).value, name, g) == InternalFail("Internal error. Function redefinition: " + name)
  {
    assert name in PutValue(t, name, f).value.byName;
  }

  class Functions {
    var byName: map<string, FuncDecl>
    var names: seq<string>

    function Value(): Table
      reads this
    {
      Table(byName, names)
    }

    constructor ()
      ensures Value() == Empty()
    {
      byName := map[];
      names := [];
    }

    function Get(name: string): (r: Option<FuncDecl>)
      reads this
      ensures r == GetByName(Value(), name)
    {
      if name in byName then Some(byName[name]) else None
    }

    /** put, which throws before changing anything when the name is taken. */
    method Put(name: string, f: FuncDecl) returns (r: Outcome<()>)
      modifies this
      ensures r.Success? <==> PutValue(old(Value()), name, f).Success?
      ensures r.Success? ==> Value() == PutValue(old(Value()), name, f).value
      ensures r.Failure? ==> Value() == old(Value()) && r.error == PutValue(old(Value()), name, f).error
    {
      if name in byName {
        return InternalFail("Internal error. Function redefinition: " + name);
      }
      byName := byName[name := f];
      names := names + [name];
      return Success(());
    }
  }
}
