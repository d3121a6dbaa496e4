/** BoogieClasses: the classes of the Boogie translation. A class is identified by the
    text of its `new` expression with every constructor argument replaced by the literal
    0, so two objects built by the same expression with different arguments share a
    class; each class has one id, either its explicit name or a fresh "internal.cls<i>". */
module BoogieClasses {
  import opened Wrappers
  import opened Syntax
  import Util
  import Fresh

  /** The two directions of the table: definition text to id and id to definition text. */
  datatype Classes = Classes(byDef: map<string, string>, byId: map<string, string>)

  function Empty(): (c: Classes)
    ensures Inverse(c)
  {
    Classes(map[], map[])
  }

  /** The table read in either direction gives the same pairs. */
  predicate Inverse(c: Classes)
  {
    (forall k :: k in c.byDef ==> c.byDef[k] in c.byId && c.byId[c.byDef[k]] == k) &&
    (forall id :: id in c.byId ==> c.byId[id] in c.byDef && c.byDef[c.byId[id]] == id)
  }

  /** The constructor parameters with their values erased to the default literal. */
  function ErasedParams(ps: seq<NewParam>): (r: seq<NewParam>)
    ensures ParamNames(r) == ParamNames(ps)
    ensures forall i :: 0 <= i < |r| ==> r[i].value == Util.DefaultPrimaryExpr()
  {
    seq(|ps|, i requires 0 <= i < |ps| => NewParam(ps[i].id, Util.DefaultPrimaryExpr()))
  }

  /** toClassDefString: the trimmed text of a copy of the `new` expression whose
      parameter values are all the literal 0; the expression itself is a value and is
      left as it was. */
  function Key(def: Expr): string
    requires def.New?
  {
    TrimmedText(Render(New(def.classIdent, ErasedParams(def.params), def.methods)))
  }

  /** Two definitions that differ only in their constructor arguments have one key. */
  lemma KeyIgnoresArguments(d1: Expr, d2: Expr)
    requires d1.New? && d2.New?
    requires d1.classIdent == d2.classIdent && d1.methods == d2.methods
    requires ParamNames(d1.params) == ParamNames(d2.params)
    ensures Key(d1) == Key(d2)
  {
    var e1 := ErasedParams(d1.params);
    var e2 := ErasedParams(d2.params);
    assert |e1| == |e2| by {
      assert |ParamNames(d1.params)| == |ParamNames(d2.params)|;
    }
    forall i | 0 <= i < |e1|
      ensures e1[i] == e2[i]
    {
      assert e1[i].id == ParamNames(e1)[i] == ParamNames(e2)[i] == e2[i].id;
    }
    assert e1 == e2;
  }

  /** getByDef: the id of the definition's class, null when it has none yet. */
  function ByDef(c: Classes, def: Expr): (r: Option<string>)
    requires def.New?
    ensures r.Some? <==> Key(def) in c.byDef
    ensures r.Some? ==> r.value == c.byDef[Key(def)]
  {
    var k := Key(def);
    if k in c.byDef then Some(c.byDef[k]) else None
  }

  /** getById: the definition text of a class id, null when the id is unused. */
  function ById(c: Classes, id: string): (r: Option<string>)
    ensures r.Some? <==> id in c.byId
    ensures r.Some? ==> r.value == c.byId[id]
  {
    if id in c.byId then Some(c.byId[id]) else None
  }

  /** put(def, id): an id already naming another definition is a redefinition, a
      definition already named otherwise is a renaming (checked in that order); else the
      pair is recorded in both directions. */
  function PutValue(c: Classes, def: Expr, id: string): (r: Outcome<Classes>)
    requires def.New?
  {
    var k := Key(def);
    if id in c.byId && c.byId[id] != k then InternalFail("Redefinition of class with name: " + id)
    else if k in c.byDef && c.byDef[k] != id then InternalFail("Renaming of class with definition: " + k)
    else Success(Classes(c.byDef[k := id], c.byId[id := k]))
  }

  /** put either records the pair, after which each direction finds the other and every
      other entry is unchanged, or throws exactly when the id or the definition is
      already paired with something else. */
  lemma PutValueSpec(c: Classes, def: Expr, id: string)
    requires def.New?
    ensures PutValue(c, def, id).Success? <==>
      (ById(c, id).Some? ==> ById(c, id).value == Key(def)) &&
      (ByDef(c, def).Some? ==> ByDef(c, def).value == id)
    ensures PutValue(c, def, id).Success? ==>
      ByDef(PutValue(c, def, id).value, def) == Some(id) &&
      ById(PutValue(c, def, id).value, id) == Some(Key(def))
    ensures PutValue(c, def, id).Success? ==> forall other :: other != id ==>
      ById(PutValue(c, def, id).value, other) == ById(c, other)
    ensures ById(c, id).Some? && ById(c, id).value != Key(def) ==>
      PutValue(c, def, id) == InternalFail("Redefinition of class with name: " + id)
  {
  }

  /** put keeps the two directions inverse to each other. */
  lemma PutKeepsInverse(c: Classes, def: Expr, id: string)
    requires def.New? && Inverse(c)
    requires PutValue(c, def, id).Success?
    ensures Inverse(PutValue(c, def, id).value)
  {
    var k := Key(def);
    var c' := PutValue(c, def, id).value;
    forall k2 | k2 in c'.byDef
      ensures c'.byDef[k2] in c'.byId && c'.byId[c'.byDef[k2]] == k2
    {
      if k2 != k {
        assert c.byDef[k2] != id;
      }
    }
    forall id2 | id2 in c'.byId
      ensures c'.byId[id2] in c'.byDef && c'.byDef[c'.byId[id2]] == id2
    {
      if id2 != id {
        assert c.byId[id2] != k;
      }
    }
  }

  /** Putting a pair a second time changes nothing. */
  lemma PutIdempotent(c: Classes, def: Expr, id: string)
    requires def.New?
    requires PutValue(c, def, id).Success?
    ensures PutValue(PutValue(c, def, id).value, def, id) == PutValue(c, def, id)
  {
    var k := Key(def);
    var c' := PutValue(c, def, id).value;
    assert c'.byDef[k := id] == c'.byDef;
    assert c'.byId[id := k] == c'.byId;
  }

  /** freshClassId: the first "internal.cls<i>" that is not an id. */
  function NextClassId(c: Classes): (r: string)
    ensures r !in c.byId
  {
    Fresh.FreshNameSmallest("internal.cls", c.byId.Keys, 0);
    Fresh.FreshName("internal.cls", c.byId.Keys)
  }

  /** put(def): under a fresh id; on a table built by puts it fails exactly when the
      definition already has a class. */
  function PutFreshValue(c: Classes, def: Expr): (r: Outcome<Classes>)
    requires def.New? && Inverse(c)
    ensures r.Failure? <==> Key(def) in c.byDef
    ensures r.Failure? ==> r == InternalFail("Renaming of class with definition: " + Key(def))
    ensures r.Success? ==> ByDef(r.value, def) == Some(NextClassId(c))
  {
    var id := NextClassId(c);
    assert Key(def) in c.byDef ==> c.byDef[Key(def)] in c.byId;
    PutValue(c, def, id)
  }

  class BoogieClasses {
    var classesByDef: map<string, string>
    var classesById: map<string, string>

    function Value(): Classes
      reads this
    {
      Classes(classesByDef, classesById)
    }

    constructor ()
      ensures Value() == Empty()
    {
      classesByDef := map[];
      classesById := map[];
    }

    function GetByDef(def: Expr): (r: Option<string>)
      requires def.New?
      reads this
      ensures r == ByDef(Value(), def)
    {
      var k := Key(def);
      if k in classesByDef then Some(classesByDef[k]) else None
    }

    function GetById(id: string): (r: Option<string>)
      reads this
      ensures r == ById(Value(), id)
    {
      if id in classesById then Some(classesById[id]) else None
    }

    /** put(def, id), which throws before changing anything. */
    method Put(def: Expr, id: string) returns (r: Outcome<()>)
      requires def.New?
      modifies this
      ensures r.Success? <==> PutValue(old(Value()), def, id).Success?
      ensures r.Success? ==> Value() == PutValue(old(Value()), def, id).value
      ensures r.Failure? ==> Value() == old(Value()) && r.error == PutValue(old(Value()), def, id).error
      ensures Inverse(old(Value())) ==> Inverse(Value())
    {
      if PutValue(Value(), def, id).Success? && Inverse(Value()) {
        PutKeepsInverse(Value(), def, id);
      }
      var k := Key(def);
      if id in classesById && classesById[id] != k {
        return InternalFail("Redefinition of class with name: " + id);
      }
      if k in classesByDef && classesByDef[k] != id {
        return InternalFail("Renaming of class with definition: " + k);
      }
      classesByDef := classesByDef[k := id];
      classesById := classesById[id := k];
      return Success(());
    }

    /** The counting loop of freshClassId; the table is not changed. */
    method FreshClassId() returns (id: string)
      ensures id == NextClassId(Value())
    {
      var i;
      id, i := Fresh.SmallestFresh("internal.cls", classesById.Keys);
    }

    /** put(def): a fresh id, then put. */
    method PutFresh(def: Expr) returns (r: Outcome<()>)
      requires def.New? && Inverse(Value())
      modifies this
      ensures r.Success? <==> PutFreshValue(old(Value()), def).Success?
      ensures r.Success? ==> Value() == PutFreshValue(old(Value()), def).value
      ensures r.Failure? ==> Value() == old(Value())
      ensures Inverse(Value())
    {
      var id := FreshClassId();
      r := Put(def, id);
    }
  }
}
