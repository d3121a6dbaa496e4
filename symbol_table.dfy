/** The checker's scoped symbol table: a stack of frames, innermost first, each mapping
    identifiers to their types. */
module SymbolTable {
  import opened Wrappers
  import opened Types

  /** A constant frame holds the formals of a method (they cannot be assigned), a
      mutable frame local variables, a logical frame bound variables of a proposition. */
  datatype Kind = Constant | Mutable | Logical

  /** The value of one frame. */
  datatype FrameValue = FrameValue(kind: Kind, ids: map<string, Option<Type>>)

  /** The value of a whole table, innermost frame first. */
  type Scopes = seq<FrameValue>

  // ---------------------------------------------------------------------------
  // The value model
  // ---------------------------------------------------------------------------

  /** Index of the innermost frame declaring s. */
  function Innermost(sc: Scopes, s: string): (r: Option<nat>)
    ensures r.Some? ==> r.value < |sc| && s in sc[r.value].ids
    ensures r.Some? ==> forall j :: 0 <= j < r.value ==> s !in sc[j].ids
    ensures r.None? ==> forall j :: 0 <= j < |sc| ==> s !in sc[j].ids
  {
    if sc == [] then None
    else if s in sc[0].ids then Some(0)
    else match Innermost(sc[1..], s)
      case None => None
      case Some(k) => Some(k + 1)
  }

  /** getType: the type in the innermost frame declaring s (itself possibly null), null
      when none does. */
  function TypeOf(sc: Scopes, s: string): Option<Type>
  {
    match Innermost(sc, s)
    case None => None
    case Some(k) => sc[k].ids[s]
  }

  /** symbolModifiable: the innermost declaration is not in a constant frame. */
  predicate Modifiable(sc: Scopes, s: string)
  {
    match Innermost(sc, s)
    case None => false
    case Some(k) => sc[k].kind != Constant
  }

  /** varReferenceAllowed: some frame declares s. */
  predicate ReferenceAllowed(sc: Scopes, s: string)
  {
    Innermost(sc, s).Some?
  }

  /** varDeclarationAllowed: the innermost frame does not declare s yet. */
  predicate DeclarationAllowed(sc: Scopes, s: string)
    requires sc != []
  {
    s !in sc[0].ids
  }

  /** allSymbols: the union of every frame's identifiers. */
  function AllSymbols(sc: Scopes): (r: set<string>)
    ensures forall s :: s in r <==> exists j :: 0 <= j < |sc| && s in sc[j].ids
  {
    if sc == [] then {} else sc[0].ids.Keys + AllSymbols(sc[1..])
  }

  /** addSymbol: bind s in the innermost frame, replacing any earlier binding there. */
  function AddValue(sc: Scopes, s: string, t: Option<Type>): (r: Scopes)
    requires sc != []
    ensures |r| == |sc| && r[1..] == sc[1..] && r[0].kind == sc[0].kind
  {
    [FrameValue(sc[0].kind, sc[0].ids[s := t])] + sc[1..]
  }

  /** Every table operation is stated against the value model, and these are what the
      model promises: a lookup finds a symbol iff some frame declares it, and then it
      is in allSymbols. */
  lemma {:induction false} ReferenceAllowedIffDeclared(sc: Scopes, s: string)
    ensures ReferenceAllowed(sc, s) <==> s in AllSymbols(sc)
    ensures TypeOf(sc, s).Some? ==> ReferenceAllowed(sc, s)
  {
  }

  /** After addSymbol the new binding is the one found, others are untouched, and a
      later redeclaration in the same frame is refused. */
  lemma AddValueEffect(sc: Scopes, s: string, t: Option<Type>, u: string)
    requires sc != []
    ensures TypeOf(AddValue(sc, s, t), s) == t
    ensures u != s ==> TypeOf(AddValue(sc, s, t), u) == TypeOf(sc, u)
    ensures !DeclarationAllowed(AddValue(sc, s, t), s)
    ensures AllSymbols(AddValue(sc, s, t)) == AllSymbols(sc) + {s}
    ensures Modifiable(AddValue(sc, s, t), s) <==> sc[0].kind != Constant
  {
    var r := AddValue(sc, s, t);
    assert r[0].ids.Keys == sc[0].ids.Keys + {s};
    assert Innermost(r, s) == Some(0);
    if u != s {
      InnermostAdd(sc, s, t, u);
    }
    AllSymbolsCons(r);
    AllSymbolsCons(sc);
  }

  lemma AllSymbolsCons(sc: Scopes)
    requires sc != []
    ensures AllSymbols(sc) == sc[0].ids.Keys + AllSymbols(sc[1..])
  {
  }

  lemma InnermostAdd(sc: Scopes, s: string, t: Option<Type>, u: string)
    requires sc != [] && u != s
    ensures Innermost(AddValue(sc, s, t), u) == Innermost(sc, u)
    ensures TypeOf(AddValue(sc, s, t), u) == TypeOf(sc, u)
  {
    var r := AddValue(sc, s, t);
    assert (u in r[0].ids) == (u in sc[0].ids);
    assert r[1..] == sc[1..];
  }

  /** A new frame shadows: its bindings are found first; popping it restores every
      lookup. */
  lemma {:induction false} PushShadows(sc: Scopes, f: FrameValue, s: string)
    ensures s in f.ids ==> TypeOf([f] + sc, s) == f.ids[s]
    ensures s in f.ids ==> (Modifiable([f] + sc, s) <==> f.kind != Constant)
    ensures s !in f.ids ==> TypeOf([f] + sc, s) == TypeOf(sc, s)
    ensures s !in f.ids ==> Modifiable([f] + sc, s) == Modifiable(sc, s)
    ensures DeclarationAllowed([f] + sc, s) <==> s !in f.ids
  {
    var r := [f] + sc;
    assert r[1..] == sc;
    if s !in f.ids {
      match Innermost(sc, s)
      case None =>
        assert Innermost(r, s) == None;
      case Some(k) =>
        assert Innermost(r, s) == Some(k + 1);
        assert r[k + 1] == sc[k];
    }
  }

  // ---------------------------------------------------------------------------
  // SymbolTableFrame
  // ---------------------------------------------------------------------------

  class Frame {
    const kind: Kind
    var ids: map<string, Option<Type>>

    function Value(): FrameValue
      reads this
    {
      FrameValue(kind, ids)
    }

    constructor (kind: Kind)
      ensures Value() == FrameValue(kind, map[])
    {
      this.kind := kind;
      ids := map[];
    }

    method Add(id: string, t: Option<Type>)
      modifies this
      ensures ids == old(ids)[id := t]
    {
      ids := ids[id := t];
    }

    function Contains(id: string): (r: bool)
      reads this
      ensures r <==> id in Value().ids
    {
      id in ids
    }

    /** addAll: every binding of the other frame is copied in, overriding this frame's
        binding of the same id. */
    method AddAll(other: Frame)
      requires other != this
      modifies this
      ensures ids == old(ids) + other.ids
    {
      var remaining := other.ids.Keys;
      while remaining != {}
        invariant remaining <= other.ids.Keys
        invariant ids.Keys == old(ids).Keys + (other.ids.Keys - remaining)
        invariant forall k :: k in ids ==>
          ids[k] == if k in other.ids && k !in remaining then other.ids[k] else old(ids)[k]
        decreases remaining
      {
        var k :| k in remaining;
        ids := ids[k := other.ids[k]];
        remaining := remaining - {k};
      }
      assert ids == old(ids) + other.ids;
    }

    function GetIds(): (r: set<string>)
      reads this
      ensures forall s :: s in r <==> Contains(s)
    {
      ids.Keys
    }

    /** getType: the stored type, null when id is not in this frame or was stored with
        a null type. */
    function GetType(id: string): (r: Option<Type>)
      reads this
      ensures !Contains(id) ==> r.None?
      ensures Contains(id) ==> r == Value().ids[id]
    {
      if id in ids then ids[id] else None
    }
  }

  // ---------------------------------------------------------------------------
  // SymbolTable
  // ---------------------------------------------------------------------------

  function ValuesOf(fs: seq<Frame>): (r: Scopes)
    reads fs
    ensures |r| == |fs| && forall j :: 0 <= j < |fs| ==> r[j] == fs[j].Value()
  {
    if fs == [] then [] else [fs[0].Value()] + ValuesOf(fs[1..])
  }

  class Table {
    /** The frame deque, the top of the stack first. */
    var frames: seq<Frame>

    /** No frame object is on the stack twice. */
    ghost predicate Valid()
      reads this
    {
      forall i, j :: 0 <= i < j < |frames| ==> frames[i] != frames[j]
    }

    function Scopes(): Scopes
      reads this, frames
    {
      ValuesOf(frames)
    }

    constructor ()
      ensures Valid() && Scopes() == [] && fresh(frames)
    {
      frames := [];
    }

    /** getType: the frames are searched from the top, and the first one declaring the
        symbol answers. */
    method GetType(symbol: string) returns (r: Option<Type>)
      ensures r == TypeOf(Scopes(), symbol)
    {
      var i := 0;
      while i < |frames|
        invariant 0 <= i <= |frames|
        invariant forall j :: 0 <= j < i ==> symbol !in Scopes()[j].ids
      {
        if frames[i].Contains(symbol) {
          InnermostAt(Scopes(), symbol, i);
          return frames[i].GetType(symbol);
        }
        i := i + 1;
      }
      InnermostNone(Scopes(), symbol);
      return None;
    }

    method SymbolModifiable(symbol: string) returns (r: bool)
      ensures r == Modifiable(Scopes(), symbol)
    {
      var i := 0;
      while i < |frames|
        invariant 0 <= i <= |frames|
        invariant forall j :: 0 <= j < i ==> symbol !in Scopes()[j].ids
      {
        if frames[i].Contains(symbol) {
          InnermostAt(Scopes(), symbol, i);
          return frames[i].kind != Constant;
        }
        i := i + 1;
      }
      InnermostNone(Scopes(), symbol);
      return false;
    }

    /** varDeclarationAllowed inspects only the top frame; an empty stack is a null
        dereference in the source. */
    function VarDeclarationAllowed(symbol: string): (r: bool)
      requires frames != []
      reads this, frames
      ensures r == DeclarationAllowed(Scopes(), symbol)
    {
      !frames[0].Contains(symbol)
    }

    method VarReferenceAllowed(symbol: string) returns (r: bool)
      ensures r == ReferenceAllowed(Scopes(), symbol)
    {
      var i := 0;
      while i < |frames|
        invariant 0 <= i <= |frames|
        invariant forall j :: 0 <= j < i ==> symbol !in Scopes()[j].ids
      {
        if frames[i].Contains(symbol) {
          InnermostAt(Scopes(), symbol, i);
          return true;
        }
        i := i + 1;
      }
      InnermostNone(Scopes(), symbol);
      return false;
    }

    /** addSymbol: bind the symbol in the top frame. */
    method AddSymbol(symbol: string, t: Option<Type>)
      requires Valid() && frames != []
      modifies frames[0]
      ensures Valid() && frames == old(frames)
      ensures Scopes() == AddValue(old(Scopes()), symbol, t)
    {
      frames[0].Add(symbol, t);
      assert forall j :: 1 <= j < |frames| ==> frames[j] != frames[0];
      assert ValuesOf(frames)[1..] == old(ValuesOf(frames))[1..];
    }

    /** addAll with one type for every symbol, in iteration order. */
    method AddAllOfType(symbols: seq<string>, t: Option<Type>)
      requires Valid() && frames != []
      modifies frames[0]
      ensures Valid() && frames == old(frames)
      ensures Scopes() == AddEach(old(Scopes()), symbols, seq(|symbols|, _ => t))
    {
      ghost var start := Scopes();
      var i := 0;
      while i < |symbols|
        invariant 0 <= i <= |symbols| && Valid() && frames == old(frames)
        invariant Scopes() == AddEach(start, symbols[..i], seq(i, _ => t))
      {
        AddEachSnoc(start, symbols[..i], seq(i, _ => t), symbols[i], t);
        assert symbols[..i + 1] == symbols[..i] + [symbols[i]];
        assert seq(i + 1, _ => t) == seq(i, _ => t) + [t];
        AddSymbol(symbols[i], t);
        i := i + 1;
      }
      assert symbols[..i] == symbols;
    }

    /** addAll with the i-th type for the i-th symbol; a shorter type list is an index
        error in the source. */
    method AddAllTyped(symbols: seq<string>, types: seq<Option<Type>>)
      requires Valid() && frames != []
      requires |types| >= |symbols|
      modifies frames[0]
      ensures Valid() && frames == old(frames)
      ensures Scopes() == AddEach(old(Scopes()), symbols, types[..|symbols|])
    {
      ghost var start := Scopes();
      var i := 0;
      while i < |symbols|
        invariant 0 <= i <= |symbols| && Valid() && frames == old(frames)
        invariant Scopes() == AddEach(start, symbols[..i], types[..i])
      {
        AddEachSnoc(start, symbols[..i], types[..i], symbols[i], types[i]);
        assert symbols[..i + 1] == symbols[..i] + [symbols[i]];
        assert types[..i + 1] == types[..i] + [types[i]];
        AddSymbol(symbols[i], types[i]);
        i := i + 1;
      }
      assert symbols[..i] == symbols;
    }

    method PushFrame(isConstant: bool)
      requires Valid()
      modifies this
      ensures Valid() && |frames| == |old(frames)| + 1 && frames[1..] == old(frames) && fresh(frames[0])
      ensures Scopes() == [FrameValue(if isConstant then Constant else Mutable, map[])] + old(Scopes())
    {
      var f := new Frame(if isConstant then Constant else Mutable);
      frames := [f] + frames;
      assert ValuesOf(frames)[1..] == ValuesOf(old(frames));
    }

    method PushLogicalFrame()
      requires Valid()
      modifies this
      ensures Valid() && |frames| == |old(frames)| + 1 && frames[1..] == old(frames) && fresh(frames[0])
      ensures Scopes() == [FrameValue(Logical, map[])] + old(Scopes())
    {
      var f := new Frame(Logical);
      frames := [f] + frames;
      assert ValuesOf(frames)[1..] == ValuesOf(old(frames));
    }

    /** popFrame: remove and return the top frame; an empty stack raises in the source. */
    method PopFrame() returns (f: Frame)
      requires Valid() && frames != []
      modifies this
      ensures Valid() && frames == old(frames)[1..] && f == old(frames)[0]
      ensures Scopes() == old(Scopes())[1..] && f.Value() == old(Scopes())[0]
    {
      f := frames[0];
      frames := frames[1..];
    }

    /** peekFrame: the top frame, null when the stack is empty. */
    function PeekFrame(): (r: Option<Frame>)
      reads this
      ensures r.Some? <==> frames != []
      ensures r.Some? ==> r.value == frames[0]
    {
      if frames == [] then None else Some(frames[0])
    }

    method AllSymbolsOf() returns (r: set<string>)
      ensures r == AllSymbols(Scopes())
    {
      ghost var sc := Scopes();
      r := {};
      var i := 0;
      while i < |frames|
        invariant 0 <= i <= |frames|
        invariant r == AllSymbols(sc[..i])
      {
        AllSymbolsSnoc(sc[..i], sc[i]);
        assert sc[..i + 1] == sc[..i] + [sc[i]];
        r := r + frames[i].GetIds();
        i := i + 1;
      }
      assert sc[..i] == sc;
    }

    function GetDepth(): (r: nat)
      reads this
      ensures r == |Scopes()|
    {
      |frames|
    }
  }

  /** The effect of adding each symbol with its type, in order. */
  function AddEach(sc: Scopes, symbols: seq<string>, types: seq<Option<Type>>): (r: Scopes)
    requires sc != [] && |types| == |symbols|
    ensures |r| == |sc| && r[1..] == sc[1..] && r[0].kind == sc[0].kind
    decreases |symbols|
  {
    if symbols == [] then sc
    else
      var n := |symbols| - 1;
      AddValue(AddEach(sc, symbols[..n], types[..n]), symbols[n], types[n])
  }

  lemma AddEachSnoc(sc: Scopes, symbols: seq<string>, types: seq<Option<Type>>, s: string, t: Option<Type>)
    requires sc != [] && |types| == |symbols|
    ensures AddEach(sc, symbols + [s], types + [t]) == AddValue(AddEach(sc, symbols, types), s, t)
  {
    assert (symbols + [s])[..|symbols|] == symbols;
    assert (types + [t])[..|symbols|] == types;
  }

  /** After the additions every listed symbol is declared in the top frame, with the
      type of its last occurrence, and nothing else is. */
  lemma {:induction false} AddEachEffect(sc: Scopes, symbols: seq<string>, types: seq<Option<Type>>)
    requires sc != [] && |types| == |symbols|
    ensures AddEach(sc, symbols, types)[0].ids.Keys == sc[0].ids.Keys + set s | s in symbols
    ensures forall s :: s in symbols ==> s in AddEach(sc, symbols, types)[0].ids
    decreases |symbols|
  {
    if symbols != [] {
      var n := |symbols| - 1;
      AddEachEffect(sc, symbols[..n], types[..n]);
      assert symbols == symbols[..n] + [symbols[n]];
      assert (set s | s in symbols) == (set s | s in symbols[..n]) + {symbols[n]};
    }
  }

  lemma InnermostAt(sc: Scopes, s: string, i: nat)
    requires i < |sc| && s in sc[i].ids
    requires forall j :: 0 <= j < i ==> s !in sc[j].ids
    ensures Innermost(sc, s) == Some(i)
  {
  }

  lemma InnermostNone(sc: Scopes, s: string)
    requires forall j :: 0 <= j < |sc| ==> s !in sc[j].ids
    ensures Innermost(sc, s) == None
  {
  }

  lemma AllSymbolsSnoc(sc: Scopes, f: FrameValue)
    ensures AllSymbols(sc + [f]) == AllSymbols(sc) + f.ids.Keys
  {
    if sc == [] {
      assert [] + [f] == [f];
    } else {
      AllSymbolsSnoc(sc[1..], f);
      assert (sc + [f])[1..] == sc[1..] + [f];
    }
  }
}
