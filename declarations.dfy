/** The checker's declaration and reference checks, as its visit of a development
    applies them to expressions, propositions, bounds and function declarations: a `new`
    and each of its parameters and methods open a frame, a field may be defined once, a
    formal or constant declared once per frame, a lookup must find a declaration, a call
    must name a declared function, an assignment binds its target as Opaque, and a `new`
    with a class name is recorded under that name. A formal without a type annotation
    takes the default type on top of the default-type stack. */
module Declarations {
  import opened Wrappers
  import opened Types
  import opened Syntax
  import opened SymbolTable
  import LocalVariableDeclCollector
  import IdentifierAndTypeExtractor
  import BoogieFunctions

  /** What the visit reads and changes. */
  datatype Scope = Scope(symbols: Scopes, defaults: seq<Type>, funcs: BoogieFunctions.Table, classes: map<string, Expr>)

  /** What visiting a whole tree keeps: the same frames, every frame but the innermost
      unchanged, the innermost of the same kind and holding at least the names it held,
      the same default types and functions. */
  predicate Keeps(s: Scope, s': Scope)
  {
    |s'.symbols| == |s.symbols| && s'.defaults == s.defaults && s'.funcs == s.funcs &&
    (s.symbols != [] ==>
      s'.symbols[1..] == s.symbols[1..] && s'.symbols[0].kind == s.symbols[0].kind &&
      s.symbols[0].ids.Keys <= s'.symbols[0].ids.Keys)
  }

  /** pushFrame: a frame of the given kind with nothing in it. */
  function Push(s: Scope, k: Kind): (r: Scope)
    ensures r.symbols != [] && r.symbols[1..] == s.symbols && r.symbols[0] == FrameValue(k, map[])
  {
    s.(symbols := [FrameValue(k, map[])] + s.symbols)
  }

  function Pop(s: Scope): Scope
    requires s.symbols != []
  {
    s.(symbols := s.symbols[1..])
  }

  /** addSymbol. */
  function Add(s: Scope, x: string, t: Type): (r: Scope)
    requires s.symbols != []
    ensures Keeps(s, r) && r.classes == s.classes
    ensures x in r.symbols[0].ids && r.symbols[0].ids == s.symbols[0].ids[x := Some(t)]
  {
    s.(symbols := AddValue(s.symbols, x, Some(t)))
  }

  // ---------------------------------------------------------------------------
  // Constants and formals
  // ---------------------------------------------------------------------------

  /** One `id [: type]` declared in the innermost frame: the annotation's type, else the
      default; a name the innermost frame already declares is refused. A missing default
      is the empty default-type stack. */
  function Declare(s: Scope, p: FormalParam, default: Option<Type>): (r: Outcome<Scope>)
    requires s.symbols != []
    ensures r.Success? <==>
      IdentifierAndTypeExtractor.Extract(p).Success? && DeclarationAllowed(s.symbols, p.id) &&
      (p.annotation.Some? || default.Some?)
    ensures IdentifierAndTypeExtractor.Extract(p).Success? && !DeclarationAllowed(s.symbols, p.id) ==>
      r == CheckFail(p.id + " already declared.")
    ensures r.Success? ==> Keeps(s, r.value) && r.value.classes == s.classes
    ensures r.Success? ==> p.id in r.value.symbols[0].ids && r.value.symbols[0].ids.Keys == s.symbols[0].ids.Keys + {p.id}
    ensures r.Success? ==>
      TypeOf(r.value.symbols, p.id) == Some(if p.annotation.Some? then IdentifierAndTypeExtractor.SuffixType(p.annotation.value).value else default.value)
  {
    var x :- IdentifierAndTypeExtractor.Extract(p);
    if !DeclarationAllowed(s.symbols, x.0) then CheckFail(x.0 + " already declared.")
    else if x.1.Some? then
      AddValueEffect(s.symbols, x.0, Some(x.1.value), x.0);
      Success(Add(s, x.0, x.1.value))
    else if default.None? then InternalFail("NoSuchElementException")
    else
      AddValueEffect(s.symbols, x.0, Some(default.value), x.0);
      Success(Add(s, x.0, default.value))
  }

  /** A constant declaration: Bitstring unless annotated. */
  function DeclareConst(s: Scope, p: FormalParam): (r: Outcome<Scope>)
    requires s.symbols != []
    ensures r == Declare(s, p, Some(Bitstring))
  {
    Declare(s, p, Some(Bitstring))
  }

  /** A formal parameter: the default is the top of the default-type stack. */
  function DeclareFormal(s: Scope, p: FormalParam): (r: Outcome<Scope>)
    requires s.symbols != []
    ensures r == Declare(s, p, if s.defaults == [] then None else Some(s.defaults[0]))
  {
    Declare(s, p, if s.defaults == [] then None else Some(s.defaults[0]))
  }

  /** The formals of one list, in order: on success they are pairwise distinct, none was
      in the innermost frame before, and all are in it after. */
  function DeclareFormals(fs: seq<FormalParam>, s: Scope): (r: Outcome<Scope>)
    requires s.symbols != []
    ensures r.Success? ==> Keeps(s, r.value) && r.value.classes == s.classes
    ensures r.Success? ==> forall i :: 0 <= i < |fs| ==> fs[i].id !in s.symbols[0].ids && fs[i].id in r.value.symbols[0].ids
    ensures r.Success? ==> forall i, j :: 0 <= i < j < |fs| ==> fs[i].id != fs[j].id
    decreases fs
  {
    if fs == [] then Success(s)
    else
      var s1 :- DeclareFormal(s, fs[0]);
      var s2 :- DeclareFormals(fs[1..], s1);
      assert forall i :: 1 <= i < |fs| ==> fs[i] == fs[1..][i - 1];
      Success(s2)
  }

  // ---------------------------------------------------------------------------
  // Expressions
  // ---------------------------------------------------------------------------

  /** The visit of an expression. */
  function Scan(e: Expr, s: Scope): (r: Outcome<Scope>)
    requires s.symbols != []
    ensures r.Success? ==> Keeps(s, r.value)
    decreases e, 2
  {
    match e
    case Lookup(x) =>
      if ReferenceAllowed(s.symbols, x) then Success(s) else CheckFail(x + " not declared.")
    case Func(name, args) =>
      var s1 :- ScanList(args, s, e);
      if name in s1.funcs.byName then Success(s1) else CheckFail("Function not declared: " + name)
    case Assign(x, v) =>
      var s1 :- Scan(v, s);
      Success(Add(s1, x, Opaque))
    case New(_, _, _) => ScanNew(e, s)
    case Assert(p) => ScanProp(p, s)
    case Admit(p) => ScanProp(p, s)
    case _ => ScanList(ExprChildren(e), s, e)
  }

  function ScanList(xs: seq<Expr>, s: Scope, parent: Expr): (r: Outcome<Scope>)
    requires s.symbols != []
    requires forall i :: 0 <= i < |xs| ==> xs[i] < parent
    ensures r.Success? ==> Keeps(s, r.value)
    decreases parent, 1, |xs|
  {
    if xs == [] then Success(s)
    else
      var s1 :- Scan(xs[0], s);
      ScanList(xs[1..], s1, parent)
  }

  /** A `new` leaves the frames exactly as it found them; the class it names is recorded. */
  function ScanNew(e: Expr, s: Scope): (r: Outcome<Scope>)
    requires e.New? && s.symbols != []
    ensures r.Success? ==> Keeps(s, r.value) && r.value.symbols == s.symbols
    ensures r.Success? && e.classIdent.Some? ==> r.value.classes == r.value.classes[e.classIdent.value := e]
    decreases e, 1
  {
    var s1 :- ScanParams(e.params, Push(s, Mutable));
    var s2 :- ScanMethods(e.methods, s1);
    var out := Pop(s2);
    Success(if e.classIdent.Some? then out.(classes := out.classes[e.classIdent.value := e]) else out)
  }

  /** The parameters of a `new`: each value is visited in a frame of its own holding its
      assignment targets, and then the field is defined, once, in the `new`'s frame. On
      success the fields are pairwise distinct, new to that frame, and all defined. */
  function ScanParams(ps: seq<NewParam>, s: Scope): (r: Outcome<Scope>)
    requires s.symbols != []
    ensures r.Success? ==> Keeps(s, r.value)
    ensures r.Success? ==> forall i :: 0 <= i < |ps| ==> ps[i].id !in s.symbols[0].ids && ps[i].id in r.value.symbols[0].ids
    ensures r.Success? ==> forall i, j :: 0 <= i < j < |ps| ==> ps[i].id != ps[j].id
    decreases ps, 0
  {
    if ps == [] then Success(s)
    else
      var frame := Push(s, Mutable);
      var declared := frame.(symbols := LocalVariableDeclCollector.DeclareAll(frame.symbols, LocalVariableDeclCollector.AssignTargets(ps[0].value)));
      var s1 :- Scan(ps[0].value, declared);
      var s2 := Pop(s1);
      assert s2.symbols == s.symbols;
      if !DeclarationAllowed(s2.symbols, ps[0].id) then CheckFail(ps[0].id + " already defined.")
      else
        var s3 := Add(s2, ps[0].id, Opaque);
        var s4 :- ScanParams(ps[1..], s3);
        assert forall i :: 1 <= i < |ps| ==> ps[i] == ps[1..][i - 1];
        Success(s4)
  }

  /** The methods of a `new`: each opens a frame holding the assignment targets of its
      body, declares its formals with Bitstring as the default and visits its body; a
      method without a body is a null pointer. */
  function ScanMethods(ms: seq<MethodDef>, s: Scope): (r: Outcome<Scope>)
    requires s.symbols != []
    ensures r.Success? ==> Keeps(s, r.value) && r.value.symbols == s.symbols
    decreases ms, 0
  {
    if ms == [] then Success(s)
    else
      var s1 :- ScanMethod(ms[0], s);
      ScanMethods(ms[1..], s1)
  }

  function ScanMethod(m: MethodDef, s: Scope): (r: Outcome<Scope>)
    requires s.symbols != []
    ensures r.Success? ==> Keeps(s, r.value) && r.value.symbols == s.symbols
    decreases m, 0
  {
    if m.body.None? then NullPointer()
    else
      var frame := Push(s, Mutable);
      var declared := frame.(symbols := LocalVariableDeclCollector.DeclareAll(frame.symbols, LocalVariableDeclCollector.AssignTargets(m.body.value)),
                             defaults := [Bitstring] + s.defaults);
      var s1 :- DeclareFormals(m.formals, declared);
      var s2 :- Scan(m.body.value, s1);
      Success(Pop(s2).(defaults := s2.defaults[1..]))
  }

  // ---------------------------------------------------------------------------
  // Propositions and bounds
  // ---------------------------------------------------------------------------

  /** The visit of a proposition: only expressions inside env terms are looked at; a
      quantifier opens a constant frame for its formals, Bitstring by default. */
  function ScanProp(p: Prop, s: Scope): (r: Outcome<Scope>)
    requires s.symbols != []
    ensures r.Success? ==> Keeps(s, r.value)
    decreases p, 1
  {
    if p.PEnv? then ScanEnv(p.params, s)
    else if p.Quantified? then
      var frame := Push(s, Constant).(defaults := [Bitstring] + s.defaults);
      var s1 :- DeclareFormals(p.formals, frame);
      var s2 :- ScanProp(p.body, s1);
      Success(Pop(s2).(defaults := s2.defaults[1..]))
    else ScanProps(PropChildren(p), s, p)
  }

  function ScanEnv(xs: seq<Expr>, s: Scope): (r: Outcome<Scope>)
    requires s.symbols != []
    ensures r.Success? ==> Keeps(s, r.value)
    decreases xs, 0
  {
    if xs == [] then Success(s)
    else
      var s1 :- Scan(xs[0], s);
      ScanEnv(xs[1..], s1)
  }

  function ScanProps(ps: seq<Prop>, s: Scope, parent: Prop): (r: Outcome<Scope>)
    requires s.symbols != []
    requires forall i :: 0 <= i < |ps| ==> ps[i] < parent
    ensures r.Success? ==> Keeps(s, r.value)
    decreases parent, 0, |ps|
  {
    if ps == [] then Success(s)
    else
      var s1 :- ScanProp(ps[0], s);
      ScanProps(ps[1..], s1, parent)
  }

  /** The visit of a bounds term: only expressions inside env terms are looked at (a
      bounds function is not an expression call and is not checked). */
  function ScanBounds(b: Bounds, s: Scope): (r: Outcome<Scope>)
    requires s.symbols != []
    ensures r.Success? ==> Keeps(s, r.value)
    decreases b, 1
  {
    match b
    case BEnv(xs) => ScanEnv(xs, s)
    case BParen(x) => ScanBounds(x, s)
    case BFunc(_, args) => ScanBoundsList(args, s, b)
    case BSum(x, _, y) => ScanBoundsList([x, y], s, b)
    case BProduct(x, _, y) => ScanBoundsList([x, y], s, b)
    case BExp(x, _, y) => ScanBoundsList([x, y], s, b)
    case _ => Success(s)
  }

  function ScanBoundsList(bs: seq<Bounds>, s: Scope, parent: Bounds): (r: Outcome<Scope>)
    requires s.symbols != []
    requires forall i :: 0 <= i < |bs| ==> bs[i] < parent
    ensures r.Success? ==> Keeps(s, r.value)
    decreases parent, 0, |bs|
  {
    if bs == [] then Success(s)
    else
      var s1 :- ScanBounds(bs[0], s);
      ScanBoundsList(bs[1..], s1, parent)
  }

  // ---------------------------------------------------------------------------
  // Function declarations
  // ---------------------------------------------------------------------------

  /** A function declaration: a pure function may not have a body (no body is ever
      accepted as pure); the formals default to Bitstring for a pure function and to
      Opaque otherwise and live in a frame of their own, where the body is visited; the
      function is declared only afterwards, so its own body cannot call it. */
  function DeclareFunc(s: Scope, f: FuncDecl): (r: Outcome<Scope>)
    requires s.symbols != []
    ensures r.Success? ==> r.value.symbols == s.symbols && r.value.defaults == s.defaults
    ensures r.Success? ==> f.name !in s.funcs.byName && r.value.funcs == BoogieFunctions.PutValue(s.funcs, f.name, f).value
    ensures f.isPure && f.body.Some? ==> r == CheckFail("Function body is not pure.")
  {
    if f.isPure && f.body.Some? then CheckFail("Function body is not pure.")
    else
      var frame := Push(s, Mutable).(defaults := [if f.isPure then Bitstring else Opaque] + s.defaults);
      var s1 :- DeclareFormals(f.formals, frame);
      var s2 :- if f.body.Some? then Scan(f.body.value, s1) else Success(s1);
      var out := Pop(s2).(defaults := s2.defaults[1..]);
      var funcs :- BoogieFunctions.PutValue(out.funcs, f.name, f);
      Success(out.(funcs := funcs))
  }

  // ---------------------------------------------------------------------------
  // A reference definition for trees that bind nothing
  // ---------------------------------------------------------------------------

  /** No `new`, no assertion and no assignment: nothing in e opens a frame or binds. */
  predicate Plain(e: Expr)
    decreases e, 1
  {
    match e
    case New(_, _, _) => false
    case Assert(_) => false
    case Admit(_) => false
    case Assign(_, _) => false
    case _ => PlainList(ExprChildren(e), e)
  }

  predicate PlainList(xs: seq<Expr>, parent: Expr)
    requires forall i :: 0 <= i < |xs| ==> xs[i] < parent
    decreases parent, 0, |xs|
  {
    forall i :: 0 <= i < |xs| ==> Plain(xs[i])
  }

  /** The names a plain tree looks up, and the functions it calls. */
  function Names(e: Expr): (set<string>, set<string>)
    decreases e, 1
  {
    var inner := NamesList(ExprChildren(e), e);
    match e
    case Lookup(x) => ({x}, {})
    case Func(name, _) => (inner.0, inner.1 + {name})
    case _ => inner
  }

  function NamesList(xs: seq<Expr>, parent: Expr): (set<string>, set<string>)
    requires forall i :: 0 <= i < |xs| ==> xs[i] < parent
    decreases parent, 0, |xs|
  {
    if xs == [] then ({}, {})
    else
      var a := Names(xs[0]);
      var b := NamesList(xs[1..], parent);
      (a.0 + b.0, a.1 + b.1)
  }

  /** A plain tree passes iff every name it looks up is declared in some frame and every
      function it calls is declared; it changes nothing. */
  lemma {:induction false} PlainScan(e: Expr, s: Scope)
    requires s.symbols != [] && Plain(e)
    ensures Scan(e, s).Success? <==> Names(e).0 <= AllSymbols(s.symbols) && Names(e).1 <= s.funcs.byName.Keys
    ensures Scan(e, s).Success? ==> Scan(e, s).value == s
    decreases e, 1
  {
    ReferenceAllowedIffDeclared(s.symbols, if e.Lookup? then e.id else "");
    if !e.Lookup? {
      PlainScanList(ExprChildren(e), s, e);
    }
  }

  lemma {:induction false} PlainScanList(xs: seq<Expr>, s: Scope, parent: Expr)
    requires s.symbols != []
    requires forall i :: 0 <= i < |xs| ==> xs[i] < parent && Plain(xs[i])
    ensures ScanList(xs, s, parent).Success? <==>
      NamesList(xs, parent).0 <= AllSymbols(s.symbols) && NamesList(xs, parent).1 <= s.funcs.byName.Keys
    ensures ScanList(xs, s, parent).Success? ==> ScanList(xs, s, parent).value == s
    decreases parent, 0, |xs|
  {
    if xs != [] {
      PlainScan(xs[0], s);
      PlainScanList(xs[1..], s, parent);
    }
  }

  // ---------------------------------------------------------------------------
  // The declaration rules on their typical failures
  // ---------------------------------------------------------------------------

  /** A field defined twice in one `new` is refused, whatever the fields' values. */
  lemma FieldDefinedTwice(e: Expr, s: Scope, i: nat, j: nat)
    requires e.New? && s.symbols != [] && i < j < |e.params| && e.params[i].id == e.params[j].id
    ensures ScanNew(e, s).Failure?
  {
  }

  /** A method whose body assigns one of its own formals, not declared outside, is
      refused: the assignment target is declared in the method's frame before the formals
      are. */
  lemma FormalAssignedRefused(m: MethodDef, s: Scope, x: string)
    requires s.symbols != [] && m.body.Some?
    requires x in LocalVariableDeclCollector.AssignTargets(m.body.value) && !ReferenceAllowed(s.symbols, x)
    requires m.formals != [] && m.formals[0].id == x && IdentifierAndTypeExtractor.Extract(m.formals[0]).Success?
    ensures ScanMethod(m, s) == CheckFail(x + " already declared.")
  {
    var frame := Push(s, Mutable);
    var ts := LocalVariableDeclCollector.AssignTargets(m.body.value);
    LocalVariableDeclCollector.DeclareAllEffect(frame.symbols, ts);
    assert !ReferenceAllowed(frame.symbols, x) by {
      PushShadows(s.symbols, FrameValue(Mutable, map[]), x);
      ReferenceAllowedIffDeclared(frame.symbols, x);
      ReferenceAllowedIffDeclared(s.symbols, x);
      AllSymbolsCons(frame.symbols);
    }
    var declared := frame.(symbols := LocalVariableDeclCollector.DeclareAll(frame.symbols, ts),
                           defaults := [Bitstring] + s.defaults);
    assert x in declared.symbols[0].ids;
    assert DeclareFormal(declared, m.formals[0]) == CheckFail(x + " already declared.");
  }

  /** A function cannot call itself: its body is visited before it is declared. */
  lemma RecursionRefused(s: Scope, f: FuncDecl)
    requires s.symbols != [] && !f.isPure && f.formals == []
    requires f.body == Some(Func(f.name, [])) && f.name !in s.funcs.byName
    ensures DeclareFunc(s, f) == CheckFail("Function not declared: " + f.name)
  {
    var frame := Push(s, Mutable).(defaults := [Opaque] + s.defaults);
    assert DeclareFormals(f.formals, frame) == Success(frame);
    assert ScanList([], frame, f.body.value) == Success(frame);
  }
}
