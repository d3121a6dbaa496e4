/** Inline: splices an object that is passed as a constructor parameter into the object
    that receives it. The inner object's members become members of the outer object
    under fresh names, and every invocation `x.m(args)` on the parameter `x` inside the
    outer methods becomes a sequence of assignments of the arguments to fresh locals
    followed by the renamed body of `m`. */
module Inline {
  import opened Wrappers
  import opened Syntax
  import opened SymbolTable
  import Util
  import Fresh
  import Order
  import FormalParamsCollector
  import LocalVariableDeclCollector
  import VariableReferenceCollector
  import VarSubstituter

  // ---------------------------------------------------------------------------
  // createFreshId
  // ---------------------------------------------------------------------------

  /** createFreshId: the head of the supplied ids is consumed, and returned when it is not
      in use; otherwise the smallest unused `prefix + i`. */
  function FreshId(prefix: string, used: set<string>, supplied: seq<string>): (r: (string, seq<string>))
    ensures r.0 !in used
    ensures r.1 == if supplied == [] then [] else supplied[1..]
    ensures supplied != [] && supplied[0] !in used ==> r.0 == supplied[0]
    ensures (supplied == [] || supplied[0] in used) ==> r.0 == Fresh.FreshName(prefix, used)
  {
    Fresh.FreshNameSmallest(prefix, used, 0);
    if supplied != [] && supplied[0] !in used then (supplied[0], supplied[1..])
    else (Fresh.FreshName(prefix, used), if supplied == [] then [] else supplied[1..])
  }

  /** The source's procedure: remove the head of the list, then count up from 0. */
  method CreateFreshId(prefix: string, used: set<string>, supplied: seq<string>) returns (name: string, rest: seq<string>)
    ensures (name, rest) == FreshId(prefix, used, supplied)
  {
    rest := supplied;
    if rest != [] {
      var cur := rest[0];
      rest := rest[1..];
      if cur !in used {
        return cur, rest;
      }
    }
    var i;
    name, i := Fresh.SmallestFresh(prefix, used);
  }

  // ---------------------------------------------------------------------------
  // doInline: fresh outer members for the inner object's parameters
  // ---------------------------------------------------------------------------

  /** The result of renaming the inner parameters: the renamed parameters in order, the
      member renaming, the outer members afterwards and the supplied ids still unused. */
  datatype Allocation = Allocation(params: seq<NewParam>, idMap: map<string, string>, members: set<string>, supplied: seq<string>)

  /** The allocation loop over the inner parameters, left to right: each gets a name
      that is neither an outer member (including the ones allocated before it) nor a
      local variable the inner methods declare. */
  function Allocate(inner: seq<NewParam>, members: set<string>, frame: set<string>, supplied: seq<string>): (r: Allocation)
    ensures |r.params| == |inner|
    ensures forall i :: 0 <= i < |inner| ==> r.params[i].value == inner[i].value
    ensures forall i :: 0 <= i < |inner| ==>
      r.params[i].id !in members && r.params[i].id !in frame && r.params[i].id in r.members
    ensures forall i, j :: 0 <= i < j < |inner| ==> r.params[i].id != r.params[j].id
    ensures members <= r.members
    ensures forall i :: 0 <= i < |inner| ==> inner[i].id in r.idMap
    decreases |inner|
  {
    if inner == [] then Allocation([], map[], members, supplied)
    else
      var n := |inner| - 1;
      var prev := Allocate(inner[..n], members, frame, supplied);
      var f := FreshId("m_", prev.members + frame, prev.supplied);
      var w := Allocation(prev.params + [NewParam(f.0, inner[n].value)], prev.idMap[inner[n].id := f.0],
                          prev.members + {f.0}, f.1);
      assert forall i :: 0 <= i < n ==> w.params[i] == prev.params[i] && inner[..n][i] == inner[i];
      w
  }

  /** Each inner member is renamed to the name allocated for its last occurrence (the
      source records the renaming in a map, so a repeated name keeps the later one). */
  lemma {:induction false} AllocateRenames(inner: seq<NewParam>, members: set<string>, frame: set<string>, supplied: seq<string>, i: nat)
    requires i < |inner| && forall j :: i < j < |inner| ==> inner[j].id != inner[i].id
    ensures Allocate(inner, members, frame, supplied).idMap[inner[i].id] == Allocate(inner, members, frame, supplied).params[i].id
    decreases |inner|
  {
    var n := |inner| - 1;
    if i < n {
      AllocateRenames(inner[..n], members, frame, supplied, i);
      assert Allocate(inner, members, frame, supplied).params[i] == Allocate(inner[..n], members, frame, supplied).params[i];
    }
  }

  /** The index of the first parameter named id, or the length when none is. */
  function FirstIndexOf(ps: seq<NewParam>, id: string): (k: nat)
    ensures k <= |ps|
    ensures k < |ps| ==> ps[k].id == id
    ensures forall j :: 0 <= j < k ==> ps[j].id != id
  {
    if ps == [] then 0
    else if ps[0].id == id then 0
    else 1 + FirstIndexOf(ps[1..], id)
  }

  /** The outer parameters with the one at pos removed and ins inserted in its place (at
      the end, when pos is past the last parameter). */
  function Splice(outer: seq<NewParam>, pos: nat, ins: seq<NewParam>): seq<NewParam>
  {
    if pos < |outer| then outer[..pos] + ins + outer[pos + 1..] else outer + ins
  }

  /** The parameter ids of a list. */
  function ParamIds(ps: seq<NewParam>): set<string>
  {
    set i | 0 <= i < |ps| :: ps[i].id
  }

  /** The local variables the inner methods declare: the frame the local-declaration
      collector fills when run over them in a fresh mutable frame. */
  function FrameIds(methods: seq<MethodDef>, sc: Scopes): set<string>
  {
    LocalVariableDeclCollector.DeclareAll([FrameValue(Mutable, map[])] + sc,
      LocalVariableDeclCollector.TargetsOfMethods(methods))[0].ids.Keys
  }

  /** MethodsCollector: methods by name, a later definition replacing an earlier one. */
  function MethodMap(ms: seq<MethodDef>): (r: map<string, MethodDef>)
    ensures forall i :: 0 <= i < |ms| ==> ms[i].name in r
    ensures forall x :: x in r ==> r[x].name == x
    ensures forall i :: 0 <= i < |ms| && (forall j :: i < j < |ms| ==> ms[j].name != ms[i].name) ==> r[ms[i].name] == ms[i]
    decreases |ms|
  {
    if ms == [] then map[]
    else
      var n := |ms| - 1;
      var prev := MethodMap(ms[..n]);
      assert forall i :: 0 <= i < n ==> ms[..n][i] == ms[i];
      prev[ms[n].name := ms[n]]
  }

  // ---------------------------------------------------------------------------
  // MethodInliner.outAInvokeExpr: one invocation
  // ---------------------------------------------------------------------------

  /** What the method inliner knows about the inlined parameter: its name, the inner
      methods, the outer members, the member renaming and the checker's symbol table. */
  datatype Target = Target(inlineId: string, methods: map<string, MethodDef>, members: set<string>,
                           memberIdMap: map<string, string>, symbols: Scopes)

  /** Fresh locals for the inner method's variables, allocated in the given order. */
  datatype Locals = Locals(names: map<string, string>, used: set<string>)

  function LocalNames(order: seq<string>, used: set<string>): (r: Locals)
    ensures forall i :: 0 <= i < |order| ==> order[i] in r.names
    ensures used <= r.used
    ensures forall x :: x in r.names ==> r.names[x] !in used && r.names[x] in r.used
    ensures forall x, y :: x in r.names && y in r.names && x != y ==> r.names[x] != r.names[y]
    decreases |order|
  {
    if order == [] then Locals(map[], used)
    else
      var n := |order| - 1;
      var prev := LocalNames(order[..n], used);
      var name := Fresh.FreshName("l_", prev.used);
      Fresh.FreshNameSmallest("l_", prev.used, 0);
      assert forall i :: 0 <= i < n ==> order[..n][i] == order[i];
      Locals(prev.names[order[n] := name], prev.used + {name})
  }

  /** The value assigned to the i-th formal. As written the guard is `|actuals| >= i`, so
      the i == |actuals| case reads past the end of the arguments; corrected, a missing
      argument defaults to 0. */
  function ArgumentValue(actuals: seq<Expr>, i: nat, asWritten: bool): (r: Outcome<Expr>)
    ensures r.Success? ==> Own(r.value) == PrimaryL
  {
    if i < |actuals| then Success(Util.ToPrimaryExpr(actuals[i]))
    else if asWritten && i == |actuals| then
      InternalFail(OutOfBounds(i, |actuals|))
    else Success(Util.DefaultPrimaryExpr())
  }

  /** The message of Java's index-out-of-bounds exception on a list. */
  function OutOfBounds(index: nat, length: nat): string
  {
    "Index " + Fresh.NatToString(index) + " out of bounds for length " + Fresh.NatToString(length)
  }

  /** The assignments of the arguments to the formals' fresh locals, from formal i on. */
  function Assignments(formals: seq<string>, names: map<string, string>, actuals: seq<Expr>, asWritten: bool, i: nat): (r: Outcome<seq<Expr>>)
    requires forall j :: 0 <= j < |formals| ==> formals[j] in names
    requires i <= |formals|
    ensures r.Success? ==> |r.value| == |formals| - i
    decreases |formals| - i
  {
    if i == |formals| then Success([])
    else
      var value :- ArgumentValue(actuals, i, asWritten);
      var rest :- Assignments(formals, names, actuals, asWritten, i + 1);
      Success([Util.AssignExpr(names[formals[i]], value)] + rest)
  }

  /** Corrected, every formal gets an assignment: the argument at its position, or 0
      when there is none. */
  lemma {:induction false} CorrectedAssignments(formals: seq<string>, names: map<string, string>, actuals: seq<Expr>, i: nat)
    requires forall j :: 0 <= j < |formals| ==> formals[j] in names
    requires i <= |formals|
    ensures Assignments(formals, names, actuals, false, i).Success?
    ensures forall j :: i <= j < |formals| ==>
      Assignments(formals, names, actuals, false, i).value[j - i] ==
        Assign(names[formals[j]], if j < |actuals| then Util.ToPrimaryExpr(actuals[j]) else Util.DefaultPrimaryExpr())
    decreases |formals| - i
  {
    if i < |formals| {
      CorrectedAssignments(formals, names, actuals, i + 1);
    }
  }

  /** The corrected assignments as one list. */
  lemma AssignmentsList(formals: seq<string>, names: map<string, string>, actuals: seq<Expr>)
    requires forall j :: 0 <= j < |formals| ==> formals[j] in names
    ensures Assignments(formals, names, actuals, false, 0).Success?
    ensures Assignments(formals, names, actuals, false, 0).value == ExpectedAssignments(formals, names, actuals)
  {
    CorrectedAssignments(formals, names, actuals, 0);
    var assigns := Assignments(formals, names, actuals, false, 0).value;
    forall j | 0 <= j < |formals|
      ensures assigns[j] == Assign(names[formals[j]], if j < |actuals| then Util.ToPrimaryExpr(actuals[j]) else Util.DefaultPrimaryExpr())
    {
      assert assigns[j - 0] == assigns[j];
    }
  }

  /** As written, the assignments exist exactly when no formal lacks an argument, and
      then they are the corrected ones. */
  lemma {:induction false} AsWrittenAssignments(formals: seq<string>, names: map<string, string>, actuals: seq<Expr>, i: nat)
    requires forall j :: 0 <= j < |formals| ==> formals[j] in names
    requires i <= |formals|
    ensures Assignments(formals, names, actuals, true, i).Success? <==> (|formals| <= |actuals| || i > |actuals|)
    ensures Assignments(formals, names, actuals, true, i).Success? ==>
      Assignments(formals, names, actuals, true, i) == Assignments(formals, names, actuals, false, i)
    decreases |formals| - i
  {
    if i < |formals| {
      AsWrittenAssignments(formals, names, actuals, i + 1);
    }
  }

  /** As written, a call with fewer arguments than formals fails when the assignment of
      the first formal without an argument reads past the end of the arguments. */
  lemma {:induction false} ShortAssignmentsFail(formals: seq<string>, names: map<string, string>, actuals: seq<Expr>, i: nat)
    requires forall j :: 0 <= j < |formals| ==> formals[j] in names
    requires i <= |actuals| < |formals|
    ensures Assignments(formals, names, actuals, true, i) == InternalFail(OutOfBounds(|actuals|, |actuals|))
    decreases |actuals| - i
  {
    if i < |actuals| {
      ShortAssignmentsFail(formals, names, actuals, i + 1);
    }
  }

  /** The inner locals of the invoked method: its free variables that are neither inner
      members nor symbols of the checker's table, plus its formals. */
  function InnerLocals(refs: set<string>, formals: seq<string>, t: Target): set<string>
  {
    refs - t.memberIdMap.Keys - AllSymbols(t.symbols) + SetOf(formals)
  }

  /** createFreshId("l_", allOuter) for each inner local, in the order the set is
      enumerated, where allOuter starts as the inner locals, the outer method's locals
      and the outer members. */
  function CallLocals(innerLocals: set<string>, outerLocals: set<string>, t: Target): Locals
  {
    LocalNames(Order.Sorted(innerLocals), innerLocals + outerLocals + t.members)
  }

  /** The renaming applied to the invoked method's body: fresh locals for its locals, and
      the member renaming on top (a member keeps its member name even if it is also a
      local). */
  function BodyRenaming(t: Target, locals: map<string, string>): VarSubstituter.Renaming
  {
    locals + t.memberIdMap
  }

  /** outAInvokeExpr for an invocation on the inlined parameter, given the invocation with
      its arguments already processed. */
  function InlineCall(call: Expr, t: Target, outerLocals: set<string>, asWritten: bool): (r: Outcome<Expr>)
    requires call.Invoke?
    ensures call.methodName !in t.methods ==>
      r == InternalFail("method of invocation target class does not exist: " + call.methodName)
  {
    if call.methodName !in t.methods then
      InternalFail("method of invocation target class does not exist: " + call.methodName)
    else
      var md := t.methods[call.methodName];
      var fp :- FormalParamsCollector.Collected(md.formals);
      var refs :- if md.body.Some? then VariableReferenceCollector.Collect(md.body.value) else Success({});
      var innerLocals := InnerLocals(refs, fp.0, t);
      var locals := CallLocals(innerLocals, outerLocals, t);
      assert forall j :: 0 <= j < |fp.0| ==> fp.0[j] in locals.names by {
        forall j | 0 <= j < |fp.0| ensures fp.0[j] in locals.names {
          assert fp.0[j] in SetOf(fp.0);
          assert fp.0[j] in Order.Sorted(innerLocals);
          var k :| 0 <= k < |Order.Sorted(innerLocals)| && Order.Sorted(innerLocals)[k] == fp.0[j];
        }
      }
      var assigns :- Assignments(fp.0, locals.names, call.args, asWritten, 0);
      if md.body.Some? then Success(Replacement(assigns, md.body.value, t, locals.names))
      else Success(call)
  }

  /** The expression that replaces the invocation: the assignments, then the renamed
      body, as one primary expression. */
  function Replacement(assigns: seq<Expr>, body: Expr, t: Target, names: map<string, string>): Expr
  {
    Util.ToPrimaryExpr(Util.ToSequence(assigns + [Util.ToPrimaryExpr(VarSubstituter.Substitute(body, BodyRenaming(t, names)))]))
  }

  /** The expression inside unlabelled parentheses. */
  function Unparen(e: Expr): Expr
  {
    if e.Paren? && e.exprLabel.None? then e.inner else e
  }

  /** Read back, the replacement is the assignments followed by the renamed body. */
  lemma ReplacementStatements(assigns: seq<Expr>, body: Expr, t: Target, names: map<string, string>)
    requires forall j :: 0 <= j < |assigns| ==> assigns[j].Assign?
    ensures var r := Replacement(assigns, body, t, names);
      Util.Statements(if assigns == [] then r else Unparen(r)) ==
        assigns + [Util.ToPrimaryExpr(VarSubstituter.Substitute(body, BodyRenaming(t, names)))]
  {
    var last := Util.ToPrimaryExpr(VarSubstituter.Substitute(body, BodyRenaming(t, names)));
    var stmts := assigns + [last];
    StatementsRanked(assigns, last);
    Util.ToSequenceStatements(stmts);
    if assigns != [] {
      UnparenSequence(Util.ToSequence(stmts));
    }
  }

  /** Assignments followed by a primary are all at least at the assignment level. */
  lemma StatementsRanked(assigns: seq<Expr>, last: Expr)
    requires forall j :: 0 <= j < |assigns| ==> assigns[j].Assign?
    requires Own(last) == PrimaryL
    ensures forall j :: 0 <= j < |assigns + [last]| ==> Rank(Own((assigns + [last])[j])) >= Rank(AssignL)
  {
    forall j | 0 <= j < |assigns + [last]| ensures Rank(Own((assigns + [last])[j])) >= Rank(AssignL) {
      if j < |assigns| {
        assert (assigns + [last])[j] == assigns[j];
      } else {
        assert (assigns + [last])[j] == last;
      }
    }
  }

  /** A sequence is parenthesised by toPrimaryExpr. */
  lemma UnparenSequence(s: Expr)
    requires s.Seq?
    ensures Unparen(Util.ToPrimaryExpr(s)) == s
  {
    assert Own(s) == LogicL;
  }

  // ---------------------------------------------------------------------------
  // MethodInliner: the walk over the outer methods
  // ---------------------------------------------------------------------------

  /** The outer method's variables the fresh locals must avoid. The source hands the
      formal-parameter collector the method node itself, which that collector does not
      handle, so only the variables the body refers to are collected. */
  function OuterLocals(m: MethodDef): Outcome<set<string>>
  {
    if m.body.Some? then VariableReferenceCollector.Collect(m.body.value) else Success({})
  }

  /** The walk over one method body, children first; method bodies of nested `new`
      expressions are skipped, their parameters are walked. */
  function MIWalk(e: Expr, t: Target, locals: set<string>, asWritten: bool): (r: Outcome<Expr>)
    ensures r.Success? && e.New? ==> r.value.New? && r.value.methods == e.methods && r.value.classIdent == e.classIdent
    decreases e, 2
  {
    if e.New? then
      var vs :- MIList(ParamValues(e.params), t, locals, asWritten, e);
      Success(New(e.classIdent, WithValues(e.params, vs), e.methods))
    else if e.Assert? then
      var p :- MIProp(e.prop, t, locals, asWritten);
      Success(Assert(p))
    else if e.Admit? then
      var p :- MIProp(e.prop, t, locals, asWritten);
      Success(Admit(p))
    else
      var cs :- MIList(ExprChildren(e), t, locals, asWritten, e);
      var e' := WithExprChildren(e, cs);
      if e.Invoke? && e.target == Lookup(t.inlineId) then
        InlineCall(Invoke(cs[0], e.methodName, cs[1..], e.classes), t, locals, asWritten)
      else Success(e')
  }

  function MIList(xs: seq<Expr>, t: Target, locals: set<string>, asWritten: bool, parent: Expr): (r: Outcome<seq<Expr>>)
    requires forall i :: 0 <= i < |xs| ==> xs[i] < parent
    ensures r.Success? ==> |r.value| == |xs|
    decreases parent, 1, |xs|
  {
    if xs == [] then Success([])
    else
      var first :- MIWalk(xs[0], t, locals, asWritten);
      var rest :- MIList(xs[1..], t, locals, asWritten, parent);
      Success([first] + rest)
  }

  function MIProp(p: Prop, t: Target, locals: set<string>, asWritten: bool): (r: Outcome<Prop>)
    decreases p, 2
  {
    if p.PEnv? then
      var xs :- MIEnv(p.params, t, locals, asWritten, p);
      Success(PEnv(xs))
    else
      var cs :- MIProps(PropChildren(p), t, locals, asWritten, p);
      Success(WithPropChildren(p, cs))
  }

  function MIEnv(xs: seq<Expr>, t: Target, locals: set<string>, asWritten: bool, parent: Prop): (r: Outcome<seq<Expr>>)
    requires forall i :: 0 <= i < |xs| ==> xs[i] < parent
    ensures r.Success? ==> |r.value| == |xs|
    decreases parent, 1, |xs|
  {
    if xs == [] then Success([])
    else
      var first :- MIWalk(xs[0], t, locals, asWritten);
      var rest :- MIEnv(xs[1..], t, locals, asWritten, parent);
      Success([first] + rest)
  }

  function MIProps(ps: seq<Prop>, t: Target, locals: set<string>, asWritten: bool, parent: Prop): (r: Outcome<seq<Prop>>)
    requires forall i :: 0 <= i < |ps| ==> ps[i] < parent
    ensures r.Success? ==> |r.value| == |ps|
    decreases parent, 1, |ps|
  {
    if ps == [] then Success([])
    else
      var first :- MIProp(ps[0], t, locals, asWritten);
      var rest :- MIProps(ps[1..], t, locals, asWritten, parent);
      Success([first] + rest)
  }

  /** The inliner over one outer method: outer locals first (inAMethodDef), then the body. */
  function InlineMethod(m: MethodDef, t: Target, asWritten: bool): (r: Outcome<MethodDef>)
    ensures r.Success? ==> r.value.name == m.name && r.value.formals == m.formals && r.value.body.Some? == m.body.Some?
  {
    var locals :- OuterLocals(m);
    if m.body.None? then Success(m)
    else
      var b :- MIWalk(m.body.value, t, locals, asWritten);
      Success(m.(body := Some(b)))
  }

  function InlineMethods(ms: seq<MethodDef>, t: Target, asWritten: bool): (r: Outcome<seq<MethodDef>>)
    ensures r.Success? ==> |r.value| == |ms|
    ensures r.Success? ==> forall i :: 0 <= i < |ms| ==>
      r.value[i].name == ms[i].name && r.value[i].formals == ms[i].formals && r.value[i].body.Some? == ms[i].body.Some?
  {
    if ms == [] then Success([])
    else
      var first :- InlineMethod(ms[0], t, asWritten);
      var rest :- InlineMethods(ms[1..], t, asWritten);
      Success([first] + rest)
  }

  // ---------------------------------------------------------------------------
  // doInline
  // ---------------------------------------------------------------------------

  /** The inner object: the `new` expression found as (part of) a parameter value. */
  datatype Inner = Inner(params: seq<NewParam>, methods: seq<MethodDef>)

  /** The outer object's new parameters and methods, and the supplied ids still unused. */
  datatype Spliced = Spliced(params: seq<NewParam>, methods: seq<MethodDef>, supplied: seq<string>)

  /** The fresh outer members for the inner parameters, when the k-th outer parameter
      is the one inlined: they avoid the other outer parameters' ids and the locals the
      inner methods declare. */
  function Renamed(outer: seq<NewParam>, k: nat, inner: Inner, sc: Scopes, supplied: seq<string>): Allocation
    requires k < |outer|
  {
    Allocate(inner.params, ParamIds(outer) - {outer[k].id}, FrameIds(inner.methods, sc), supplied)
  }

  /** doInline with outer the outer object's parameters and k the position of the one
      whose value holds the inner object. */
  function DoInline(outer: seq<NewParam>, k: nat, inner: Inner, outerMethods: seq<MethodDef>, sc: Scopes,
                    supplied: seq<string>, asWritten: bool): (r: Outcome<Spliced>)
    requires k < |outer|
    ensures r.Success? ==> r.value.supplied == Renamed(outer, k, inner, sc, supplied).supplied
    ensures r.Success? ==>
      r.value.params == Splice(outer, FirstIndexOf(outer, outer[k].id), Renamed(outer, k, inner, sc, supplied).params)
    ensures r.Success? ==> |r.value.methods| == |outerMethods|
  {
    var a := Renamed(outer, k, inner, sc, supplied);
    var t := Target(outer[k].id, MethodMap(inner.methods), a.members, a.idMap, sc);
    var ms :- InlineMethods(outerMethods, t, asWritten);
    Success(Spliced(Splice(outer, FirstIndexOf(outer, outer[k].id), a.params), ms, a.supplied))
  }

  /** The inlined parameter is replaced, at its position, by the inner parameters in
      order and with their values, under names that are distinct, that no other outer
      parameter has, and that no inner method declares as a local. */
  lemma SpliceReplacesParameter(outer: seq<NewParam>, k: nat, inner: Inner, sc: Scopes, supplied: seq<string>)
    requires k < |outer|
    ensures FirstIndexOf(outer, outer[k].id) <= k
    ensures Splice(outer, FirstIndexOf(outer, outer[k].id), Renamed(outer, k, inner, sc, supplied).params) ==
      outer[..FirstIndexOf(outer, outer[k].id)] + Renamed(outer, k, inner, sc, supplied).params +
      outer[FirstIndexOf(outer, outer[k].id) + 1..]
    ensures forall i :: 0 <= i < |inner.params| ==>
      Renamed(outer, k, inner, sc, supplied).params[i].value == inner.params[i].value
    ensures forall i, j :: 0 <= i < |inner.params| && 0 <= j < |outer| && outer[j].id != outer[k].id ==>
      Renamed(outer, k, inner, sc, supplied).params[i].id != outer[j].id
    ensures forall i, j :: 0 <= i < j < |inner.params| ==>
      Renamed(outer, k, inner, sc, supplied).params[i].id != Renamed(outer, k, inner, sc, supplied).params[j].id
    ensures forall i :: 0 <= i < |inner.params| ==>
      Renamed(outer, k, inner, sc, supplied).params[i].id !in FrameIds(inner.methods, sc)
  {
    var a := Renamed(outer, k, inner, sc, supplied);
    SpliceAtFirst(outer, k, a.params);
    AvoidsOtherParams(outer, k, a.params);
  }

  /** Names outside the other outer parameters' ids differ from each of them. */
  lemma AvoidsOtherParams(outer: seq<NewParam>, k: nat, ps: seq<NewParam>)
    requires k < |outer|
    requires forall i :: 0 <= i < |ps| ==> ps[i].id !in ParamIds(outer) - {outer[k].id}
    ensures forall i, j :: 0 <= i < |ps| && 0 <= j < |outer| && outer[j].id != outer[k].id ==> ps[i].id != outer[j].id
  {
    forall i, j | 0 <= i < |ps| && 0 <= j < |outer| && outer[j].id != outer[k].id
      ensures ps[i].id != outer[j].id
    {
      assert outer[j].id in ParamIds(outer) - {outer[k].id};
    }
  }

  /** The first parameter with the id of the k-th is at or before it, so splicing there
      cuts the list in two. */
  lemma SpliceAtFirst(outer: seq<NewParam>, k: nat, ins: seq<NewParam>)
    requires k < |outer|
    ensures FirstIndexOf(outer, outer[k].id) <= k
    ensures Splice(outer, FirstIndexOf(outer, outer[k].id), ins) ==
      outer[..FirstIndexOf(outer, outer[k].id)] + ins + outer[FirstIndexOf(outer, outer[k].id) + 1..]
  {
  }

  /** When the outer parameter names are distinct, so are they after splicing. */
  lemma SpliceKeepsNamesDistinct(outer: seq<NewParam>, k: nat, inner: Inner, sc: Scopes, supplied: seq<string>)
    requires k < |outer|
    requires forall i, j :: 0 <= i < j < |outer| ==> outer[i].id != outer[j].id
    ensures var s := Splice(outer, FirstIndexOf(outer, outer[k].id), Renamed(outer, k, inner, sc, supplied).params);
      forall i, j :: 0 <= i < j < |s| ==> s[i].id != s[j].id
  {
    SpliceReplacesParameter(outer, k, inner, sc, supplied);
    var pos := FirstIndexOf(outer, outer[k].id);
    var a := Renamed(outer, k, inner, sc, supplied).params;
    var s := Splice(outer, pos, a);
    assert pos == k;
    var n := |a|;
    assert |s| == |outer| - 1 + n;
    forall i | 0 <= i < |s|
      ensures (i < pos ==> s[i] == outer[i]) && (pos <= i < pos + n ==> s[i] == a[i - pos])
        && (pos + n <= i ==> s[i] == outer[i - n + 1])
    {
    }
    forall i, j | 0 <= i < j < |s| ensures s[i].id != s[j].id {
      if i < pos {
        if pos <= j < pos + n {
          assert outer[i].id != outer[k].id;
        }
      } else if i < pos + n {
        if pos + n <= j {
          assert outer[j - n + 1].id != outer[k].id;
        }
      }
    }
  }

  // ---------------------------------------------------------------------------
  // Inliner: the walk over the whole expression
  // ---------------------------------------------------------------------------

  /** Where the walk is: outside every constructor parameter, or inside a parameter of
      the innermost enclosing `new`, whose inner object may already have been found. */
  datatype Ctx = Outside | Inside(found: Option<Inner>)

  /** The checker's symbol table, and which version of the argument guard is used. */
  datatype Env = Env(symbols: Scopes, asWritten: bool)

  /** The walk over a `new`'s parameters, left to right: params holds the parameters
      walked so far. When an inner object turns up in a parameter, doInline runs at once
      on the parameters as they stand then. doInline moves the later parameters into a
      fresh parameter list, so the walk of the old list finds their places empty: they
      are not walked, and an object among them stays where it is. */
  datatype ParamsWalk = ParamsWalk(params: seq<NewParam>, spliced: Option<Spliced>, supplied: seq<string>)

  const MultipleLocations := "Inlining at multiple locations is not implemented. Use unfold(<id>) to control which locations are available for inlining."

  /** The walk over the rewritten methods of an outer object is bounded by a fuel
      count; running out of it is the one failure the source does not have. */
  const OutOfFuel := "inlining nested deeper than the walk's bound"

  function Walk(e: Expr, ctx: Ctx, supplied: seq<string>, env: Env, fuel: nat): (r: Outcome<(Expr, Ctx, seq<string>)>)
    ensures r.Success? ==> (r.value.1.Outside? <==> ctx.Outside?)
    ensures r.Success? && ctx.Inside? && ctx.found.Some? ==> r.value.1 == ctx
    decreases fuel, e, 3
  {
    if e.New? then WalkNew(e, ctx, supplied, env, fuel)
    else if e.Assert? then
      var q :- WalkProp(e.prop, ctx, supplied, env, fuel);
      Success((Assert(q.0), q.1, q.2))
    else if e.Admit? then
      var q :- WalkProp(e.prop, ctx, supplied, env, fuel);
      Success((Admit(q.0), q.1, q.2))
    else
      var cs :- WalkList(ExprChildren(e), ctx, supplied, env, fuel, e);
      Success((WithExprChildren(e, cs.0), cs.1, cs.2))
  }

  /** A `new`: its parameters (inlining into it when one holds an inner object), then
      its, possibly rewritten, methods; finally it is itself an inner object when it
      sits inside a parameter (outANewExpr), and a second one there is refused. */
  function WalkNew(e: Expr, ctx: Ctx, supplied: seq<string>, env: Env, fuel: nat): (r: Outcome<(Expr, Ctx, seq<string>)>)
    requires e.New?
    ensures r.Success? ==> (r.value.1.Outside? <==> ctx.Outside?)
    ensures r.Success? && ctx.Inside? && ctx.found.Some? ==> r.value.1 == ctx
    decreases fuel, e, 2
  {
    NewBodiesBelow(e);
    var pw :- WalkNewParams(e.params, ParamsWalk([], None, supplied), e.methods, env, fuel, e);
    var mw :-
      if pw.spliced.Some? then
        if fuel == 0 then InternalFail(OutOfFuel)
        else
          var ms := pw.spliced.value.methods;
          assert ExprChildren(New(None, [], ms)) == Bodies(ms);
          var bw :- WalkList(Bodies(ms), ctx, pw.supplied, env, fuel - 1, New(None, [], ms));
          Success((pw.spliced.value.params, WithBodies(ms, bw.0), bw.1, bw.2))
      else
        var bw :- WalkList(Bodies(e.methods), ctx, pw.supplied, env, fuel, e);
        Success((pw.params, WithBodies(e.methods, bw.0), bw.1, bw.2));
    var e' := New(e.classIdent, mw.0, mw.1);
    match mw.2
    case Outside => Success((e', Outside, mw.3))
    case Inside(None) => Success((e', Inside(Some(Inner(mw.0, mw.1))), mw.3))
    case Inside(Some(_)) => InternalFail(MultipleLocations)
  }

  /** The method bodies of a `new` are below it. */
  lemma NewBodiesBelow(e: Expr)
    requires e.New?
    ensures forall i :: 0 <= i < |Bodies(e.methods)| ==> Bodies(e.methods)[i] < e
  {
    var vs := ParamValues(e.params);
    var bs := Bodies(e.methods);
    assert ExprChildren(e) == vs + bs;
    forall i | 0 <= i < |bs|
      ensures bs[i] < e
    {
      assert bs[i] == (vs + bs)[|vs| + i];
    }
  }

  /** rest are the parameters still to walk; st.params holds those already walked, none
      of which held an inner object. */
  function WalkNewParams(rest: seq<NewParam>, st: ParamsWalk, methods: seq<MethodDef>, env: Env, fuel: nat, parent: Expr): (r: Outcome<ParamsWalk>)
    requires forall j :: 0 <= j < |rest| ==> rest[j].value < parent
    ensures r.Success? ==> |r.value.params| == |st.params| + |rest|
    decreases fuel, parent, 1, |rest|
  {
    if rest == [] then Success(st)
    else
      var w :- Walk(rest[0].value, Inside(None), st.supplied, env, fuel);
      var done := st.params + [NewParam(rest[0].id, w.0)];
      if w.1.found.Some? then
        var d :- DoInline(st.params + rest, |st.params|, w.1.found.value, methods, env.symbols, w.2, env.asWritten);
        Success(ParamsWalk(done + rest[1..], Some(d), d.supplied))
      else
        WalkNewParams(rest[1..], ParamsWalk(done, st.spliced, w.2), methods, env, fuel, parent)
  }

  function WalkList(xs: seq<Expr>, ctx: Ctx, supplied: seq<string>, env: Env, fuel: nat, parent: Expr): (r: Outcome<(seq<Expr>, Ctx, seq<string>)>)
    requires forall i :: 0 <= i < |xs| ==> xs[i] < parent
    ensures r.Success? ==> |r.value.0| == |xs|
    ensures r.Success? ==> (r.value.1.Outside? <==> ctx.Outside?)
    ensures r.Success? && ctx.Inside? && ctx.found.Some? ==> r.value.1 == ctx
    decreases fuel, parent, 1, |xs|
  {
    if xs == [] then Success(([], ctx, supplied))
    else
      var first :- Walk(xs[0], ctx, supplied, env, fuel);
      var rest :- WalkList(xs[1..], first.1, first.2, env, fuel, parent);
      Success(([first.0] + rest.0, rest.1, rest.2))
  }

  function WalkProp(p: Prop, ctx: Ctx, supplied: seq<string>, env: Env, fuel: nat): (r: Outcome<(Prop, Ctx, seq<string>)>)
    ensures r.Success? ==> (r.value.1.Outside? <==> ctx.Outside?)
    ensures r.Success? && ctx.Inside? && ctx.found.Some? ==> r.value.1 == ctx
    decreases fuel, p, 3
  {
    if p.PEnv? then
      var xs :- WalkEnv(p.params, ctx, supplied, env, fuel, p);
      Success((PEnv(xs.0), xs.1, xs.2))
    else
      var cs :- WalkProps(PropChildren(p), ctx, supplied, env, fuel, p);
      Success((WithPropChildren(p, cs.0), cs.1, cs.2))
  }

  function WalkEnv(xs: seq<Expr>, ctx: Ctx, supplied: seq<string>, env: Env, fuel: nat, parent: Prop): (r: Outcome<(seq<Expr>, Ctx, seq<string>)>)
    requires forall i :: 0 <= i < |xs| ==> xs[i] < parent
    ensures r.Success? ==> |r.value.0| == |xs|
    ensures r.Success? ==> (r.value.1.Outside? <==> ctx.Outside?)
    ensures r.Success? && ctx.Inside? && ctx.found.Some? ==> r.value.1 == ctx
    decreases fuel, parent, 1, |xs|
  {
    if xs == [] then Success(([], ctx, supplied))
    else
      var first :- Walk(xs[0], ctx, supplied, env, fuel);
      var rest :- WalkEnv(xs[1..], first.1, first.2, env, fuel, parent);
      Success(([first.0] + rest.0, rest.1, rest.2))
  }

  function WalkProps(ps: seq<Prop>, ctx: Ctx, supplied: seq<string>, env: Env, fuel: nat, parent: Prop): (r: Outcome<(seq<Prop>, Ctx, seq<string>)>)
    requires forall i :: 0 <= i < |ps| ==> ps[i] < parent
    ensures r.Success? ==> |r.value.0| == |ps|
    ensures r.Success? ==> (r.value.1.Outside? <==> ctx.Outside?)
    ensures r.Success? && ctx.Inside? && ctx.found.Some? ==> r.value.1 == ctx
    decreases fuel, parent, 1, |ps|
  {
    if ps == [] then Success(([], ctx, supplied))
    else
      var first :- WalkProp(ps[0], ctx, supplied, env, fuel);
      var rest :- WalkProps(ps[1..], first.1, first.2, env, fuel, parent);
      Success(([first.0] + rest.0, rest.1, rest.2))
  }

  /** transform: the expression after inlining, with supplied the ids the tactic names
      for the new members. */
  function Transform(e: Expr, sc: Scopes, supplied: seq<string>, asWritten: bool): (r: Outcome<Expr>)
  {
    var w :- Walk(e, Outside, supplied, Env(sc, asWritten), |Render(e)|);
    Success(w.0)
  }

  /** An expression with no object inside a constructor parameter comes back unchanged. */
  lemma TransformNoSite(e: Expr, sc: Scopes, supplied: seq<string>, asWritten: bool)
    requires NoSite(e)
    ensures Transform(e, sc, supplied, asWritten) == Success(e)
  {
    WalkNoSite(e, supplied, Env(sc, asWritten), |Render(e)|);
  }

  // ---------------------------------------------------------------------------
  // What an inlined invocation becomes
  // ---------------------------------------------------------------------------

  /** The fresh locals of an invocation of md, when its body's references can be
      collected. */
  function CallNames(md: MethodDef, t: Target, outerLocals: set<string>): map<string, string>
    requires md.body.Some? && VariableReferenceCollector.Collect(md.body.value).Success?
  {
    CallLocals(InnerLocals(VariableReferenceCollector.Collect(md.body.value).value, FormalParamsCollector.Ids(md.formals), t), outerLocals, t).names
  }

  /** The assignment of each argument to the fresh local of its formal, 0 for a missing
      argument. */
  function ExpectedAssignments(formals: seq<string>, names: map<string, string>, actuals: seq<Expr>): seq<Expr>
  {
    seq(|formals|, j requires 0 <= j < |formals| =>
      Assign(if formals[j] in names then names[formals[j]] else formals[j],
             if j < |actuals| then Util.ToPrimaryExpr(actuals[j]) else Util.DefaultPrimaryExpr()))
  }

  /** The fresh locals of an invocation are distinct and clash with neither the outer
      method's variables nor the outer members. */
  lemma CallNamesFresh(md: MethodDef, t: Target, outerLocals: set<string>)
    requires md.body.Some? && VariableReferenceCollector.Collect(md.body.value).Success?
    ensures var names := CallNames(md, t, outerLocals);
      (forall x :: x in names ==> names[x] !in outerLocals && names[x] !in t.members) &&
      (forall x, y :: x in names && y in names && x != y ==> names[x] != names[y])
  {
  }

  /** Corrected, an invocation of an inner method with a body that both collectors
      accept is rewritten, to the replacement built from the corrected assignments. */
  lemma {:induction false} InlineCallRewrites(call: Expr, t: Target, outerLocals: set<string>)
    requires call.Invoke? && call.methodName in t.methods
    requires t.methods[call.methodName].body.Some?
    requires FormalParamsCollector.Collected(t.methods[call.methodName].formals).Success?
    requires VariableReferenceCollector.Collect(t.methods[call.methodName].body.value).Success?
    ensures var md := t.methods[call.methodName];
      var formals := FormalParamsCollector.Ids(md.formals);
      var names := CallNames(md, t, outerLocals);
      (forall j :: 0 <= j < |formals| ==> formals[j] in names) &&
      InlineCall(call, t, outerLocals, false) ==
        Success(Replacement(ExpectedAssignments(formals, names, call.args), md.body.value, t, names))
  {
    var md := t.methods[call.methodName];
    FormalParamsCollector.CollectedIds(md.formals);
    var formals := FormalParamsCollector.Ids(md.formals);
    var innerLocals := InnerLocals(VariableReferenceCollector.Collect(md.body.value).value, formals, t);
    var names := CallLocals(innerLocals, outerLocals, t).names;
    forall j | 0 <= j < |formals| ensures formals[j] in names {
      assert formals[j] in SetOf(formals);
      assert formals[j] in Order.Sorted(innerLocals);
      var k :| 0 <= k < |Order.Sorted(innerLocals)| && Order.Sorted(innerLocals)[k] == formals[j];
    }
    AssignmentsList(formals, names, call.args);
  }

  /** As written, an invocation of an inner method with a body that both collectors
      accept fails when it passes fewer arguments than the method has formals. */
  lemma {:induction false} ShortCallFails(call: Expr, t: Target, outerLocals: set<string>)
    requires call.Invoke? && call.methodName in t.methods
    requires t.methods[call.methodName].body.Some?
    requires FormalParamsCollector.Collected(t.methods[call.methodName].formals).Success?
    requires VariableReferenceCollector.Collect(t.methods[call.methodName].body.value).Success?
    requires |call.args| < |t.methods[call.methodName].formals|
    ensures InlineCall(call, t, outerLocals, true) == InternalFail(OutOfBounds(|call.args|, |call.args|))
  {
    var md := t.methods[call.methodName];
    FormalParamsCollector.CollectedIds(md.formals);
    var formals := FormalParamsCollector.Ids(md.formals);
    var innerLocals := InnerLocals(VariableReferenceCollector.Collect(md.body.value).value, formals, t);
    var names := CallLocals(innerLocals, outerLocals, t).names;
    forall j | 0 <= j < |formals| ensures formals[j] in names {
      assert formals[j] in SetOf(formals);
      assert formals[j] in Order.Sorted(innerLocals);
      var k :| 0 <= k < |Order.Sorted(innerLocals)| && Order.Sorted(innerLocals)[k] == formals[j];
    }
    ShortAssignmentsFail(formals, names, call.args, 0);
  }

  /** Corrected, an invocation of an inner method with a body becomes the sequence that
      assigns each argument (0 when missing) to the fresh local of its formal, followed
      by the body with its locals renamed to those fresh locals and the inner members to
      their new member names (CallNamesFresh: the fresh locals are fresh). */
  lemma {:induction false} InlinedCallStatements(call: Expr, t: Target, outerLocals: set<string>)
    requires call.Invoke? && call.methodName in t.methods
    requires t.methods[call.methodName].body.Some?
    requires FormalParamsCollector.Collected(t.methods[call.methodName].formals).Success?
    requires VariableReferenceCollector.Collect(t.methods[call.methodName].body.value).Success?
    ensures InlineCall(call, t, outerLocals, false).Success?
    ensures var md := t.methods[call.methodName];
      var formals := FormalParamsCollector.Ids(md.formals);
      var names := CallNames(md, t, outerLocals);
      var r := InlineCall(call, t, outerLocals, false).value;
      Util.Statements(if formals == [] then r else Unparen(r)) ==
        ExpectedAssignments(formals, names, call.args) +
        [Util.ToPrimaryExpr(VarSubstituter.Substitute(md.body.value, BodyRenaming(t, names)))]
  {
    var md := t.methods[call.methodName];
    var formals := FormalParamsCollector.Ids(md.formals);
    var names := CallNames(md, t, outerLocals);
    InlineCallRewrites(call, t, outerLocals);
    ExpectedStatements(formals, names, call.args, md.body.value, t);
  }

  /** The replacement built from the corrected assignments, read back. */
  lemma ExpectedStatements(formals: seq<string>, names: map<string, string>, actuals: seq<Expr>, body: Expr, t: Target)
    ensures var r := Replacement(ExpectedAssignments(formals, names, actuals), body, t, names);
      Util.Statements(if formals == [] then r else Unparen(r)) ==
        ExpectedAssignments(formals, names, actuals) +
        [Util.ToPrimaryExpr(VarSubstituter.Substitute(body, BodyRenaming(t, names)))]
  {
    var assigns := ExpectedAssignments(formals, names, actuals);
    assert |assigns| == |formals|;
    assert forall j :: 0 <= j < |assigns| ==> assigns[j].Assign?;
    ReplacementStatements(assigns, body, t, names);
  }

  /** The inner object `new(){f(y){y}}` bound to `a`, as the method inliner sees it. */
  function ShortCallTarget(): Target
  {
    Target("a", map["f" := MethodDef("f", [FormalParam("y", None)], Some(Lookup("y")))], {}, map[], [])
  }

  /** The call `a.f()` passes no argument for the formal `y`: as written the inliner
      fails on it with an index error. */
  lemma ShortCallAsWritten(call: Expr, t: Target)
    requires call == Invoke(Lookup("a"), "f", [], None) && t == ShortCallTarget()
    ensures InlineCall(call, t, {}, true) == InternalFail("Index 0 out of bounds for length 0")
  {
    ShortCallCollected();
    assert t.methods[call.methodName] == MethodDef("f", [FormalParam("y", None)], Some(Lookup("y")));
    ShortCallFails(call, t, {});
    OutOfBoundsZero();
  }

  lemma OutOfBoundsZero()
    ensures OutOfBounds(0, 0) == "Index 0 out of bounds for length 0"
  {
    assert Fresh.NatToString(0) == "0";
  }

  /** Corrected, the same call assigns 0 to the fresh local for `y` and continues with
      that local. */
  lemma ShortCallCorrected(call: Expr, t: Target)
    requires call == Invoke(Lookup("a"), "f", [], None) && t == ShortCallTarget()
    ensures InlineCall(call, t, {}, false) ==
      Success(Paren(None, Seq(Assign("l_0", Literal(Numeric("0"))), Lookup("l_0"))))
  {
    var md := t.methods["f"];
    assert md == MethodDef("f", [FormalParam("y", None)], Some(Lookup("y")));
    ShortCallCollected();
    InlineCallRewrites(call, t, {});
    ShortCallNames(t);
    ShortCallReplacement(t);
  }

  /** The fresh local of `y` in the call, and the one assignment the call makes. */
  lemma ShortCallNames(t: Target)
    requires t == ShortCallTarget()
    ensures CallNames(t.methods["f"], t, {}) == map["y" := "l_0"]
    ensures ExpectedAssignments(["y"], map["y" := "l_0"], []) == [Assign("l_0", Literal(Numeric("0")))]
  {
    assert t.methods["f"] == MethodDef("f", [FormalParam("y", None)], Some(Lookup("y")));
    ShortCallCollected();
    ShortCallLocals();
  }

  /** The assignment followed by the renamed body `l_0`, in parentheses. */
  lemma ShortCallReplacement(t: Target)
    requires t == ShortCallTarget()
    ensures Replacement([Assign("l_0", Literal(Numeric("0")))], Lookup("y"), t, map["y" := "l_0"]) ==
      Paren(None, Seq(Assign("l_0", Literal(Numeric("0"))), Lookup("l_0")))
  {
    var names := map["y" := "l_0"];
    assert BodyRenaming(t, names) == names;
    assert VarSubstituter.Substitute(Lookup("y"), names) == Lookup("l_0");
    var stmts := [Assign("l_0", Literal(Numeric("0"))), Lookup("l_0")];
    assert stmts[1..] == [Lookup("l_0")];
    assert Util.ToSequence(stmts) == Seq(Assign("l_0", Literal(Numeric("0"))), Lookup("l_0"));
    assert [Assign("l_0", Literal(Numeric("0")))] + [Lookup("l_0")] == stmts;
  }

  /** What the collectors report on `f(y){y}`. */
  lemma ShortCallCollected()
    ensures FormalParamsCollector.Collected([FormalParam("y", None)]).Success?
    ensures FormalParamsCollector.Ids([FormalParam("y", None)]) == ["y"]
    ensures VariableReferenceCollector.Collect(Lookup("y")) == Success({"y"})
    ensures InnerLocals({"y"}, ["y"], ShortCallTarget()) == {"y"}
  {
    VariableReferenceCollector.BindingFreeRefs(Lookup("y"), []);
  }

  /** The only local of `f(y){y}` is `y`, and its fresh local is `l_0`. */
  lemma ShortCallLocals()
    ensures CallLocals({"y"}, {}, ShortCallTarget()).names == map["y" := "l_0"]
  {
    assert Order.Least({"y"}) == "y";
    assert Order.Sorted({"y"}) == ["y"];
    Fresh.FreshNameSmallest("l_", {"y"}, 0);
    assert Fresh.Name("l_", 0) == "l_0";
    assert Fresh.FreshName("l_", {"y"}) == "l_0";
    assert LocalNames([], {"y"}) == Locals(map[], {"y"});
  }

  /** An invocation naming no inner method is refused, whatever the arguments. */
  lemma MissingMethodRefused(call: Expr, t: Target, outerLocals: set<string>, asWritten: bool)
    requires call.Invoke? && call.methodName !in t.methods
    ensures InlineCall(call, t, outerLocals, asWritten) ==
      InternalFail("method of invocation target class does not exist: " + call.methodName)
  {
  }

  // ---------------------------------------------------------------------------
  // Expressions the method inliner leaves alone
  // ---------------------------------------------------------------------------

  /** No invocation on the inlined parameter in the parts the method inliner walks: the
      parameter values of a nested `new` are walked, its methods are not. */
  predicate NoCallOn(e: Expr, id: string)
    decreases e, 1
  {
    if e.New? then forall i :: 0 <= i < |e.params| ==> NoCallOn(e.params[i].value, id)
    else if e.Assert? || e.Admit? then NoCallOnProp(e.prop, id)
    else
      !(e.Invoke? && e.target == Lookup(id)) &&
      forall i :: 0 <= i < |ExprChildren(e)| ==> NoCallOn(ExprChildren(e)[i], id)
  }

  predicate NoCallOnProp(p: Prop, id: string)
    decreases p, 1
  {
    if p.PEnv? then forall i :: 0 <= i < |p.params| ==> NoCallOn(p.params[i], id)
    else forall i :: 0 <= i < |PropChildren(p)| ==> NoCallOnProp(PropChildren(p)[i], id)
  }

  /** An expression with no invocation on the inlined parameter is left unchanged. */
  lemma {:induction false} MIUntouched(e: Expr, t: Target, locals: set<string>, asWritten: bool)
    requires NoCallOn(e, t.inlineId)
    ensures MIWalk(e, t, locals, asWritten) == Success(e)
    decreases e, 2
  {
    if e.New? {
      var vs := ParamValues(e.params);
      assert forall i :: 0 <= i < |vs| ==> vs[i] == e.params[i].value;
      MIListUntouched(vs, t, locals, asWritten, e);
      assert WithValues(e.params, vs) == e.params;
    } else if e.Assert? || e.Admit? {
      MIPropUntouched(e.prop, t, locals, asWritten);
    } else {
      MIListUntouched(ExprChildren(e), t, locals, asWritten, e);
      WithOwnExprChildren(e);
    }
  }

  lemma {:induction false} MIListUntouched(xs: seq<Expr>, t: Target, locals: set<string>, asWritten: bool, parent: Expr)
    requires forall i :: 0 <= i < |xs| ==> xs[i] < parent
    requires forall i :: 0 <= i < |xs| ==> NoCallOn(xs[i], t.inlineId)
    ensures MIList(xs, t, locals, asWritten, parent) == Success(xs)
    decreases parent, 1, |xs|
  {
    if xs != [] {
      MIUntouched(xs[0], t, locals, asWritten);
      MIListUntouched(xs[1..], t, locals, asWritten, parent);
      assert [xs[0]] + xs[1..] == xs;
    }
  }

  lemma {:induction false} MIPropUntouched(p: Prop, t: Target, locals: set<string>, asWritten: bool)
    requires NoCallOnProp(p, t.inlineId)
    ensures MIProp(p, t, locals, asWritten) == Success(p)
    decreases p, 2
  {
    if p.PEnv? {
      MIEnvUntouched(p.params, t, locals, asWritten, p);
    } else {
      MIPropsUntouched(PropChildren(p), t, locals, asWritten, p);
      WithOwnPropChildren(p);
    }
  }

  lemma {:induction false} MIEnvUntouched(xs: seq<Expr>, t: Target, locals: set<string>, asWritten: bool, parent: Prop)
    requires forall i :: 0 <= i < |xs| ==> xs[i] < parent
    requires forall i :: 0 <= i < |xs| ==> NoCallOn(xs[i], t.inlineId)
    ensures MIEnv(xs, t, locals, asWritten, parent) == Success(xs)
    decreases parent, 1, |xs|
  {
    if xs != [] {
      MIUntouched(xs[0], t, locals, asWritten);
      MIEnvUntouched(xs[1..], t, locals, asWritten, parent);
      assert [xs[0]] + xs[1..] == xs;
    }
  }

  lemma {:induction false} MIPropsUntouched(ps: seq<Prop>, t: Target, locals: set<string>, asWritten: bool, parent: Prop)
    requires forall i :: 0 <= i < |ps| ==> ps[i] < parent
    requires forall i :: 0 <= i < |ps| ==> NoCallOnProp(ps[i], t.inlineId)
    ensures MIProps(ps, t, locals, asWritten, parent) == Success(ps)
    decreases parent, 1, |ps|
  {
    if ps != [] {
      MIPropUntouched(ps[0], t, locals, asWritten);
      MIPropsUntouched(ps[1..], t, locals, asWritten, parent);
      assert [ps[0]] + ps[1..] == ps;
    }
  }

  /** Outer methods that never invoke a method on the inlined parameter come back as
      they were. */
  lemma {:induction false} InlineMethodsUntouched(ms: seq<MethodDef>, t: Target, asWritten: bool)
    requires forall i :: 0 <= i < |ms| ==> OuterLocals(ms[i]).Success?
    requires forall i :: 0 <= i < |ms| ==> ms[i].body.Some? ==> NoCallOn(ms[i].body.value, t.inlineId)
    ensures InlineMethods(ms, t, asWritten) == Success(ms)
  {
    if ms != [] {
      var m := ms[0];
      if m.body.Some? {
        MIUntouched(m.body.value, t, OuterLocals(m).value, asWritten);
        assert m.(body := Some(m.body.value)) == m;
      }
      InlineMethodsUntouched(ms[1..], t, asWritten);
      assert [ms[0]] + ms[1..] == ms;
    }
  }

  /** When no outer method invokes anything on the inlined parameter, doInline only
      splices the parameters: the outer methods are kept as they were. */
  lemma DoInlineUntouched(outer: seq<NewParam>, k: nat, inner: Inner, outerMethods: seq<MethodDef>, sc: Scopes,
                          supplied: seq<string>, asWritten: bool)
    requires k < |outer|
    requires forall i :: 0 <= i < |outerMethods| ==> OuterLocals(outerMethods[i]).Success?
    requires forall i :: 0 <= i < |outerMethods| ==>
      outerMethods[i].body.Some? ==> NoCallOn(outerMethods[i].body.value, outer[k].id)
    ensures DoInline(outer, k, inner, outerMethods, sc, supplied, asWritten) ==
      Success(Spliced(Splice(outer, FirstIndexOf(outer, outer[k].id), Renamed(outer, k, inner, sc, supplied).params),
                      outerMethods, Renamed(outer, k, inner, sc, supplied).supplied))
  {
    var a := Renamed(outer, k, inner, sc, supplied);
    InlineMethodsUntouched(outerMethods, Target(outer[k].id, MethodMap(inner.methods), a.members, a.idMap, sc), asWritten);
  }

  // ---------------------------------------------------------------------------
  // Where inlining fires
  // ---------------------------------------------------------------------------

  /** No `new` anywhere in the expression. */
  predicate NoNew(e: Expr)
    decreases e, 1
  {
    if e.New? then false
    else if e.Assert? || e.Admit? then NoNewProp(e.prop)
    else forall i :: 0 <= i < |ExprChildren(e)| ==> NoNew(ExprChildren(e)[i])
  }

  predicate NoNewProp(p: Prop)
    decreases p, 1
  {
    if p.PEnv? then forall i :: 0 <= i < |p.params| ==> NoNew(p.params[i])
    else forall i :: 0 <= i < |PropChildren(p)| ==> NoNewProp(PropChildren(p)[i])
  }

  /** No `new` sits inside a constructor parameter: every `new`'s parameters are free
      of objects, and so is every sub-expression in this sense. */
  predicate NoSite(e: Expr)
    decreases e, 1
  {
    if e.New? then
      (forall i :: 0 <= i < |e.params| ==> NoNew(e.params[i].value)) &&
      (forall i :: |e.params| <= i < |ExprChildren(e)| ==> NoSite(ExprChildren(e)[i]))
    else if e.Assert? || e.Admit? then NoSiteProp(e.prop)
    else forall i :: 0 <= i < |ExprChildren(e)| ==> NoSite(ExprChildren(e)[i])
  }

  predicate NoSiteProp(p: Prop)
    decreases p, 1
  {
    if p.PEnv? then forall i :: 0 <= i < |p.params| ==> NoSite(p.params[i])
    else forall i :: 0 <= i < |PropChildren(p)| ==> NoSiteProp(PropChildren(p)[i])
  }

  /** The walk changes nothing in an expression without objects, in any position. */
  lemma {:induction false} WalkNoNew(e: Expr, ctx: Ctx, supplied: seq<string>, env: Env, fuel: nat)
    requires NoNew(e)
    ensures Walk(e, ctx, supplied, env, fuel) == Success((e, ctx, supplied))
    decreases e, 2
  {
    if e.Assert? || e.Admit? {
      PropNoNew(e.prop, ctx, supplied, env, fuel);
    } else {
      ListNoNew(ExprChildren(e), ctx, supplied, env, fuel, e);
      WithOwnExprChildren(e);
    }
  }

  lemma {:induction false} ListNoNew(xs: seq<Expr>, ctx: Ctx, supplied: seq<string>, env: Env, fuel: nat, parent: Expr)
    requires forall i :: 0 <= i < |xs| ==> xs[i] < parent && NoNew(xs[i])
    ensures WalkList(xs, ctx, supplied, env, fuel, parent) == Success((xs, ctx, supplied))
    decreases parent, 1, |xs|
  {
    if xs != [] {
      WalkNoNew(xs[0], ctx, supplied, env, fuel);
      ListNoNew(xs[1..], ctx, supplied, env, fuel, parent);
      assert [xs[0]] + xs[1..] == xs;
    }
  }

  lemma {:induction false} PropNoNew(p: Prop, ctx: Ctx, supplied: seq<string>, env: Env, fuel: nat)
    requires NoNewProp(p)
    ensures WalkProp(p, ctx, supplied, env, fuel) == Success((p, ctx, supplied))
    decreases p, 2
  {
    if p.PEnv? {
      EnvNoNew(p.params, ctx, supplied, env, fuel, p);
    } else {
      PropsNoNew(PropChildren(p), ctx, supplied, env, fuel, p);
      WithOwnPropChildren(p);
    }
  }

  lemma {:induction false} EnvNoNew(xs: seq<Expr>, ctx: Ctx, supplied: seq<string>, env: Env, fuel: nat, parent: Prop)
    requires forall i :: 0 <= i < |xs| ==> xs[i] < parent && NoNew(xs[i])
    ensures WalkEnv(xs, ctx, supplied, env, fuel, parent) == Success((xs, ctx, supplied))
    decreases parent, 1, |xs|
  {
    if xs != [] {
      WalkNoNew(xs[0], ctx, supplied, env, fuel);
      EnvNoNew(xs[1..], ctx, supplied, env, fuel, parent);
      assert [xs[0]] + xs[1..] == xs;
    }
  }

  lemma {:induction false} PropsNoNew(ps: seq<Prop>, ctx: Ctx, supplied: seq<string>, env: Env, fuel: nat, parent: Prop)
    requires forall i :: 0 <= i < |ps| ==> ps[i] < parent && NoNewProp(ps[i])
    ensures WalkProps(ps, ctx, supplied, env, fuel, parent) == Success((ps, ctx, supplied))
    decreases parent, 1, |ps|
  {
    if ps != [] {
      PropNoNew(ps[0], ctx, supplied, env, fuel);
      PropsNoNew(ps[1..], ctx, supplied, env, fuel, parent);
      assert [ps[0]] + ps[1..] == ps;
    }
  }

  /** Inlining fires only for an object inside a constructor parameter: without one the
      whole walk changes nothing and consumes no supplied id. */
  lemma {:induction false} WalkNoSite(e: Expr, supplied: seq<string>, env: Env, fuel: nat)
    requires NoSite(e)
    ensures Walk(e, Outside, supplied, env, fuel) == Success((e, Outside, supplied))
    decreases e, 3
  {
    if e.New? {
      NewNoSite(e, supplied, env, fuel);
    } else if e.Assert? || e.Admit? {
      PropNoSite(e.prop, supplied, env, fuel);
    } else {
      ListNoSite(ExprChildren(e), supplied, env, fuel, e);
      WithOwnExprChildren(e);
    }
  }

  lemma {:induction false} NewNoSite(e: Expr, supplied: seq<string>, env: Env, fuel: nat)
    requires e.New? && NoSite(e)
    ensures WalkNew(e, Outside, supplied, env, fuel) == Success((e, Outside, supplied))
    decreases e, 2
  {
    ParamsNoNew(e.params, [], e.methods, supplied, env, fuel, e);
    assert [] + e.params == e.params;
    var bs := Bodies(e.methods);
    NewBodiesNoSite(e);
    ListNoSite(bs, supplied, env, fuel, e);
    WithOwnBodies(e.methods);
  }

  /** The method bodies of a `new` without a site are below it and hold no site. */
  lemma NewBodiesNoSite(e: Expr)
    requires e.New? && NoSite(e)
    ensures forall i :: 0 <= i < |Bodies(e.methods)| ==> Bodies(e.methods)[i] < e && NoSite(Bodies(e.methods)[i])
  {
    var vs := ParamValues(e.params);
    var bs := Bodies(e.methods);
    assert ExprChildren(e) == vs + bs;
    forall i | 0 <= i < |bs|
      ensures bs[i] < e && NoSite(bs[i])
    {
      assert bs[i] == ExprChildren(e)[|e.params| + i];
    }
  }

  /** An object free of nested objects, walked inside a constructor parameter, is itself
      the inner object found there, and comes back unchanged. */
  lemma InnerFound(inner: Expr, supplied: seq<string>, env: Env, fuel: nat)
    requires inner.New?
    requires forall i :: 0 <= i < |inner.params| ==> NoNew(inner.params[i].value)
    requires forall i :: 0 <= i < |Bodies(inner.methods)| ==> NoNew(Bodies(inner.methods)[i])
    ensures Walk(inner, Inside(None), supplied, env, fuel) ==
      Success((inner, Inside(Some(Inner(inner.params, inner.methods))), supplied))
  {
    NewBodiesBelow(inner);
    ParamsNoNew(inner.params, [], inner.methods, supplied, env, fuel, inner);
    assert [] + inner.params == inner.params;
    ListNoNew(Bodies(inner.methods), Inside(None), supplied, env, fuel, inner);
    WithOwnBodies(inner.methods);
  }

  /** Inlining fires on a `new` at the first parameter that holds an object free of
      nested objects, the parameters before it holding none: walking the parameters
      finds that object and hands it to doInline, whose splice (SpliceReplacesParameter)
      puts the inner parameters, under their fresh member names, in place of the
      parameter. The later parameters are not walked: an object among them is left
      where it is. */
  lemma InlineFires(c: Option<string>, early: seq<NewParam>, x: string, inner: Expr, later: seq<NewParam>,
                    ms: seq<MethodDef>, supplied: seq<string>, env: Env, fuel: nat)
    requires inner.New?
    requires forall i :: 0 <= i < |early| ==> NoNew(early[i].value)
    requires forall i :: 0 <= i < |inner.params| ==> NoNew(inner.params[i].value)
    requires forall i :: 0 <= i < |Bodies(inner.methods)| ==> NoNew(Bodies(inner.methods)[i])
    requires DoInline(early + [NewParam(x, inner)] + later, |early|, Inner(inner.params, inner.methods), ms, env.symbols, supplied, env.asWritten).Success?
    ensures var ps := early + [NewParam(x, inner)] + later;
      var d := DoInline(ps, |early|, Inner(inner.params, inner.methods), ms, env.symbols, supplied, env.asWritten).value;
      WalkNewParams(ps, ParamsWalk([], None, supplied), ms, env, fuel, New(c, ps, ms)) ==
        Success(ParamsWalk(ps, Some(d), d.supplied))
  {
    var ps := early + [NewParam(x, inner)] + later;
    var parent := New(c, ps, ms);
    ParamsBelow(parent);
    var rest := [NewParam(x, inner)] + later;
    assert ps == early + rest;
    forall j | 0 <= j < |rest| ensures rest[j].value < parent {
      assert rest[j] == ps[|early| + j];
    }
    forall j | 0 <= j < |early| ensures early[j].value < parent {
      assert early[j] == ps[j];
    }
    EarlyNoNew(early, rest, [], ms, supplied, env, fuel, parent);
    assert [] + early == early;
    InnerFound(inner, supplied, env, fuel);
    assert rest[0] == NewParam(x, inner) && rest[1..] == later;
    assert early + [NewParam(x, inner)] + later == ps;
  }

  /** The parameter values of a `new` are below it. */
  lemma ParamsBelow(e: Expr)
    requires e.New?
    ensures forall i :: 0 <= i < |e.params| ==> e.params[i].value < e
  {
    var vs := ParamValues(e.params);
    assert ExprChildren(e) == vs + Bodies(e.methods);
    forall i | 0 <= i < |e.params|
      ensures e.params[i].value < e
    {
      assert e.params[i].value == ExprChildren(e)[i];
    }
  }

  /** Parameters holding no object are walked unchanged, one after the other, and the
      walk goes on with the parameters after them. */
  lemma {:induction false} EarlyNoNew(early: seq<NewParam>, rest: seq<NewParam>, done: seq<NewParam>, methods: seq<MethodDef>,
                                      supplied: seq<string>, env: Env, fuel: nat, parent: Expr)
    requires forall j :: 0 <= j < |early| ==> early[j].value < parent && NoNew(early[j].value)
    requires forall j :: 0 <= j < |rest| ==> rest[j].value < parent
    ensures WalkNewParams(early + rest, ParamsWalk(done, None, supplied), methods, env, fuel, parent) ==
      WalkNewParams(rest, ParamsWalk(done + early, None, supplied), methods, env, fuel, parent)
    decreases |early|
  {
    if early == [] {
      assert early + rest == rest && done + early == done;
    } else {
      var all := early + rest;
      assert all[0] == early[0] && all[1..] == early[1..] + rest;
      WalkNoNew(early[0].value, Inside(None), supplied, env, fuel);
      assert NewParam(early[0].id, early[0].value) == early[0];
      EarlyNoNew(early[1..], rest, done + [early[0]], methods, supplied, env, fuel, parent);
      assert done + [early[0]] + early[1..] == done + early;
    }
  }

  lemma {:induction false} ParamsNoNew(rest: seq<NewParam>, done: seq<NewParam>, methods: seq<MethodDef>,
                                       supplied: seq<string>, env: Env, fuel: nat, parent: Expr)
    requires forall j :: 0 <= j < |rest| ==> rest[j].value < parent && NoNew(rest[j].value)
    ensures WalkNewParams(rest, ParamsWalk(done, None, supplied), methods, env, fuel, parent) == Success(ParamsWalk(done + rest, None, supplied))
    decreases |rest|
  {
    if rest == [] {
      assert done + rest == done;
    } else {
      WalkNoNew(rest[0].value, Inside(None), supplied, env, fuel);
      assert NewParam(rest[0].id, rest[0].value) == rest[0];
      ParamsNoNew(rest[1..], done + [rest[0]], methods, supplied, env, fuel, parent);
      assert done + [rest[0]] + rest[1..] == done + rest;
    }
  }

  lemma {:induction false} ListNoSite(xs: seq<Expr>, supplied: seq<string>, env: Env, fuel: nat, parent: Expr)
    requires forall i :: 0 <= i < |xs| ==> xs[i] < parent && NoSite(xs[i])
    ensures WalkList(xs, Outside, supplied, env, fuel, parent) == Success((xs, Outside, supplied))
    decreases parent, 1, |xs|
  {
    if xs != [] {
      WalkNoSite(xs[0], supplied, env, fuel);
      ListNoSite(xs[1..], supplied, env, fuel, parent);
      assert [xs[0]] + xs[1..] == xs;
    }
  }

  lemma {:induction false} PropNoSite(p: Prop, supplied: seq<string>, env: Env, fuel: nat)
    requires NoSiteProp(p)
    ensures WalkProp(p, Outside, supplied, env, fuel) == Success((p, Outside, supplied))
    decreases p, 2
  {
    if p.PEnv? {
      EnvNoSite(p.params, supplied, env, fuel, p);
    } else {
      PropsNoSite(PropChildren(p), supplied, env, fuel, p);
      WithOwnPropChildren(p);
    }
  }

  lemma {:induction false} EnvNoSite(xs: seq<Expr>, supplied: seq<string>, env: Env, fuel: nat, parent: Prop)
    requires forall i :: 0 <= i < |xs| ==> xs[i] < parent && NoSite(xs[i])
    ensures WalkEnv(xs, Outside, supplied, env, fuel, parent) == Success((xs, Outside, supplied))
    decreases parent, 1, |xs|
  {
    if xs != [] {
      WalkNoSite(xs[0], supplied, env, fuel);
      EnvNoSite(xs[1..], supplied, env, fuel, parent);
      assert [xs[0]] + xs[1..] == xs;
    }
  }

  lemma {:induction false} PropsNoSite(ps: seq<Prop>, supplied: seq<string>, env: Env, fuel: nat, parent: Prop)
    requires forall i :: 0 <= i < |ps| ==> ps[i] < parent && NoSiteProp(ps[i])
    ensures WalkProps(ps, Outside, supplied, env, fuel, parent) == Success((ps, Outside, supplied))
    decreases parent, 1, |ps|
  {
    if ps != [] {
      PropNoSite(ps[0], supplied, env, fuel);
      PropsNoSite(ps[1..], supplied, env, fuel, parent);
      assert [ps[0]] + ps[1..] == ps;
    }
  }
}
