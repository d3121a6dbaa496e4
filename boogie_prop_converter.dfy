/** BoogiePropConverter: the translation of a proposition (an assert, an admitted fact,
    a bisimulation invariant) into one Boolean-valued Boogie expression. The visitor's
    value stack is modelled by the recursion: every proposition yields exactly one value. */
module BoogiePropConverter {
  import opened Wrappers
  import opened Syntax
  import Types
  import opened BoogieTypes
  import opened BoogieValue
  import opened PrettyPrint
  import BoogieUtil
  import BoogieConstants
  import BoogieFunctions
  import SymbolTable
  import Util
  import FormalParamsCollector

  /** The two objects of a bisimulation: their heaps, their memories and their fields.
      Outside a bisimulation the converter is built without them; Java then prints
      "null" for a missing string and dereferences a missing field list. */
  datatype Sides = Sides(leftHeap: string, rightHeap: string, leftMem: string, rightMem: string,
                         leftFields: Option<seq<string>>, rightFields: Option<seq<string>>)

  /** The six-argument constructor's nulls. */
  function NoSides(): (s: Sides)
    ensures s.leftFields.None? && s.rightFields.None?
  {
    Sides("null", "null", "null", "null", None, None)
  }

  /** What the converter reads: the objects, the declared functions and the renaming
      of variables (getLookupString). */
  datatype Env = Env(sides: Sides, functions: BoogieFunctions.Table, varMap: map<string, string>)

  /** What the converter updates: the expression constants and the stream their
      declarations are written to. */
  datatype PState = PState(constants: BoogieConstants.Constants, out: Printer)

  function LookupString(env: Env, id: string): string
  {
    if id in env.varMap then env.varMap[id] else id
  }

  // ---------------------------------------------------------------------------
  // Joined lists
  // ---------------------------------------------------------------------------

  /** The items with sep between consecutive ones, as the `first` flag loops build it. */
  function Joined(xs: seq<string>, sep: string): string
    decreases |xs|
  {
    if |xs| == 0 then "" else if |xs| == 1 then xs[0] else Joined(xs[..|xs| - 1], sep) + sep + xs[|xs| - 1]
  }

  lemma JoinedSnoc(xs: seq<string>, x: string, sep: string)
    requires xs != []
    ensures Joined(xs + [x], sep) == Joined(xs, sep) + sep + x
  {
    assert (xs + [x])[..|xs|] == xs;
  }

  // ---------------------------------------------------------------------------
  // Fields-equal propositions
  // ---------------------------------------------------------------------------

  /** One conjunct: field f of the left memory equals field g of the right memory. */
  function FieldEq(lm: string, f: string, rm: string, g: string): string
  {
    BoogieUtil.FieldAccess(lm, f) + " == " + BoogieUtil.FieldAccess(rm, g)
  }

  function Min(a: nat, b: nat): nat
  {
    if a <= b then a else b
  }

  /** The conjuncts of the positional form: the i-th left field against the i-th right
      field, as far as both lists go. */
  function PositionalConjuncts(lm: string, rm: string, lf: seq<string>, rf: seq<string>): (r: seq<string>)
    ensures |r| == Min(|lf|, |rf|)
    ensures forall i :: 0 <= i < |r| ==> r[i] == FieldEq(lm, lf[i], rm, rf[i])
  {
    seq(Min(|lf|, |rf|), i requires 0 <= i < Min(|lf|, |rf|) => FieldEq(lm, lf[i], rm, rf[i]))
  }

  /** The fields the except form compares: the left fields, in order, that the right
      object has too and that are not excluded. */
  function CommonFields(lf: seq<string>, rf: seq<string>, ids: seq<string>): (r: seq<string>)
    ensures forall f :: f in r <==> f in lf && f in rf && f !in ids
    ensures |r| <= |lf|
    decreases |lf|
  {
    if lf == [] then []
    else
      var n := |lf| - 1;
      CommonFields(lf[..n], rf, ids) + (if lf[n] in rf && lf[n] !in ids then [lf[n]] else [])
  }

  function SameFieldConjuncts(lm: string, rm: string, fs: seq<string>): (r: seq<string>)
    ensures |r| == |fs| && forall i :: 0 <= i < |fs| ==> r[i] == FieldEq(lm, fs[i], rm, fs[i])
  {
    seq(|fs|, i requires 0 <= i < |fs| => FieldEq(lm, fs[i], rm, fs[i]))
  }

  /** The value of `fields ==` by position. */
  function PositionalValue(s: Sides): (r: Outcome<string>)
    ensures r.Failure? <==> s.leftFields.None? || s.rightFields.None?
    ensures r.Failure? ==> r == NullPointer()
    ensures r.Success? ==> r.value == Joined(PositionalConjuncts(s.leftMem, s.rightMem, s.leftFields.value, s.rightFields.value), " && ")
  {
    if s.rightFields.None? || s.leftFields.None? then NullPointer()
    else Success(Joined(PositionalConjuncts(s.leftMem, s.rightMem, s.leftFields.value, s.rightFields.value), " && "))
  }

  /** The value of `fields == except ids`: the right list is only consulted when the
      left one has a field, and an empty conjunction raises. */
  function ExceptValue(s: Sides, ids: seq<string>): (r: Outcome<string>)
    ensures s.leftFields.None? ==> r == NullPointer()
    ensures s.leftFields.Some? && s.leftFields.value != [] && s.rightFields.None? ==> r == NullPointer()
    ensures s.leftFields.Some? && s.rightFields.Some? ==>
      (r.Failure? <==> CommonFields(s.leftFields.value, s.rightFields.value, ids) == [])
    ensures s.leftFields.Some? && s.rightFields.Some? && r.Failure? ==> r == InternalFail("No common fields remain.")
    ensures s.leftFields.Some? && s.rightFields.Some? && r.Success? ==>
      r.value == Joined(SameFieldConjuncts(s.leftMem, s.rightMem, CommonFields(s.leftFields.value, s.rightFields.value, ids)), " && ")
  {
    if s.leftFields.None? then NullPointer()
    else if s.leftFields.value == [] then InternalFail("No common fields remain.")
    else if s.rightFields.None? then NullPointer()
    else
      var cs := CommonFields(s.leftFields.value, s.rightFields.value, ids);
      if cs == [] then InternalFail("No common fields remain.")
      else Success(Joined(SameFieldConjuncts(s.leftMem, s.rightMem, cs), " && "))
  }

  /** The loop of caseAFieldsEqualPositionalPrimaryProp: walk the left fields, taking
      the next right field while there is one. */
  method PositionalFieldsEqual(lm: string, rm: string, lf: seq<string>, rf: seq<string>) returns (buf: string)
    ensures buf == Joined(PositionalConjuncts(lm, rm, lf, rf), " && ")
  {
    buf := "";
    var first := true;
    var next := 0;
    for i := 0 to |lf|
      invariant next == Min(i, |rf|)
      invariant first <==> next == 0
      invariant buf == Joined(PositionalConjuncts(lm, rm, lf[..i], rf[..next]), " && ")
    {
      if next < |rf| {
        var c := FieldEq(lm, lf[i], rm, rf[next]);
        PositionalSnoc(lm, rm, lf, rf, i, next);
        if !first {
          buf := buf + " && ";
        }
        buf := buf + c;
        first := false;
        next := next + 1;
      } else {
        PositionalSkip(lm, rm, lf, rf, i, next);
      }
    }
    PositionalWhole(lm, rm, lf, rf);
  }

  /** Once the right fields run out, a further left field adds nothing. */
  lemma PositionalSkip(lm: string, rm: string, lf: seq<string>, rf: seq<string>, i: nat, next: nat)
    requires i < |lf| && next == |rf| <= i
    ensures PositionalConjuncts(lm, rm, lf[..i + 1], rf[..next]) == PositionalConjuncts(lm, rm, lf[..i], rf[..next])
  {
  }

  /** After all left fields, the cursor has consumed as many right fields as pairs are formed. */
  lemma PositionalWhole(lm: string, rm: string, lf: seq<string>, rf: seq<string>)
    ensures PositionalConjuncts(lm, rm, lf[..|lf|], rf[..Min(|lf|, |rf|)]) == PositionalConjuncts(lm, rm, lf, rf)
  {
    assert lf[..|lf|] == lf;
  }

  lemma PositionalSnoc(lm: string, rm: string, lf: seq<string>, rf: seq<string>, i: nat, next: nat)
    requires i < |lf| && next < |rf| && next <= i
    requires next == Min(i, |rf|)
    ensures PositionalConjuncts(lm, rm, lf[..i + 1], rf[..next + 1]) ==
      PositionalConjuncts(lm, rm, lf[..i], rf[..next]) + [FieldEq(lm, lf[i], rm, rf[next])]
    ensures PositionalConjuncts(lm, rm, lf[..i], rf[..next]) == [] <==> next == 0
    ensures next > 0 ==> (Joined(PositionalConjuncts(lm, rm, lf[..i + 1], rf[..next + 1]), " && ") ==
      Joined(PositionalConjuncts(lm, rm, lf[..i], rf[..next]), " && ") + " && " + FieldEq(lm, lf[i], rm, rf[next]))
    ensures next == 0 ==> Joined(PositionalConjuncts(lm, rm, lf[..i + 1], rf[..next + 1]), " && ") == FieldEq(lm, lf[i], rm, rf[next])
  {
    var a := PositionalConjuncts(lm, rm, lf[..i], rf[..next]);
    var b := PositionalConjuncts(lm, rm, lf[..i + 1], rf[..next + 1]);
    assert b == a + [FieldEq(lm, lf[i], rm, rf[next])];
    if next > 0 {
      JoinedSnoc(a, FieldEq(lm, lf[i], rm, rf[next]), " && ");
    }
  }

  /** The loop of caseAFieldsEqualExceptPrimaryProp. */
  method FieldsEqualExcept(lm: string, rm: string, lf: seq<string>, rf: seq<string>, ids: seq<string>)
    returns (r: Outcome<string>)
    ensures r == ExceptValue(Sides("", "", lm, rm, Some(lf), Some(rf)), ids)
  {
    var buf := "";
    var first := true;
    for i := 0 to |lf|
      invariant first <==> CommonFields(lf[..i], rf, ids) == []
      invariant buf == Joined(SameFieldConjuncts(lm, rm, CommonFields(lf[..i], rf, ids)), " && ")
    {
      ExceptStep(lm, rm, lf, rf, ids, i);
      if lf[i] in rf && lf[i] !in ids {
        if !first {
          buf := buf + " && ";
        }
        buf := buf + FieldEq(lm, lf[i], rm, lf[i]);
        first := false;
      }
    }
    ExceptValueOf(lm, rm, lf, rf, ids);
    if first {
      return InternalFail("No common fields remain.");
    }
    r := Success(buf);
  }

  lemma ExceptValueOf(lm: string, rm: string, lf: seq<string>, rf: seq<string>, ids: seq<string>)
    ensures var cs := CommonFields(lf[..|lf|], rf, ids);
      ExceptValue(Sides("", "", lm, rm, Some(lf), Some(rf)), ids) ==
      if cs == [] then InternalFail("No common fields remain.") else Success(Joined(SameFieldConjuncts(lm, rm, cs), " && "))
  {
    assert lf[..|lf|] == lf;
  }

  lemma ExceptStep(lm: string, rm: string, lf: seq<string>, rf: seq<string>, ids: seq<string>, i: nat)
    requires i < |lf|
    ensures var cs := CommonFields(lf[..i], rf, ids);
      var cs' := CommonFields(lf[..i + 1], rf, ids);
      var j := Joined(SameFieldConjuncts(lm, rm, cs), " && ");
      var j' := Joined(SameFieldConjuncts(lm, rm, cs'), " && ");
      (lf[i] in rf && lf[i] !in ids ==> (cs' != [] &&
        j' == (if cs == [] then FieldEq(lm, lf[i], rm, lf[i]) else j + " && " + FieldEq(lm, lf[i], rm, lf[i])))) &&
      (!(lf[i] in rf && lf[i] !in ids) ==> cs' == cs)
  {
    assert lf[..i + 1][..i] == lf[..i] && lf[..i + 1][i] == lf[i];
    var cs := CommonFields(lf[..i], rf, ids);
    assert CommonFields(lf[..i + 1], rf, ids) == cs + (if lf[i] in rf && lf[i] !in ids then [lf[i]] else []);
    if lf[i] in rf && lf[i] !in ids {
      ExceptSnoc(lm, rm, cs, lf[i]);
    }
  }

  lemma ExceptSnoc(lm: string, rm: string, cs: seq<string>, f: string)
    ensures SameFieldConjuncts(lm, rm, cs + [f]) == SameFieldConjuncts(lm, rm, cs) + [FieldEq(lm, f, rm, f)]
    ensures cs != [] ==> (Joined(SameFieldConjuncts(lm, rm, cs + [f]), " && ") ==
      Joined(SameFieldConjuncts(lm, rm, cs), " && ") + " && " + FieldEq(lm, f, rm, f))
    ensures cs == [] ==> Joined(SameFieldConjuncts(lm, rm, cs + [f]), " && ") == FieldEq(lm, f, rm, f)
  {
    assert SameFieldConjuncts(lm, rm, cs + [f]) == SameFieldConjuncts(lm, rm, cs) + [FieldEq(lm, f, rm, f)];
    if cs != [] {
      JoinedSnoc(SameFieldConjuncts(lm, rm, cs), FieldEq(lm, f, rm, f), " && ");
    }
  }

  // ---------------------------------------------------------------------------
  // Operators
  // ---------------------------------------------------------------------------

  /** convertPropLogicOp. */
  function LogicOp(op: string): (r: Outcome<string>)
    ensures r.Success? <==> op in {"&&", "||", "->"}
    ensures op == "->" ==> r == Success("==>")
    ensures op in {"&&", "||"} ==> r == Success(op)
    ensures r.Failure? ==> r == InternalFail("unexpected logic op: " + op)
  {
    if op == "&&" then Success("&&")
    else if op == "||" then Success("||")
    else if op == "->" then Success("==>")
    else InternalFail("unexpected logic op: " + op)
  }

  /** convertSumOp. */
  function SumOp(op: string): (r: Outcome<string>)
    ensures r.Success? <==> op in {"+", "-"}
    ensures r.Success? ==> r.value == op
    ensures r.Failure? ==> r == InternalFail("unimplemented logic op: " + op)
  {
    if op == "+" then Success("+")
    else if op == "-" then Success("-")
    else InternalFail("unimplemented logic op: " + op)
  }

  /** convertProductOp: Boogie writes the remainder as ` mod `. */
  function ProductOp(op: string): (r: Outcome<string>)
    ensures r.Success? <==> op in {"%", "*", "/"}
    ensures op == "%" ==> r == Success(" mod ")
    ensures op in {"*", "/"} ==> r == Success(op)
    ensures r.Failure? ==> r == InternalFail("unimplemented logic op: " + op)
  {
    if op == "%" then Success(" mod ")
    else if op == "*" then Success("*")
    else if op == "/" then Success("/")
    else InternalFail("unimplemented logic op: " + op)
  }

  /** `(left) op (right)` with both operands coerced to one tag. */
  function Infix(l: Value, op: Outcome<string>, r: Value, t: BoogieType): (s: Outcome<string>)
    ensures s.Success? <==> GetValue(l, t).Success? && op.Success? && GetValue(r, t).Success?
  {
    var a :- GetValue(l, t);
    var o :- op;
    var b :- GetValue(r, t);
    Success("(" + a + ")" + o + "(" + b + ")")
  }

  /** A relational operator: both operands are coerced to getInType of their tags. */
  function RelOpText(l: Value, op: string, r: Value): (s: Outcome<string>)
    ensures BoogieUtil.GetInType(op, l.t, r.t).Success? ==>
      s == Infix(l, BoogieUtil.ConvertBoolOp(op), r, BoogieUtil.GetInType(op, l.t, r.t).value)
    ensures BoogieUtil.GetInType(op, l.t, r.t).Failure? ==> s == InternalFail("unimplemented logic op: " + op)
  {
    var t :- BoogieUtil.GetInType(op, l.t, r.t);
    Infix(l, BoogieUtil.ConvertBoolOp(op), r, t)
  }

  /** `(left) op (right)` on the Boolean forms. */
  function LogicText(l: Value, op: string, r: Value): (s: Outcome<string>)
    ensures s.Success? <==> ToBooleanString(l).Success? && LogicOp(op).Success? && ToBooleanString(r).Success?
  {
    var a :- ToBooleanString(l);
    var o :- LogicOp(op);
    var b :- ToBooleanString(r);
    Success("(" + a + ")" + o + "(" + b + ")")
  }

  function IndependenceText(h: Value, l: Value, r: Value): Outcome<string>
  {
    var lo :- ToObjectIdString(l);
    var ro :- ToObjectIdString(r);
    Success("objectValid(" + h.v + ", " + lo + ") ==> objectValid(invokeSplit(" + h.v + ", " + ro + ")[heapLeft]," + lo + ")")
  }

  function FrameText(lh: string, rh: string, l: Value, r: Value): Outcome<string>
  {
    var lo :- ToObjectIdString(l);
    var ro :- ToObjectIdString(r);
    Success("frame(" + lh + "," + rh + ", " + lo + "," + ro + ")")
  }

  function MapLookupText(m: Value, i: Value): Outcome<string>
  {
    var mm :- ToMemoryString(m);
    var b :- ToBitstringString(i);
    Success(mm + "[" + b + "]")
  }

  function MapUpdateText(m: Value, i: Value, x: Value): Outcome<string>
  {
    var mm :- ToMemoryString(m);
    var b :- ToBitstringString(i);
    var o :- ToOpaqueString(x);
    Success(mm + "[" + b + " := " + o + "]")
  }

  /** A selector `left` / `right` of the object or heap. */
  function Select(side: string, left: string, right: string, what: string): (r: Outcome<string>)
    ensures side == "left" ==> r == Success(left)
    ensures side == "right" ==> r == Success(right)
    ensures side != "left" && side != "right" ==> r == InternalFail("invalid " + what + " specifier: " + side)
  {
    if side == "left" then Success(left)
    else if side == "right" then Success(right)
    else InternalFail("invalid " + what + " specifier: " + side)
  }

  // ---------------------------------------------------------------------------
  // Function calls and quantifiers
  // ---------------------------------------------------------------------------

  /** The arguments of a call coerced to the formal types, in order; an argument beyond
      the formals raises (List.get out of bounds). */
  function ArgStrings(vs: seq<Value>, ts: seq<Types.Type>): (r: Outcome<seq<string>>)
    ensures r.Success? ==> |r.value| == |vs| && |vs| <= |ts|
    ensures r.Success? ==> forall i :: 0 <= i < |vs| ==>
      GetValue(vs[i], BoogieUtil.ToBoogieType(ts[i])) == Success(r.value[i])
    ensures |vs| <= |ts| && (forall i :: 0 <= i < |vs| ==> GetValue(vs[i], BoogieUtil.ToBoogieType(ts[i])).Success?) ==> r.Success?
    decreases |vs|
  {
    if vs == [] then Success([])
    else if ts == [] then InternalFail("IndexOutOfBoundsException")
    else
      var s :- GetValue(vs[0], BoogieUtil.ToBoogieType(ts[0]));
      var rest :- ArgStrings(vs[1..], ts[1..]);
      Success([s] + rest)
  }

  /** A call of a declared function; its tag is that of the declared return type. */
  function CallValue(env: Env, name: string, vs: seq<Value>): (r: Outcome<Value>)
    ensures BoogieFunctions.GetByName(env.functions, name).None? ==> r == InternalFail("Function not declared: " + name)
    ensures r.Success? ==> (BoogieFunctions.GetByName(env.functions, name).Some? &&
      Util.FunctionReturnType(BoogieFunctions.GetByName(env.functions, name).value).Success? &&
      r.value.t == BoogieUtil.ToBoogieType(Util.FunctionReturnType(BoogieFunctions.GetByName(env.functions, name).value).value))
  {
    match BoogieFunctions.GetByName(env.functions, name)
    case None => InternalFail("Function not declared: " + name)
    case Some(decl) =>
      var ts :- Util.ParameterTypes(decl);
      var args :- ArgStrings(vs, ts);
      var ret :- Util.FunctionReturnType(decl);
      Success(Value(BoogieUtil.ToBoogieType(ret), name + "(" + Joined(args, ",") + ")"))
  }

  /** The bound variables of a quantifier with their types; an unannotated one is a
      bitstring. */
  function Binders(fs: seq<FormalParam>): (r: Outcome<(seq<string>, seq<Types.Type>)>)
    ensures r.Success? <==> FormalParamsCollector.Collected(fs).Success?
    ensures r.Success? ==> |r.value.0| == |fs| && |r.value.1| == |fs|
    ensures r.Success? ==> r.value.0 == FormalParamsCollector.Collected(fs).value.0
    ensures r.Success? ==> forall i :: 0 <= i < |fs| ==>
      r.value.1[i] == (if FormalParamsCollector.Collected(fs).value.1[i].Some? then FormalParamsCollector.Collected(fs).value.1[i].value else Types.Bitstring)
  {
    var c :- FormalParamsCollector.Collected(fs);
    Success((c.0, Util.WithDefault(c.1, Types.Bitstring)))
  }

  function Somes(ts: seq<Types.Type>): (r: seq<Option<Types.Type>>)
    ensures |r| == |ts| && forall i :: 0 <= i < |ts| ==> r[i] == Some(ts[i])
  {
    seq(|ts|, i requires 0 <= i < |ts| => Some(ts[i]))
  }

  /** The scopes of a quantifier's body: a frame pushed with pushFrame(true) holding
      the bound variables. */
  function QuantifierScopes(sc: SymbolTable.Scopes, ids: seq<string>, ts: seq<Types.Type>): (r: SymbolTable.Scopes)
    requires |ids| == |ts|
    ensures |r| == |sc| + 1 && r[1..] == sc && r[0].kind == SymbolTable.Constant
  {
    SymbolTable.AddEach([SymbolTable.FrameValue(SymbolTable.Constant, map[])] + sc, ids, Somes(ts))
  }

  function BinderList(ids: seq<string>, ts: seq<Types.Type>): (r: seq<string>)
    requires |ids| == |ts|
    ensures |r| == |ids|
    ensures forall i :: 0 <= i < |ids| ==> r[i] == ids[i] + ":" + BoogieString(BoogieUtil.ToBoogieType(ts[i]))
  {
    seq(|ids|, i requires 0 <= i < |ids| => ids[i] + ":" + BoogieString(BoogieUtil.ToBoogieType(ts[i])))
  }

  function QuantifierText(isForall: bool, ids: seq<string>, ts: seq<Types.Type>, body: Value): Outcome<string>
    requires |ids| == |ts|
  {
    var b :- ToBooleanString(body);
    Success((if isForall then "forall " else "exists ") + Joined(BinderList(ids, ts), ",") + ":: " + b)
  }

  // ---------------------------------------------------------------------------
  // The conversion
  // ---------------------------------------------------------------------------

  /** The text of an env proposition, which names its expression constant. */
  function EnvText(p: Prop): string
  {
    Text(RenderProp(p))
  }

  /** The conversion of a proposition to its value, given the symbols in scope (a
      quantifier pushes a frame for its body and pops it afterwards, so the scopes are
      passed down rather than threaded through). */
  function Convert(env: Env, sc: SymbolTable.Scopes, st: PState, p: Prop): (r: Outcome<(Value, PState)>)
    ensures r.Success? && BoogieConstants.Valid(st.constants) ==> BoogieConstants.Valid(r.value.1.constants)
    ensures r.Success? ==> st.constants.exprs.Keys <= r.value.1.constants.exprs.Keys
    ensures r.Success? ==> r.value.1.constants.(exprs := st.constants.exprs) == st.constants
    decreases p, 2
  {
    if p.FieldsEqualPositional? || p.FieldsEqualExcept? || p.PEnv? || p.PLiteral? || p.FrameAll? ||
       p.ObjLr? || p.HeapLr? || p.PLookup?
    then ConvertLeaf(env, sc, st, p)
    else if p.PToBits? || p.IsBits? || p.PParen? || p.PNot? || p.ObjectLookup? || p.ObjectIs? || p.Quantified?
    then ConvertUnary(env, sc, st, p)
    else if p.PFunc? then
      var a :- ConvertArgs(env, sc, st, p.args);
      var v :- CallValue(env, p.name, a.0);
      Success((v, a.1))
    else ConvertBinary(env, sc, st, p)
  }

  /** The propositions without sub-propositions. */
  function ConvertLeaf(env: Env, sc: SymbolTable.Scopes, st: PState, p: Prop): (r: Outcome<(Value, PState)>)
    requires p.FieldsEqualPositional? || p.FieldsEqualExcept? || p.PEnv? || p.PLiteral? || p.FrameAll? ||
             p.ObjLr? || p.HeapLr? || p.PLookup?
    ensures r.Success? && BoogieConstants.Valid(st.constants) ==> BoogieConstants.Valid(r.value.1.constants)
    ensures r.Success? ==> st.constants.exprs.Keys <= r.value.1.constants.exprs.Keys
    ensures r.Success? ==> r.value.1.constants.(exprs := st.constants.exprs) == st.constants
    ensures !p.PEnv? && r.Success? ==> r.value.1 == st
    ensures p.PLookup? ==> (r.Success? <==> SymbolTable.TypeOf(sc, p.id).Some?)
    ensures p.PLookup? && r.Failure? ==> r == InternalFail("symbol does not exist: " + p.id)
    ensures p.PLookup? && r.Success? ==>
      r.value.0 == Value(BoogieUtil.ToBoogieType(SymbolTable.TypeOf(sc, p.id).value), LookupString(env, p.id))
    ensures p.FieldsEqualPositional? ==> (r.Success? <==> PositionalValue(env.sides).Success?)
    ensures p.FieldsEqualPositional? && r.Success? ==> r.value.0 == Value(BoogieType.Boolean, PositionalValue(env.sides).value)
    ensures p.FieldsEqualExcept? ==> (r.Success? <==> ExceptValue(env.sides, if p.except.Some? then p.except.value else []).Success?)
    ensures p.FieldsEqualExcept? && r.Success? ==>
      r.value.0 == Value(BoogieType.Boolean, ExceptValue(env.sides, if p.except.Some? then p.except.value else []).value)
    ensures p.ObjLr? && r.Success? ==> r.value.0.t == Memory && r.value.0.v in {env.sides.leftMem, env.sides.rightMem}
    ensures p.HeapLr? && r.Success? ==> r.value.0.t == Heap && r.value.0.v in {env.sides.leftHeap, env.sides.rightHeap}
    ensures p.PEnv? ==> (r.Success? && r.value.0.t == BoogieType.Expr && EnvText(p) in r.value.1.constants.exprs &&
      r.value.1.constants.exprs[EnvText(p)] == r.value.0.v)
    ensures p.PEnv? ==> r.value.1.constants.exprs.Keys == st.constants.exprs.Keys + {EnvText(p)}
    decreases p, 1
  {
    match p
    case FieldsEqualPositional =>
      var s :- PositionalValue(env.sides);
      Success((Value(BoogieType.Boolean, s), st))
    case FieldsEqualExcept(except) =>
      var s :- ExceptValue(env.sides, if except.Some? then except.value else []);
      Success((Value(BoogieType.Boolean, s), st))
    case PEnv(_) =>
      var c := st.constants;
      var added := BoogieConstants.AddExprValue(c, EnvText(p), st.out);
      assert BoogieConstants.Valid(c) ==> BoogieConstants.Valid(added.1) by {
        if BoogieConstants.Valid(c) {
          BoogieConstants.AddExprSpec(c, EnvText(p), st.out);
        }
      }
      Success((Value(BoogieType.Expr, added.0), PState(added.1, added.2)))
    case PLiteral(lit) =>
      if lit.Numeric? then Success((Value(Integer, lit.digits), st))
      else Success((Value(BoogieType.Boolean, lit.word), st))
    case FrameAll =>
      Success((Value(BoogieType.Boolean, env.sides.leftHeap + "==" + env.sides.rightHeap), st))
    case ObjLr(side) =>
      var s :- Select(side, env.sides.leftMem, env.sides.rightMem, "object");
      Success((Value(Memory, s), st))
    case HeapLr(side) =>
      var s :- Select(side, env.sides.leftHeap, env.sides.rightHeap, "heap");
      Success((Value(Heap, s), st))
    case PLookup(id) =>
      match SymbolTable.TypeOf(sc, id)
      case None => InternalFail("symbol does not exist: " + id)
      case Some(t) => Success((Value(BoogieUtil.ToBoogieType(t), LookupString(env, id)), st))
  }

  /** The propositions with one sub-proposition. */
  function ConvertUnary(env: Env, sc: SymbolTable.Scopes, st: PState, p: Prop): (r: Outcome<(Value, PState)>)
    requires p.PToBits? || p.IsBits? || p.PParen? || p.PNot? || p.ObjectLookup? || p.ObjectIs? || p.Quantified?
    ensures r.Success? && BoogieConstants.Valid(st.constants) ==> BoogieConstants.Valid(r.value.1.constants)
    ensures r.Success? ==> st.constants.exprs.Keys <= r.value.1.constants.exprs.Keys
    ensures r.Success? ==> r.value.1.constants.(exprs := st.constants.exprs) == st.constants
    decreases p, 1
  {
    match p
    case PToBits(q) =>
      var a :- Convert(env, sc, st, q);
      var b :- ToBitstringString(a.0);
      Success((Value(Bitstring, b), a.1))
    case IsBits(q) =>
      var a :- Convert(env, sc, st, q);
      var o :- ToOpaqueString(a.0);
      Success((Value(BoogieType.Boolean, "isBits(" + o + ")"), a.1))
    case PParen(q) =>
      var a :- Convert(env, sc, st, q);
      Success((Value(a.0.t, "(" + a.0.v + ")"), a.1))
    case PNot(q) =>
      var a :- Convert(env, sc, st, q);
      var b :- ToBooleanString(a.0);
      Success((Value(BoogieType.Boolean, "!(" + b + ")"), a.1))
    case ObjectLookup(obj, field) =>
      var a :- Convert(env, sc, st, obj);
      var m :- ToMemoryString(a.0);
      Success((Value(Opaque, m + "[internal.attribute.field." + field + "]"), a.1))
    case ObjectIs(obj, classId) =>
      var a :- Convert(env, sc, st, obj);
      Success((Value(BoogieType.Boolean, a.0.v + "[objectClassIdAttr] == " + classId), a.1))
    case Quantified(isForall, formals, body) =>
      var bs :- Binders(formals);
      var a :- Convert(env, QuantifierScopes(sc, bs.0, bs.1), st, body);
      var s :- QuantifierText(isForall, bs.0, bs.1, a.0);
      Success((Value(BoogieType.Boolean, s), a.1))
  }

  /** The propositions with two or more sub-propositions, other than calls. */
  function ConvertBinary(env: Env, sc: SymbolTable.Scopes, st: PState, p: Prop): (r: Outcome<(Value, PState)>)
    requires !(p.FieldsEqualPositional? || p.FieldsEqualExcept? || p.PEnv? || p.PLiteral? || p.FrameAll? ||
               p.ObjLr? || p.HeapLr? || p.PLookup?)
    requires !(p.PToBits? || p.IsBits? || p.PParen? || p.PNot? || p.ObjectLookup? || p.ObjectIs? || p.Quantified?)
    requires !p.PFunc?
    ensures r.Success? && BoogieConstants.Valid(st.constants) ==> BoogieConstants.Valid(r.value.1.constants)
    ensures r.Success? ==> st.constants.exprs.Keys <= r.value.1.constants.exprs.Keys
    ensures r.Success? ==> r.value.1.constants.(exprs := st.constants.exprs) == st.constants
    decreases p, 1
  {
    if p.FrameHeap? then
      var h1 :- Convert(env, sc, st, p.leftHeap);
      var h2 :- Convert(env, sc, h1.1, p.rightHeap);
      var a :- Convert(env, sc, h2.1, p.left);
      var b :- Convert(env, sc, a.1, p.right);
      var s :- FrameText(h1.0.v, h2.0.v, a.0, b.0);
      Success((Value(BoogieType.Boolean, s), b.1))
    else if p.Independence? then
      var h :- Convert(env, sc, st, p.heap);
      var a :- Convert(env, sc, h.1, p.left);
      var b :- Convert(env, sc, a.1, p.right);
      var s :- IndependenceText(h.0, a.0, b.0);
      Success((Value(BoogieType.Boolean, s), b.1))
    else if p.PMapUpdate? then
      var m :- Convert(env, sc, st, p.mapProp);
      var i :- Convert(env, sc, m.1, p.index);
      var x :- Convert(env, sc, i.1, p.value);
      var s :- MapUpdateText(m.0, i.0, x.0);
      Success((Value(Memory, s), x.1))
    else
      match p
      case ObjEq(l, r) =>
        var a :- Convert(env, sc, st, l);
        var b :- Convert(env, sc, a.1, r);
        Success((Value(BoogieType.Boolean, a.0.v + "==" + b.0.v), b.1))
      case PSum(l, op, r) =>
        var a :- Convert(env, sc, st, l);
        var b :- Convert(env, sc, a.1, r);
        var s :- Infix(a.0, SumOp(op), b.0, Integer);
        Success((Value(Integer, s), b.1))
      case PProduct(l, op, r) =>
        var a :- Convert(env, sc, st, l);
        var b :- Convert(env, sc, a.1, r);
        var s :- Infix(a.0, ProductOp(op), b.0, Integer);
        Success((Value(Integer, s), b.1))
      case Frame(l, r) =>
        var a :- Convert(env, sc, st, l);
        var b :- Convert(env, sc, a.1, r);
        var s :- FrameText(env.sides.leftHeap, env.sides.rightHeap, a.0, b.0);
        Success((Value(BoogieType.Boolean, s), b.1))
      case FromHeapHeap(h, ref) =>
        var a :- Convert(env, sc, st, h);
        var b :- Convert(env, sc, a.1, ref);
        var o :- ToObjectIdString(b.0);
        Success((Value(Heap, "invokeSplit(" + a.0.v + "," + o + ")[heapRight]"), b.1))
      case FromHeapObject(h, ref) =>
        var a :- Convert(env, sc, st, h);
        var b :- Convert(env, sc, a.1, ref);
        var o :- ToObjectIdString(b.0);
        Success((Value(Object, "invokeSplit(" + a.0.v + "," + o + ")[targetObject]"), b.1))
      case PMapLookup(m, i) =>
        var a :- Convert(env, sc, st, m);
        var b :- Convert(env, sc, a.1, i);
        var s :- MapLookupText(a.0, b.0);
        Success((Value(Opaque, s), b.1))
      case PRelOp(l, op, r) =>
        var a :- Convert(env, sc, st, l);
        var b :- Convert(env, sc, a.1, r);
        var s :- RelOpText(a.0, op, b.0);
        Success((Value(BoogieType.Boolean, s), b.1))
      case PLogicOp(l, op, r) =>
        var a :- Convert(env, sc, st, l);
        var b :- Convert(env, sc, a.1, r);
        var s :- LogicText(a.0, op, b.0);
        Success((Value(BoogieType.Boolean, s), b.1))
  }

  /** The arguments of a call, converted left to right; the Deque the source pops them
      into gives them back in this order. */
  function ConvertArgs(env: Env, sc: SymbolTable.Scopes, st: PState, args: seq<Prop>): (r: Outcome<(seq<Value>, PState)>)
    ensures r.Success? ==> |r.value.0| == |args|
    ensures r.Success? && BoogieConstants.Valid(st.constants) ==> BoogieConstants.Valid(r.value.1.constants)
    ensures r.Success? ==> st.constants.exprs.Keys <= r.value.1.constants.exprs.Keys
    ensures r.Success? ==> r.value.1.constants.(exprs := st.constants.exprs) == st.constants
    decreases args
  {
    if args == [] then Success(([], st))
    else
      var a :- Convert(env, sc, st, args[0]);
      var rest :- ConvertArgs(env, sc, a.1, args[1..]);
      Success(([a.0] + rest.0, rest.1))
  }

  // ---------------------------------------------------------------------------
  // The tag of a proposition's value
  // ---------------------------------------------------------------------------

  /** The tag each kind of proposition produces, read off the grammar and the
      declarations alone: a lookup has its symbol's tag, a call its function's
      declared return tag, a parenthesis the tag of its content. */
  function PropTag(env: Env, sc: SymbolTable.Scopes, p: Prop): BoogieType
  {
    match p
    case PToBits(_) => Bitstring
    case PEnv(_) => BoogieType.Expr
    case PLiteral(lit) => if lit.Numeric? then Integer else BoogieType.Boolean
    case PSum(_, _, _) => Integer
    case PProduct(_, _, _) => Integer
    case FromHeapHeap(_, _) => Heap
    case HeapLr(_) => Heap
    case ObjLr(_) => Memory
    case FromHeapObject(_, _) => Object
    case PLookup(id) =>
      if SymbolTable.TypeOf(sc, id).Some? then BoogieUtil.ToBoogieType(SymbolTable.TypeOf(sc, id).value) else Opaque
    case PFunc(name, _) =>
      var d := BoogieFunctions.GetByName(env.functions, name);
      if d.Some? && Util.FunctionReturnType(d.value).Success? then BoogieUtil.ToBoogieType(Util.FunctionReturnType(d.value).value)
      else Opaque
    case PParen(q) => PropTag(env, sc, q)
    case PMapLookup(_, _) => Opaque
    case PMapUpdate(_, _, _) => Memory
    case ObjectLookup(_, _) => Opaque
    case _ => BoogieType.Boolean
  }

  /** Every converted proposition carries the tag PropTag predicts; in particular the
      logical connectives, comparisons, quantifiers, fields-equal and frame forms are
      Boolean. */
  lemma {:induction false} ConvertTag(env: Env, sc: SymbolTable.Scopes, st: PState, p: Prop)
    requires Convert(env, sc, st, p).Success?
    ensures Convert(env, sc, st, p).value.0.t == PropTag(env, sc, p)
  {
    if p.FieldsEqualPositional? || p.FieldsEqualExcept? || p.PEnv? || p.PLiteral? || p.FrameAll? ||
       p.ObjLr? || p.HeapLr? || p.PLookup? {
      LeafTag(env, sc, st, p);
    } else if p.PParen? {
      ConvertTag(env, sc, st, p.p);
      ParenTag(env, sc, st, p);
    } else if p.PToBits? || p.IsBits? || p.PNot? || p.ObjectLookup? || p.ObjectIs? || p.Quantified? {
      UnaryTag(env, sc, st, p);
    } else if p.PFunc? {
    } else {
      BinaryTag(env, sc, st, p);
    }
  }

  lemma LeafTag(env: Env, sc: SymbolTable.Scopes, st: PState, p: Prop)
    requires p.FieldsEqualPositional? || p.FieldsEqualExcept? || p.PEnv? || p.PLiteral? || p.FrameAll? ||
             p.ObjLr? || p.HeapLr? || p.PLookup?
    requires ConvertLeaf(env, sc, st, p).Success?
    ensures ConvertLeaf(env, sc, st, p).value.0.t == PropTag(env, sc, p)
  {
  }

  lemma ParenTag(env: Env, sc: SymbolTable.Scopes, st: PState, p: Prop)
    requires p.PParen? && ConvertUnary(env, sc, st, p).Success?
    ensures Convert(env, sc, st, p.p).Success?
    ensures ConvertUnary(env, sc, st, p).value.0.t == Convert(env, sc, st, p.p).value.0.t
  {
  }

  lemma UnaryTag(env: Env, sc: SymbolTable.Scopes, st: PState, p: Prop)
    requires p.PToBits? || p.IsBits? || p.PNot? || p.ObjectLookup? || p.ObjectIs? || p.Quantified?
    requires ConvertUnary(env, sc, st, p).Success?
    ensures ConvertUnary(env, sc, st, p).value.0.t == PropTag(env, sc, p)
  {
    if p.PToBits? || p.IsBits? {
      BitsTag(env, sc, st, p);
    } else if p.PNot? {
      NotTag(env, sc, st, p);
    } else if p.Quantified? {
      QuantifiedTag(env, sc, st, p);
    } else {
      ObjectTag(env, sc, st, p);
    }
  }

  lemma BitsTag(env: Env, sc: SymbolTable.Scopes, st: PState, p: Prop)
    requires p.PToBits? || p.IsBits?
    requires ConvertUnary(env, sc, st, p).Success?
    ensures ConvertUnary(env, sc, st, p).value.0.t == PropTag(env, sc, p)
  {
  }

  lemma NotTag(env: Env, sc: SymbolTable.Scopes, st: PState, p: Prop)
    requires p.PNot?
    requires ConvertUnary(env, sc, st, p).Success?
    ensures ConvertUnary(env, sc, st, p).value.0.t == PropTag(env, sc, p)
  {
  }

  lemma QuantifiedTag(env: Env, sc: SymbolTable.Scopes, st: PState, p: Prop)
    requires p.Quantified?
    requires ConvertUnary(env, sc, st, p).Success?
    ensures ConvertUnary(env, sc, st, p).value.0.t == PropTag(env, sc, p)
  {
  }

  lemma ObjectTag(env: Env, sc: SymbolTable.Scopes, st: PState, p: Prop)
    requires p.ObjectLookup? || p.ObjectIs?
    requires ConvertUnary(env, sc, st, p).Success?
    ensures ConvertUnary(env, sc, st, p).value.0.t == PropTag(env, sc, p)
  {
  }

  lemma BinaryTag(env: Env, sc: SymbolTable.Scopes, st: PState, p: Prop)
    requires !(p.FieldsEqualPositional? || p.FieldsEqualExcept? || p.PEnv? || p.PLiteral? || p.FrameAll? ||
               p.ObjLr? || p.HeapLr? || p.PLookup?)
    requires !(p.PToBits? || p.IsBits? || p.PParen? || p.PNot? || p.ObjectLookup? || p.ObjectIs? || p.Quantified?)
    requires !p.PFunc?
    requires ConvertBinary(env, sc, st, p).Success?
    ensures ConvertBinary(env, sc, st, p).value.0.t == PropTag(env, sc, p)
  {
  }
}
