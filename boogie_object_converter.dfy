/** BoogieObjectConverter: the translation of one `new` expression into a Boogie
    constructor procedure and one procedure per method. While it translates, the
    converter collects the object's fields, the parameter names and definitions of its
    methods and the checkpoints their bodies record; the symbol table and the constants
    table are shared with its caller. */
module BoogieObjectConverter {
  import opened Wrappers
  import opened Syntax
  import Types
  import opened BoogieTypes
  import BoogieValue
  import opened PrettyPrint
  import BoogieUtil
  import BoogieConstants
  import BoogieFunctions
  import BoogieMethods
  import BoogieClasses
  import SymbolTable
  import FormalParamsCollector
  import BoogieFormalParamsConverter
  import BoogieExprConverter
  import Order
  import Fresh

  /** What a converter is created with: the prefix of its procedure names, the class id
      constant its constructor stores, and the tables its method bodies read. */
  datatype Context = Context(name: string, classId: string, functions: BoogieFunctions.Table,
                             methods: BoogieMethods.Methods, classes: BoogieClasses.Classes)

  /** What the converter updates: the shared symbol table and constants, its output
      stream, and what it collects. */
  datatype OState = OState(symbols: SymbolTable.Scopes, constants: BoogieConstants.Constants, out: Printer,
                           fields: seq<string>, methodSigs: map<string, seq<string>>,
                           methodDefs: map<string, MethodDef>, checkpoints: map<string, bool>)

  /** The error of every node the converter has no case for. */
  function CannotConvert(e: Expr): Outcome<OState>
  {
    InternalFail("Cannot convert " + ClassName(At(e, Own(e))))
  }

  // ---------------------------------------------------------------------------
  // Fields and the constructor
  // ---------------------------------------------------------------------------

  /** The identifiers of the constructor parameters, in order. */
  function FieldIds(ps: seq<NewParam>): (r: seq<string>)
    ensures |r| == |ps| && forall i :: 0 <= i < |ps| ==> r[i] == ps[i].id
  {
    if ps == [] then [] else [ps[0].id] + FieldIds(ps[1..])
  }

  function Opaques(n: nat): seq<Option<Types.Type>>
  {
    seq(n, _ => Some(Types.Opaque))
  }

  /** The field frame: a mutable frame pushed over the table, each constructor parameter
      declared in it as opaque and recorded as a field. */
  function EnterFields(st: OState, ids: seq<string>): OState
  {
    st.(symbols := SymbolTable.AddEach([SymbolTable.FrameValue(SymbolTable.Mutable, map[])] + st.symbols, ids, Opaques(|ids|)),
        fields := st.fields + ids)
  }

  const ProcedurePrefix := "procedure {:inline 1} "
  const NewReturns := ") returns (internal.result: Object) {"

  /** The constructor's parameter list: each field as "<id>:T", separated by ",". */
  function TypedParams(ids: seq<string>): string
    decreases |ids|
  {
    if ids == [] then ""
    else
      var n := |ids| - 1;
      TypedParams(ids[..n]) + (if n > 0 then "," else "") + (ids[n] + ":T")
  }

  lemma TypedParamsStep(open: string, ids: seq<string>, i: nat)
    requires i < |ids|
    ensures open + TypedParams(ids[..i]) + (if i > 0 then "," else "") + (ids[i] + ":T") == open + TypedParams(ids[..i + 1])
  {
    assert ids[..i + 1][..i] == ids[..i] && ids[..i + 1][i] == ids[i];
    var tp := TypedParams(ids[..i]);
    var sep := if i > 0 then "," else "";
    assert TypedParams(ids[..i + 1]) == tp + sep + (ids[i] + ":T");
    assert open + tp + sep + (ids[i] + ":T") == open + (tp + sep + (ids[i] + ":T"));
  }

  function NewHeader(name: string, ids: seq<string>): string
  {
    ProcedurePrefix + name + ".new(" + TypedParams(ids) + NewReturns
  }

  /** The store of one field from the constructor parameter of the same name. */
  function FieldStore(mem: string, f: string): string
  {
    BoogieUtil.FieldAccess(mem, f) + " := " + f + ";"
  }

  function FieldStores(mem: string, ids: seq<string>): (r: seq<string>)
    ensures |r| == |ids| && forall i :: 0 <= i < |ids| ==> r[i] == FieldStore(mem, ids[i])
  {
    seq(|ids|, i requires 0 <= i < |ids| => FieldStore(mem, ids[i]))
  }

  /** The constructor body: an empty object with default memory, every field stored,
      the memory and the class id set, and the object returned. */
  function ConstructorBody(obj: string, mem: string, classId: string, ids: seq<string>): seq<string>
  {
    ["var " + obj + ":Object;", "var " + mem + ":Memory;", obj + " := emptyObject;", mem + " := toMemory(defaultValue);"]
    + FieldStores(mem, ids)
    + [obj + "[objectMemoryAttr] := " + mem + ";", obj + "[objectClassIdAttr] := " + classId + ";",
       "internal.result := " + obj + ";"]
  }

  /** The temporaries of the constructor: an object and a memory from a fresh table. */
  function ConstructorTemporaries(): (string, string)
  {
    var (obj, temps) := BoogieExprConverter.NewTemporary(map[], "Object");
    (obj, BoogieExprConverter.NewTemporary(temps, "Memory").0)
  }

  /** The constructor procedure as written to the stream: the header line, the body one
      tab deeper, the closing brace and an empty line. */
  function ConstructorOut(p: Printer, name: string, classId: string, ids: seq<string>): Printer
  {
    var (obj, mem) := ConstructorTemporaries();
    var q := PrintLines(PushedTab(PrintLine(p, NewHeader(name, ids))), ConstructorBody(obj, mem, classId, ids));
    Newline(PrintLine(PoppedTab(q), "}"))
  }

  /** The constructor's temporaries are the first two temporary names. */
  lemma ConstructorTemporaryNames()
    ensures ConstructorTemporaries() == ("internal.tmp0", "internal.tmp1")
  {
    var p := BoogieExprConverter.TmpPrefix;
    assert Fresh.Name(p, 0) == "internal.tmp0";
    assert Fresh.Name(p, 1) == "internal.tmp1";
    Fresh.FreshUnique(p, {}, 0);
    assert map["internal.tmp0" := "Object"].Keys == {"internal.tmp0"};
    Fresh.FreshUnique(p, {"internal.tmp0"}, 1);
  }

  /** The constructor stores the i-th constructor parameter under the attribute of the
      i-th field, between the four lines that create the object and its memory and the
      three that install the memory, set the class id and return the object. */
  lemma ConstructorStoresFields(obj: string, mem: string, classId: string, ids: seq<string>, i: nat)
    requires i < |ids|
    ensures var body := ConstructorBody(obj, mem, classId, ids);
      |body| == |ids| + 7 &&
      body[2] == obj + " := emptyObject;" && body[3] == mem + " := toMemory(defaultValue);" &&
      body[4 + i] == mem + "[" + BoogieUtil.FieldPrefix + ids[i] + "] := " + ids[i] + ";" &&
      body[|ids| + 5] == obj + "[objectClassIdAttr] := " + classId + ";"
  {
  }

  // ---------------------------------------------------------------------------
  // Method procedures
  // ---------------------------------------------------------------------------

  const ProcParamsStart := "(internal.classId : ClassId, internal.objectId : ObjectId"
  const ProcReturns := ") returns (internal.result : T)"
  const FrameEnsures := "ensures (forall id:ObjectId :: objectValid(old(heap), id) ==> (objectValid(heap, id) && invokeSplit(heap, id)[targetObject][objectClassIdAttr] == invokeSplit(old(heap), id)[targetObject][objectClassIdAttr]));"
  const ProcClauses := ["modifies objectMemory;", "modifies functionState;", "modifies heap; ", "modifies checkpoints;", FrameEnsures, "{"]
  const DefaultInit := " := defaultValue;"

  /** The first line of a method procedure: the class id and the object id, then the
      method's parameters, each opaque. */
  function ProcHeader(procName: string, hasParams: bool, paramsText: string): string
  {
    ProcedurePrefix + procName + ProcParamsStart + (if hasParams then "," else "") + paramsText + ProcReturns
  }

  /** The header of a method procedure as written: the first line, the frame clauses and
      the opening brace, after which the stream is one tab deeper. */
  function HeaderOut(p: Printer, procName: string, hasParams: bool, paramsText: string): Printer
  {
    PushedTab(PrintLines(PrintLine(p, ProcHeader(procName, hasParams, paramsText)), ProcClauses))
  }

  /** The variables of a method body: its fields read from the object memory, its
      parameters as themselves; a parameter hides a field of the same name. */
  function VarMap(fields: seq<string>, names: seq<string>): (r: map<string, string>)
    ensures forall x :: x in r <==> x in fields || x in names
    ensures forall x :: x in names ==> r[x] == x
    ensures forall x :: x in fields && x !in names ==> r[x] == BoogieUtil.FieldAccess("objectMemory", x)
  {
    BoogieUtil.ScopedVars(fields, "objectMemory") + map x | x in names :: x
  }

  function BodyEnv(ctx: Context, fields: seq<string>, names: seq<string>): BoogieExprConverter.XEnv
  {
    BoogieExprConverter.XEnv(VarMap(fields, names), ctx.functions, ctx.methods, ctx.classes)
  }

  /** A method body is converted on its own stream, one tab in, with no temporaries. */
  function BodyStart(symbols: SymbolTable.Scopes): BoogieExprConverter.XState
  {
    BoogieExprConverter.XState(PushedTab(Start()), map[], {}, map[], symbols)
  }

  function VarDecl(decls: map<string, string>, k: string): string
    requires k in decls
  {
    "var " + k + ":" + decls[k] + ";"
  }

  function VarDecls(decls: map<string, string>, ks: seq<string>): (r: seq<string>)
    requires forall k :: k in ks ==> k in decls
    ensures |r| == |ks| && forall i :: 0 <= i < |ks| ==> r[i] == VarDecl(decls, ks[i])
  {
    seq(|ks|, i requires 0 <= i < |ks| => VarDecl(decls, ks[i]))
  }

  /** The initialisations of the declared variables of type T, in order. */
  function Inits(decls: map<string, string>, ks: seq<string>): seq<string>
    requires forall k :: k in ks ==> k in decls
    decreases |ks|
  {
    if ks == [] then []
    else
      var n := |ks| - 1;
      Inits(decls, ks[..n]) + (if decls[ks[n]] == "T" then [ks[n] + DefaultInit] else [])
  }

  /** A variable is initialised to the default value exactly when it is one of the
      listed variables and its declared type is T. */
  lemma {:induction false} InitsExact(decls: map<string, string>, ks: seq<string>, k: string)
    requires forall k :: k in ks ==> k in decls
    ensures (k + DefaultInit in Inits(decls, ks)) <==> (k in ks && decls[k] == "T")
    decreases |ks|
  {
    if ks != [] {
      var n := |ks| - 1;
      InitsExact(decls, ks[..n], k);
      assert ks == ks[..n] + [ks[n]];
      if k + DefaultInit == ks[n] + DefaultInit {
        assert k == (k + DefaultInit)[..|k|];
        assert ks[n] == (ks[n] + DefaultInit)[..|ks[n]|];
      }
    }
  }

  /** The rest of a method procedure: the declarations of the body's variables, an empty
      line, the initialisations, the body's statements, the result, an empty line, and
      the closing brace one tab out. */
  function TailOut(p: Printer, decls: map<string, string>, ks: seq<string>, bodyText: string, result: string): Printer
    requires forall k :: k in ks ==> k in decls
  {
    var p1 := Newline(PrintLines(p, VarDecls(decls, ks)));
    var p2 := PrintLine(PrintLines(p1, Inits(decls, ks)), bodyText);
    var p3 := Newline(PrintLine(p2, "internal.result := " + result + ";"));
    Newline(PrintLine(PoppedTab(p3), "}"))
  }

  /** Each method's parameters are converted as name and type, opaque by default. */
  function Params(m: MethodDef): Outcome<BoogieFormalParamsConverter.State>
  {
    BoogieFormalParamsConverter.Converted(BoogieFormalParamsConverter.NameAndType, Types.Opaque,
                                          BoogieFormalParamsConverter.State(Start(), false, [], 0), m.formals)
  }

  /** The method frame, the method's definition recorded under its name, and its name
      and definition added to the constants. */
  function EnterMethod(st: OState, m: MethodDef): OState
  {
    st.(symbols := [SymbolTable.FrameValue(SymbolTable.Mutable, map[])] + st.symbols,
        methodDefs := st.methodDefs[m.name := m],
        constants := BoogieConstants.AddMethodValue(BoogieConstants.AddMethodNameValue(st.constants, m.name),
                                                    BoogieConstants.MethodKey(m)))
  }

  /** Up to the body: the parameter names recorded as the method's signature and
      declared in the method frame, and the procedure header written. */
  function WithParams(ctx: Context, st: OState, m: MethodDef, ps: BoogieFormalParamsConverter.State): OState
    requires st.symbols != []
  {
    var names := ps.paramNames;
    st.(methodSigs := st.methodSigs[m.name := names],
        symbols := SymbolTable.AddEach(st.symbols, names, Opaques(|names|)),
        out := HeaderOut(st.out, ctx.name + "." + m.name, names != [], ps.out.text))
  }

  /** caseAMethodDef. A method without a body is a null dereference. */
  function ConvertMethod(ctx: Context, st: OState, m: MethodDef): (r: Outcome<OState>)
    ensures r.Success? ==> m.body.Some? && Params(m).Success?
  {
    var ps :- Params(m);
    if m.body.None? then NullPointer()
    else ConvertBody(ctx, st.fields, WithParams(ctx, EnterMethod(st, m), m, ps), m.body.value, ps.paramNames)
  }

  /** The body of a method: converted on its own stream with the method's variable map,
      its variables declared and initialised, its statements copied, its value returned,
      and the method frame popped. */
  function ConvertBody(ctx: Context, fields: seq<string>, st: OState, body: Expr, names: seq<string>): Outcome<OState>
  {
    var conv :- BoogieExprConverter.Convert(BodyEnv(ctx, fields, names), BodyStart(st.symbols), body);
    FinishBody(st, conv.0, conv.1)
  }

  /** After the conversion of a body, with its value and the converter's final state. */
  function FinishBody(st: OState, v: BoogieValue.Value, xs: BoogieExprConverter.XState): Outcome<OState>
  {
    var decls := BoogieExprConverter.DeclaredVars(xs);
    var result :- BoogieValue.GetValue(v, BoogieType.Opaque);
    Success(st.(symbols := BoogieExprConverter.Outer(xs.symbols), checkpoints := st.checkpoints + xs.checkpoints,
                out := TailOut(st.out, decls, Order.Sorted(decls.Keys), xs.out.text, result)))
  }

  /** The body conversion, given the expression converter's outcome. */
  lemma BodyUnfolds(ctx: Context, fields: seq<string>, st: OState, body: Expr, names: seq<string>,
                    c: Outcome<(BoogieValue.Value, BoogieExprConverter.XState)>)
    requires c == BoogieExprConverter.Convert(BodyEnv(ctx, fields, names), BodyStart(st.symbols), body)
    ensures c.Failure? ==> ConvertBody(ctx, fields, st, body, names) == Failure(c.error)
    ensures c.Success? ==> ConvertBody(ctx, fields, st, body, names) == FinishBody(st, c.value.0, c.value.1)
  {
  }

  /** Converting a body pops the method frame, whatever the body assigns, and records
      the checkpoints the body labels; the closing brace is one tab out. */
  lemma BodyEffect(ctx: Context, fields: seq<string>, st: OState, body: Expr, names: seq<string>)
    requires ConvertBody(ctx, fields, st, body, names).Success?
    ensures var r := ConvertBody(ctx, fields, st, body, names).value;
      r.symbols == BoogieExprConverter.Outer(st.symbols) &&
      r.checkpoints.Keys == st.checkpoints.Keys + BoogieExprConverter.NamesOf(body).labels &&
      r.out.tab == st.out.tab - 1 && r.out.newLine &&
      r.constants == st.constants && r.fields == st.fields &&
      r.methodSigs == st.methodSigs && r.methodDefs == st.methodDefs
  {
    var c := BoogieExprConverter.Convert(BodyEnv(ctx, fields, names), BodyStart(st.symbols), body);
    BodyUnfolds(ctx, fields, st, body, names, c);
    FinishEffect(st, c.value.0, c.value.1);
  }

  /** What finishing a body keeps and changes, given the converter's final state. */
  lemma FinishEffect(st: OState, v: BoogieValue.Value, xs: BoogieExprConverter.XState)
    requires FinishBody(st, v, xs).Success?
    ensures var r := FinishBody(st, v, xs).value;
      r.symbols == BoogieExprConverter.Outer(xs.symbols) &&
      r.checkpoints.Keys == st.checkpoints.Keys + xs.checkpoints.Keys &&
      r.out.tab == st.out.tab - 1 && r.out.newLine &&
      r.constants == st.constants && r.fields == st.fields &&
      r.methodSigs == st.methodSigs && r.methodDefs == st.methodDefs
  {
  }

  /** The effect of caseAMethodDef: the method frame is pushed and popped in balance, the
      method's definition and its parameter names are recorded under its name, the
      checkpoints of its body are added, and its name and definition are registered in
      the constants. */
  lemma {:induction false} MethodEffect(ctx: Context, st: OState, m: MethodDef)
    requires ConvertMethod(ctx, st, m).Success?
    ensures var r := ConvertMethod(ctx, st, m).value;
      m.body.Some? &&
      r.symbols == st.symbols && r.fields == st.fields &&
      r.methodDefs == st.methodDefs[m.name := m] &&
      r.methodSigs == st.methodSigs[m.name := FormalParamsCollector.Ids(m.formals)] &&
      r.checkpoints.Keys == st.checkpoints.Keys + BoogieExprConverter.NamesOf(m.body.value).labels &&
      r.out.tab == st.out.tab && r.out.newLine &&
      m.name in r.constants.methodNames &&
      BoogieConstants.MethodProcId(r.constants, BoogieConstants.MethodKey(m)).Some? &&
      (BoogieConstants.Valid(st.constants) ==> BoogieConstants.Valid(r.constants))
  {
    var ps := Params(m).value;
    var st2 := WithParams(ctx, EnterMethod(st, m), m, ps);
    EnterEffect(ctx, st, m);
    ParamNames(m);
    BodyEffect(ctx, st.fields, st2, m.body.value, ps.paramNames);
    EnterKeepsConstants(st.constants, m);
  }

  /** A method's definition and parameter names are recorded under its name. */
  lemma MethodRecorded(ctx: Context, st: OState, m: MethodDef)
    requires ConvertMethod(ctx, st, m).Success?
    ensures var r := ConvertMethod(ctx, st, m).value;
      r.methodDefs.Keys == st.methodDefs.Keys + {m.name} &&
      r.methodSigs.Keys == st.methodSigs.Keys + {m.name}
  {
    MethodEffect(ctx, st, m);
  }

  /** Up to the body, the method frame is on top of the table. */
  lemma EnterEffect(ctx: Context, st: OState, m: MethodDef)
    requires Params(m).Success?
    ensures var st2 := WithParams(ctx, EnterMethod(st, m), m, Params(m).value);
      st2.symbols != [] && BoogieExprConverter.Outer(st2.symbols) == st.symbols &&
      st2.fields == st.fields && st2.checkpoints == st.checkpoints &&
      st2.methodDefs == st.methodDefs[m.name := m] &&
      st2.methodSigs == st.methodSigs[m.name := Params(m).value.paramNames] &&
      st2.out.tab == st.out.tab + 1 && st2.out.newLine &&
      st2.constants == BoogieConstants.AddMethodValue(BoogieConstants.AddMethodNameValue(st.constants, m.name),
                                                      BoogieConstants.MethodKey(m))
  {
  }

  /** The signature of a method is its parameter names, in order. */
  lemma ParamNames(m: MethodDef)
    requires Params(m).Success?
    ensures Params(m).value.paramNames == FormalParamsCollector.Ids(m.formals)
  {
    BoogieFormalParamsConverter.ConvertCollectsNames(BoogieFormalParamsConverter.NameAndType, Types.Opaque,
                                                     BoogieFormalParamsConverter.State(Start(), false, [], 0), m.formals, 0);
    assert m.formals[0..] == m.formals;
  }

  lemma EnterKeepsConstants(c: BoogieConstants.Constants, m: MethodDef)
    ensures var c' := BoogieConstants.AddMethodValue(BoogieConstants.AddMethodNameValue(c, m.name), BoogieConstants.MethodKey(m));
      m.name in c'.methodNames &&
      BoogieConstants.MethodProcId(c', BoogieConstants.MethodKey(m)).Some? &&
      (BoogieConstants.Valid(c) ==> BoogieConstants.Valid(c'))
  {
    var c1 := BoogieConstants.AddMethodNameValue(c, m.name);
    assert BoogieConstants.Valid(c) ==> BoogieConstants.Valid(c1);
    if BoogieConstants.Valid(c1) {
      BoogieConstants.AddMethodSpec(c1, BoogieConstants.MethodKey(m));
    }
  }

  /** caseAMethodList: the methods in order, from the i-th on. */
  function ConvertMethods(ctx: Context, st: OState, ms: seq<MethodDef>, i: nat): Outcome<OState>
    requires i <= |ms|
    decreases |ms| - i
  {
    if i == |ms| then Success(st)
    else
      var st1 :- ConvertMethod(ctx, st, ms[i]);
      ConvertMethods(ctx, st1, ms, i + 1)
  }

  /** The names of methods i.. . */
  function MethodNames(ms: seq<MethodDef>, i: nat): set<string>
    requires i <= |ms|
    decreases |ms| - i
  {
    if i == |ms| then {} else {ms[i].name} + MethodNames(ms, i + 1)
  }

  /** The checkpoint labels in the bodies of methods i.. . */
  function MethodLabels(ms: seq<MethodDef>, i: nat): set<string>
    requires i <= |ms|
    decreases |ms| - i
  {
    if i == |ms| then {}
    else (if ms[i].body.Some? then BoogieExprConverter.NamesOf(ms[i].body.value).labels else {}) + MethodLabels(ms, i + 1)
  }

  /** The signatures and the definitions agree: the same method names, each definition
      under its own name, and each signature the parameter names of its definition. */
  predicate SigsMatchDefs(st: OState)
  {
    st.methodSigs.Keys == st.methodDefs.Keys &&
    forall k :: k in st.methodDefs ==>
      st.methodDefs[k].name == k && st.methodSigs[k] == FormalParamsCollector.Ids(st.methodDefs[k].formals)
  }

  /** Recording a method under its name, with its parameter names as its signature,
      keeps the signatures and the definitions in agreement. */
  lemma SigsStep(st: OState, m: MethodDef, r: OState)
    requires SigsMatchDefs(st)
    requires r.methodDefs == st.methodDefs[m.name := m]
    requires r.methodSigs == st.methodSigs[m.name := FormalParamsCollector.Ids(m.formals)]
    ensures SigsMatchDefs(r)
  {
  }

  /** Converting a list of methods keeps the symbol table and the fields, and the
      stream's tab level. */
  lemma {:induction false} MethodsKeep(ctx: Context, st: OState, ms: seq<MethodDef>, i: nat)
    requires i <= |ms|
    requires ConvertMethods(ctx, st, ms, i).Success?
    ensures var r := ConvertMethods(ctx, st, ms, i).value;
      r.symbols == st.symbols && r.fields == st.fields &&
      r.out.tab == st.out.tab && (st.out.newLine || i < |ms| ==> r.out.newLine) &&
      (BoogieConstants.Valid(st.constants) ==> BoogieConstants.Valid(r.constants))
    decreases |ms| - i
  {
    if i < |ms| {
      var st1 := ConvertMethod(ctx, st, ms[i]).value;
      MethodEffect(ctx, st, ms[i]);
      MethodsKeep(ctx, st1, ms, i + 1);
    }
  }

  /** Converting a list of methods adds every method name to the signatures and the
      definitions. */
  lemma {:induction false} MethodsNamed(ctx: Context, st: OState, ms: seq<MethodDef>, i: nat)
    requires i <= |ms|
    requires ConvertMethods(ctx, st, ms, i).Success?
    ensures var r := ConvertMethods(ctx, st, ms, i).value;
      r.methodDefs.Keys == st.methodDefs.Keys + MethodNames(ms, i) &&
      r.methodSigs.Keys == st.methodSigs.Keys + MethodNames(ms, i)
    decreases |ms| - i
  {
    if i < |ms| {
      var st1 := ConvertMethod(ctx, st, ms[i]).value;
      MethodRecorded(ctx, st, ms[i]);
      MethodsNamed(ctx, st1, ms, i + 1);
      assert ConvertMethods(ctx, st, ms, i) == ConvertMethods(ctx, st1, ms, i + 1);
      assert MethodNames(ms, i) == {ms[i].name} + MethodNames(ms, i + 1);
    }
  }

  /** ... keeps the signatures and the definitions in agreement ... */
  lemma {:induction false} MethodsAgree(ctx: Context, st: OState, ms: seq<MethodDef>, i: nat)
    requires i <= |ms|
    requires ConvertMethods(ctx, st, ms, i).Success?
    requires SigsMatchDefs(st)
    ensures SigsMatchDefs(ConvertMethods(ctx, st, ms, i).value)
    decreases |ms| - i
  {
    if i < |ms| {
      var st1 := ConvertMethod(ctx, st, ms[i]).value;
      MethodEffect(ctx, st, ms[i]);
      SigsStep(st, ms[i], st1);
      MethodsAgree(ctx, st1, ms, i + 1);
    }
  }

  /** ... and records every checkpoint label of the bodies. */
  lemma {:induction false} MethodsLabelled(ctx: Context, st: OState, ms: seq<MethodDef>, i: nat)
    requires i <= |ms|
    requires ConvertMethods(ctx, st, ms, i).Success?
    ensures ConvertMethods(ctx, st, ms, i).value.checkpoints.Keys == st.checkpoints.Keys + MethodLabels(ms, i)
    decreases |ms| - i
  {
    if i < |ms| {
      var st1 := ConvertMethod(ctx, st, ms[i]).value;
      MethodEffect(ctx, st, ms[i]);
      MethodsLabelled(ctx, st1, ms, i + 1);
    }
  }

  /** caseANewExpr: the field frame around the methods, then the constructor. */
  function ConvertNew(ctx: Context, st: OState, e: Expr): (r: Outcome<OState>)
    ensures !e.New? ==> r == CannotConvert(e)
    ensures r.Success? ==> e.New? && r.value.fields == st.fields + FieldIds(e.params) && r.value.symbols == st.symbols
    ensures r.Success? ==> r.value.methodDefs.Keys == st.methodDefs.Keys + MethodNames(e.methods, 0)
    ensures r.Success? && SigsMatchDefs(st) ==> SigsMatchDefs(r.value)
    ensures r.Success? ==> r.value.checkpoints.Keys == st.checkpoints.Keys + MethodLabels(e.methods, 0)
    ensures r.Success? ==> r.value.out.tab == st.out.tab && r.value.out.newLine
    ensures r.Success? && BoogieConstants.Valid(st.constants) ==> BoogieConstants.Valid(r.value.constants)
  {
    if !e.New? then CannotConvert(e)
    else
      var ids := FieldIds(e.params);
      var st1 := EnterFields(st, ids);
      var st2 :- ConvertMethods(ctx, st1, e.methods, 0);
      MethodsKeep(ctx, st1, e.methods, 0);
      MethodsNamed(ctx, st1, e.methods, 0);
      assert SigsMatchDefs(st) ==> SigsMatchDefs(st2) by {
        if SigsMatchDefs(st) {
          MethodsAgree(ctx, st1, e.methods, 0);
        }
      }
      MethodsLabelled(ctx, st1, e.methods, 0);
      Success(st2.(symbols := BoogieExprConverter.Outer(st2.symbols), out := ConstructorOut(st2.out, ctx.name, ctx.classId, ids)))
  }

  /** Inside a method a field is read from the attribute the constructor stored it
      under, unless a parameter of the method has the same name. */
  lemma FieldReadWhereStored(fields: seq<string>, names: seq<string>, obj: string, mem: string, classId: string, i: nat)
    requires i < |fields| && fields[i] !in names
    ensures var key := "[" + BoogieUtil.FieldPrefix + fields[i] + "]";
      VarMap(fields, names)[fields[i]] == "objectMemory" + key &&
      ConstructorBody(obj, mem, classId, fields)[4 + i] == mem + key + " := " + fields[i] + ";"
  {
    ConstructorStoresFields(obj, mem, classId, fields, i);
  }

  // ---------------------------------------------------------------------------
  // The converter
  // ---------------------------------------------------------------------------

  class ObjectConverter {
    const ctx: Context
    const constants: BoogieConstants.BoogieConstants
    const out: PrettyPrintStream
    var symbols: SymbolTable.Scopes
    var fields: seq<string>
    var methodSigs: map<string, seq<string>>
    var methodDefs: map<string, MethodDef>
    var checkpoints: map<string, bool>

    function State(): OState
      reads this, constants, out
    {
      OState(symbols, constants.Value(), out.Value(), fields, methodSigs, methodDefs, checkpoints)
    }

    constructor (ctx: Context, symbols: SymbolTable.Scopes, constants: BoogieConstants.BoogieConstants, out: PrettyPrintStream)
      ensures this.ctx == ctx && this.constants == constants && this.out == out
      ensures State() == OState(symbols, constants.Value(), out.Value(), [], map[], map[], map[])
    {
      this.ctx := ctx;
      this.constants := constants;
      this.out := out;
      this.symbols := symbols;
      fields := [];
      methodSigs := map[];
      methodDefs := map[];
      checkpoints := map[];
    }

    /** println(l), tracked as one more line of a batch. */
    method Line(ghost start: Printer, ghost lines: seq<string>, l: string)
      requires out.Value() == PrintLines(start, lines)
      modifies out
      ensures out.Value() == PrintLines(start, lines + [l])
    {
      out.PrintlnText(l);
      PrintLinesSnoc(start, lines, l);
    }

    /** The dispatch of apply: only a `new` expression is handled. */
    method Apply(e: Expr) returns (r: Outcome<()>)
      modifies this, constants, out
      ensures var c := ConvertNew(ctx, old(State()), e);
        (r.Success? <==> c.Success?) && (c.Success? ==> State() == c.value) &&
        (c.Failure? ==> r.Failure? && r.error == c.error)
    {
      if !e.New? {
        return Failure(CannotConvert(e).error);
      }
      r := ApplyNew(e);
    }

    /** caseANewExpr. */
    method ApplyNew(e: Expr) returns (r: Outcome<()>)
      requires e.New?
      modifies this, constants, out
      ensures var c := ConvertNew(ctx, old(State()), e);
        (r.Success? <==> c.Success?) && (c.Success? ==> State() == c.value) &&
        (c.Failure? ==> r.Failure? && r.error == c.error)
    {
      EnterFieldFrame(e.params);
      ghost var st1 := State();
      r := ApplyMethods(e.methods);
      if r.Failure? {
        return;
      }
      MethodsKeep(ctx, st1, e.methods, 0);
      symbols := symbols[1..];
      EmitConstructor(FieldIds(e.params));
    }

    /** The field frame: push it, then declare and record each constructor parameter. */
    method EnterFieldFrame(ps: seq<NewParam>)
      modifies this`symbols, this`fields
      ensures State() == EnterFields(old(State()), FieldIds(ps))
    {
      ghost var ids := FieldIds(ps);
      ghost var fields0 := fields;
      symbols := [SymbolTable.FrameValue(SymbolTable.Mutable, map[])] + symbols;
      ghost var sc0 := symbols;
      for i := 0 to |ps|
        invariant symbols == SymbolTable.AddEach(sc0, ids[..i], Opaques(i))
        invariant fields == fields0 + ids[..i]
      {
        SymbolTable.AddEachSnoc(sc0, ids[..i], Opaques(i), ids[i], Some(Types.Opaque));
        assert ids[..i + 1] == ids[..i] + [ids[i]];
        assert Opaques(i + 1) == Opaques(i) + [Some(Types.Opaque)];
        symbols := SymbolTable.AddValue(symbols, ps[i].id, Some(Types.Opaque));
        fields := fields + [ps[i].id];
      }
      assert ids[..|ps|] == ids;
    }

    /** The constructor procedure, printed after the frame is popped. */
    method EmitConstructor(ids: seq<string>)
      modifies out
      ensures out.Value() == ConstructorOut(old(out.Value()), ctx.name, ctx.classId, ids)
    {
      EmitNewHeader(ids);
      out.PushTab();
      var (obj, temps) := BoogieExprConverter.NewTemporary(map[], "Object");
      var (mem, _) := BoogieExprConverter.NewTemporary(temps, "Memory");
      EmitConstructorBody(obj, mem, ids);
      out.PopTab();
      out.PrintlnText("}");
      out.Println();
    }

    /** The constructor's first line, its parameters printed one by one. */
    method EmitNewHeader(ids: seq<string>)
      modifies out
      ensures out.Value() == PrintLine(old(out.Value()), NewHeader(ctx.name, ids))
    {
      ghost var p0 := out.Value();
      var open := ProcedurePrefix + ctx.name + ".new(";
      out.Print(open);
      for i := 0 to |ids|
        invariant out.Value() == Printed(p0, open + TypedParams(ids[..i]))
      {
        ghost var head := open + TypedParams(ids[..i]);
        if i > 0 {
          out.Print(",");
          PrintTwice(p0, head, ",");
        } else {
          assert head + "" == head;
        }
        ghost var sep := if i > 0 then "," else "";
        out.Print(ids[i] + ":T");
        PrintTwice(p0, head + sep, ids[i] + ":T");
        TypedParamsStep(open, ids, i);
      }
      assert ids[..|ids|] == ids;
      PrintTwice(p0, open + TypedParams(ids), NewReturns);
      out.PrintlnText(NewReturns);
    }

    /** The constructor's body lines. */
    method EmitConstructorBody(obj: string, mem: string, ids: seq<string>)
      modifies out
      ensures out.Value() == PrintLines(old(out.Value()), ConstructorBody(obj, mem, ctx.classId, ids))
    {
      ghost var q := out.Value();
      ghost var lines: seq<string> := [];
      Line(q, lines, "var " + obj + ":Object;");
      lines := lines + ["var " + obj + ":Object;"];
      Line(q, lines, "var " + mem + ":Memory;");
      lines := lines + ["var " + mem + ":Memory;"];
      Line(q, lines, obj + " := emptyObject;");
      lines := lines + [obj + " := emptyObject;"];
      Line(q, lines, mem + " := toMemory(defaultValue);");
      lines := lines + [mem + " := toMemory(defaultValue);"];
      ghost var init := lines;
      assert init + FieldStores(mem, ids[..0]) == init;
      for i := 0 to |ids|
        invariant out.Value() == PrintLines(q, init + FieldStores(mem, ids[..i]))
      {
        Line(q, init + FieldStores(mem, ids[..i]), FieldStore(mem, ids[i]));
        assert init + FieldStores(mem, ids[..i]) + [FieldStore(mem, ids[i])] == init + FieldStores(mem, ids[..i + 1]);
      }
      assert ids[..|ids|] == ids;
      lines := init + FieldStores(mem, ids);
      Line(q, lines, obj + "[objectMemoryAttr] := " + mem + ";");
      lines := lines + [obj + "[objectMemoryAttr] := " + mem + ";"];
      Line(q, lines, obj + "[objectClassIdAttr] := " + ctx.classId + ";");
      lines := lines + [obj + "[objectClassIdAttr] := " + ctx.classId + ";"];
      Line(q, lines, "internal.result := " + obj + ";");
      lines := lines + ["internal.result := " + obj + ";"];
      assert lines == ConstructorBody(obj, mem, ctx.classId, ids);
    }

    /** caseAMethodList. */
    method ApplyMethods(ms: seq<MethodDef>) returns (r: Outcome<()>)
      modifies this, constants, out
      ensures var c := ConvertMethods(ctx, old(State()), ms, 0);
        (r.Success? <==> c.Success?) && (c.Success? ==> State() == c.value) &&
        (c.Failure? ==> r.Failure? && r.error == c.error)
    {
      var i := 0;
      while i < |ms|
        invariant i <= |ms|
        invariant ConvertMethods(ctx, State(), ms, i) == ConvertMethods(ctx, old(State()), ms, 0)
        decreases |ms| - i
      {
        r := ApplyMethod(ms[i]);
        if r.Failure? {
          return;
        }
        i := i + 1;
      }
      return Success(());
    }

    /** The variable map of a method body: getScopedVars, then each parameter as itself. */
    method BodyVarMap(names: seq<string>) returns (varMap: map<string, string>)
      ensures varMap == VarMap(fields, names)
    {
      varMap := BoogieUtil.GetScopedVars(fields, "objectMemory");
      for i := 0 to |names|
        invariant varMap == BoogieUtil.ScopedVars(fields, "objectMemory") + map x | x in names[..i] :: x
      {
        assert names[..i + 1] == names[..i] + [names[i]];
        varMap := varMap[names[i] := names[i]];
      }
      assert names[..|names|] == names;
    }

    /** caseAMethodDef. */
    method ApplyMethod(m: MethodDef) returns (r: Outcome<()>)
      modifies this, constants, out
      ensures var c := ConvertMethod(ctx, old(State()), m);
        (r.Success? <==> c.Success?) && (c.Success? ==> State() == c.value) &&
        (c.Failure? ==> r.Failure? && r.error == c.error)
    {
      ghost var st0 := State();
      Enter(m);
      var paramsOut := new PrettyPrintStream();
      var paramsConverter := new BoogieFormalParamsConverter.FormalParamsConverter(paramsOut, Types.Opaque, BoogieFormalParamsConverter.NameAndType, false);
      var pr := paramsConverter.Convert(m.formals);
      if pr.Failure? {
        return Failure(pr.error);
      }
      ghost var ps := paramsConverter.Value();
      assert ps == Params(m).value;
      DeclareParams(m, paramsConverter.paramNames, paramsOut.text);
      assert State() == WithParams(ctx, EnterMethod(st0, m), m, ps);
      if m.body.None? {
        return NullPointer();
      }
      r := ApplyBody(m.body.value, paramsConverter.paramNames);
    }

    /** The method frame, the definition and the constants. */
    method Enter(m: MethodDef)
      modifies this, constants
      ensures State() == EnterMethod(old(State()), m)
    {
      symbols := [SymbolTable.FrameValue(SymbolTable.Mutable, map[])] + symbols;
      methodDefs := methodDefs[m.name := m];
      constants.AddMethodName(m.name);
      constants.AddMethod(BoogieConstants.MethodKey(m));
    }

    /** The signature, the parameters in the method frame, and the header. */
    method DeclareParams(m: MethodDef, names: seq<string>, paramsText: string)
      requires symbols != []
      modifies this, out
      ensures State() == old(State()).(methodSigs := old(methodSigs)[m.name := names],
                                        symbols := SymbolTable.AddEach(old(symbols), names, Opaques(|names|)),
                                        out := HeaderOut(old(out.Value()), ctx.name + "." + m.name, names != [], paramsText))
    {
      methodSigs := methodSigs[m.name := names];
      symbols := SymbolTable.AddEach(symbols, names, Opaques(|names|));
      EmitHeader(ctx.name + "." + m.name, names != [], paramsText);
    }

    /** The body of caseAMethodDef, from the expression converter on. */
    method ApplyBody(body: Expr, names: seq<string>) returns (r: Outcome<()>)
      modifies this, out
      ensures var c := ConvertBody(ctx, old(fields), old(State()), body, names);
        (r.Success? <==> c.Success?) && (c.Success? ==> State() == c.value) &&
        (c.Failure? ==> r.Failure? && r.error == c.error)
    {
      var varMap := BodyVarMap(names);
      ghost var env := BodyEnv(ctx, fields, names);
      ghost var c := BoogieExprConverter.Convert(env, BodyStart(symbols), body);
      BodyUnfolds(ctx, fields, State(), body, names, c);
      var converter := new BoogieExprConverter.ExprConverter(BoogieExprConverter.XEnv(varMap, ctx.functions, ctx.methods, ctx.classes),
                                                            symbols, map[], PushedTab(Start()));
      assert converter.env == env && converter.State() == BodyStart(symbols);
      var a := converter.Apply(body);
      if a.Failure? {
        return Failure(a.error);
      }
      r := Finish(converter);
    }

    /** What follows the conversion of a body: the converter's table and checkpoints
        taken over, the rest of the procedure written, and the method frame popped. */
    method Finish(converter: BoogieExprConverter.ExprConverter) returns (r: Outcome<()>)
      requires |converter.values| == 1
      modifies this, out
      ensures var c := FinishBody(old(State()), old(converter.values[0]), old(converter.State()));
        (r.Success? <==> c.Success?) && (c.Success? ==> State() == c.value) &&
        (c.Failure? ==> r.Failure? && r.error == c.error)
    {
      symbols := converter.symbols;
      checkpoints := checkpoints + converter.checkpoints;
      var decls := converter.GetDeclaredVars();
      var result := converter.GetValueAs(BoogieType.Opaque);
      if result.Failure? {
        return Failure(result.error);
      }
      EmitTail(decls, converter.out.text, result.value);
      symbols := BoogieExprConverter.Outer(symbols);
      r := Success(());
    }

    /** The procedure header of a method. */
    method EmitHeader(procName: string, hasParams: bool, paramsText: string)
      modifies out
      ensures out.Value() == HeaderOut(old(out.Value()), procName, hasParams, paramsText)
    {
      ghost var p0 := out.Value();
      var open := ProcedurePrefix + procName + ProcParamsStart;
      out.Print(open);
      ghost var comma := if hasParams then "," else "";
      if hasParams {
        out.Print(",");
        PrintTwice(p0, open, comma);
      } else {
        assert open + comma == open;
      }
      out.Print(paramsText);
      PrintTwice(p0, open + comma, paramsText);
      out.PrintlnText(ProcReturns);
      PrintTwice(p0, open + comma + paramsText, ProcReturns);
      assert out.Value() == PrintLine(p0, ProcHeader(procName, hasParams, paramsText));
      ghost var q := out.Value();
      for i := 0 to |ProcClauses|
        invariant out.Value() == PrintLines(q, ProcClauses[..i])
      {
        Line(q, ProcClauses[..i], ProcClauses[i]);
        assert ProcClauses[..i] + [ProcClauses[i]] == ProcClauses[..i + 1];
      }
      assert ProcClauses[..|ProcClauses|] == ProcClauses;
      out.PushTab();
    }

    /** The declarations, initialisations, body and result of a method. */
    method EmitTail(decls: map<string, string>, bodyText: string, result: string)
      modifies out
      ensures out.Value() == TailOut(old(out.Value()), decls, Order.Sorted(decls.Keys), bodyText, result)
    {
      var ks := Order.Sorted(decls.Keys);
      EmitDecls(decls, ks);
      out.Println();
      EmitInits(decls, ks);
      out.PrintlnText(bodyText);
      out.PrintlnText("internal.result := " + result + ";");
      out.Println();
      out.PopTab();
      out.PrintlnText("}");
      out.Println();
    }

    /** One declaration per variable, in the order given. */
    method EmitDecls(decls: map<string, string>, ks: seq<string>)
      requires forall k :: k in ks ==> k in decls
      modifies out
      ensures out.Value() == PrintLines(old(out.Value()), VarDecls(decls, ks))
    {
      ghost var p0 := out.Value();
      for i := 0 to |ks|
        invariant out.Value() == PrintLines(p0, VarDecls(decls, ks[..i]))
      {
        Line(p0, VarDecls(decls, ks[..i]), VarDecl(decls, ks[i]));
        assert VarDecls(decls, ks[..i]) + [VarDecl(decls, ks[i])] == VarDecls(decls, ks[..i + 1]);
      }
      assert ks[..|ks|] == ks;
    }

    /** The default-value initialisation of each variable of type T. */
    method EmitInits(decls: map<string, string>, ks: seq<string>)
      requires forall k :: k in ks ==> k in decls
      modifies out
      ensures out.Value() == PrintLines(old(out.Value()), Inits(decls, ks))
    {
      ghost var p0 := out.Value();
      for i := 0 to |ks|
        invariant out.Value() == PrintLines(p0, Inits(decls, ks[..i]))
      {
        assert ks[..i + 1][..i] == ks[..i] && ks[..i + 1][i] == ks[i];
        if decls[ks[i]] == "T" {
          Line(p0, Inits(decls, ks[..i]), ks[i] + DefaultInit);
          assert Inits(decls, ks[..i + 1]) == Inits(decls, ks[..i]) + [ks[i] + DefaultInit];
        } else {
          assert Inits(decls, ks[..i + 1]) == Inits(decls, ks[..i]) + [];
          assert Inits(decls, ks[..i]) + [] == Inits(decls, ks[..i]);
        }
      }
      assert ks[..|ks|] == ks;
    }
  }
}
