/** BoogieFormalParamsConverter: writes a formal parameter list in one of four Boogie
    forms and collects the parameter names. A comma is written before every parameter but
    the first, and before the first too when the converter is asked to start with one. */
module BoogieFormalParamsConverter {
  import opened Wrappers
  import opened Syntax
  import Types
  import opened BoogieTypes
  import opened PrettyPrint
  import BoogieUtil
  import IdentifierAndTypeExtractor
  import FormalParamsCollector
  import Fresh

  /** The four output forms: `name: type` on one line, or one line per parameter with
      the type, `a<position>:type`, or `a<position>`. */
  datatype Mode = NameAndType | TypeOnly | PositionalAndType | PositionalOnly

  predicate Positional(mode: Mode)
  {
    mode.PositionalAndType? || mode.PositionalOnly?
  }

  /** What one parameter is written as. */
  function Entry(mode: Mode, position: nat, name: string, ty: string): string
  {
    match mode
    case NameAndType => name + ": " + ty
    case TypeOnly => ty
    case PositionalAndType => "a" + Fresh.NatToString(position) + ":" + ty
    case PositionalOnly => "a" + Fresh.NatToString(position)
  }

  /** Only the name-and-type form stays on the current line. */
  function Terminator(mode: Mode): string
  {
    if mode.NameAndType? then "" else "\n"
  }

  function Emit(mode: Mode, out: Printer, s: string): Printer
  {
    if mode.NameAndType? then Printed(out, s) else PrintLine(out, s)
  }

  /** The converter's state: the stream, the pending leading comma, the names so far
      and the next position. */
  datatype State = State(out: Printer, firstComma: bool, paramNames: seq<string>, position: nat)

  /** The Boogie type of a parameter: its annotation's, or the default. */
  function TypeString(t: Option<Types.Type>, default: Types.Type): string
  {
    BoogieString(BoogieUtil.ToBoogieTypeOr(t, default))
  }

  /** inAFormalParam, once the parameter's name and type are read. */
  function Step(mode: Mode, default: Types.Type, st: State, name: string, t: Option<Types.Type>): (r: State)
    ensures r.paramNames == st.paramNames + [name] && !r.firstComma && r.out.tab == st.out.tab
    ensures r.position == if Positional(mode) then st.position + 1 else st.position
  {
    var out := if st.firstComma then Printed(st.out, ", ") else st.out;
    State(Emit(mode, out, Entry(mode, st.position, name, TypeString(t, default))), false, st.paramNames + [name],
          if Positional(mode) then st.position + 1 else st.position)
  }

  /** inAFormalParam. */
  function InParam(mode: Mode, default: Types.Type, st: State, f: FormalParam): (r: Outcome<State>)
    ensures r.Success? <==> IdentifierAndTypeExtractor.Extract(f).Success?
    ensures r.Success? ==> r.value.paramNames == st.paramNames + [f.id]
  {
    var ext := IdentifierAndTypeExtractor.Extract(f);
    if ext.Failure? then Failure(ext.error) else Success(Step(mode, default, st, ext.value.0, ext.value.1))
  }

  /** Parameter i: inAFormalParamsTl writes ", " before every parameter after the
      first, then inAFormalParam. */
  function ParamStep(mode: Mode, default: Types.Type, st: State, fs: seq<FormalParam>, i: nat): (r: Outcome<State>)
    requires i < |fs|
    ensures r.Success? <==> IdentifierAndTypeExtractor.Extract(fs[i]).Success?
    ensures r.Success? ==> r.value.paramNames == st.paramNames + [fs[i].id]
  {
    InParam(mode, default, if i > 0 then st.(out := Printed(st.out, ", ")) else st, fs[i])
  }

  /** The walk from parameter i on. */
  function ConvertFrom(mode: Mode, default: Types.Type, st: State, fs: seq<FormalParam>, i: nat): Outcome<State>
    requires i <= |fs|
    decreases |fs| - i
  {
    if i == |fs| then Success(st)
    else
      var st2 :- ParamStep(mode, default, st, fs, i);
      ConvertFrom(mode, default, st2, fs, i + 1)
  }

  function Converted(mode: Mode, default: Types.Type, st: State, fs: seq<FormalParam>): Outcome<State>
  {
    ConvertFrom(mode, default, st, fs, 0)
  }

  /** Every parameter from i on has a supported annotation or none. */
  predicate SupportedFrom(fs: seq<FormalParam>, i: nat)
  {
    forall j :: i <= j < |fs| ==> IdentifierAndTypeExtractor.Extract(fs[j]).Success?
  }

  /** The walk succeeds exactly when every remaining annotation is supported. */
  lemma {:induction false} ConvertSucceeds(mode: Mode, default: Types.Type, st: State, fs: seq<FormalParam>, i: nat)
    requires i <= |fs|
    ensures ConvertFrom(mode, default, st, fs, i).Success? <==> SupportedFrom(fs, i)
    decreases |fs| - i
  {
    if i < |fs| {
      var r := ParamStep(mode, default, st, fs, i);
      SupportedStep(fs, i);
      if r.Success? {
        ConvertSucceeds(mode, default, r.value, fs, i + 1);
        assert ConvertFrom(mode, default, st, fs, i) == ConvertFrom(mode, default, r.value, fs, i + 1);
      } else {
        assert ConvertFrom(mode, default, st, fs, i).Failure?;
      }
    }
  }

  lemma SupportedStep(fs: seq<FormalParam>, i: nat)
    requires i < |fs|
    ensures SupportedFrom(fs, i) <==> IdentifierAndTypeExtractor.Extract(fs[i]).Success? && SupportedFrom(fs, i + 1)
  {
  }

  /** What one parameter adds to a stream that does not indent: the comma, if one is
      due, the entry, and a line break unless the form stays on one line. */
  function Piece(mode: Mode, comma: bool, entry: string): string
  {
    var e := if comma then ", " + entry else entry;
    if mode.NameAndType? then e else e + "\n"
  }

  /** The text of parameters i.. as written on a stream that does not indent, a comma
      being due before the first of them when `lead` holds. */
  function ParamText(mode: Mode, default: Types.Type, fs: seq<FormalParam>, i: nat, position: nat, lead: bool): string
    requires i <= |fs| && SupportedFrom(fs, i)
    decreases |fs| - i
  {
    if i == |fs| then ""
    else
      var ext := IdentifierAndTypeExtractor.Extract(fs[i]).value;
      Piece(mode, lead || i > 0, Entry(mode, position, ext.0, TypeString(ext.1, default)))
      + ParamText(mode, default, fs, i + 1, if Positional(mode) then position + 1 else position, false)
  }

  /** Writing a piece appends it. */
  lemma PieceAppended(mode: Mode, comma: bool, a: string, entry: string)
    ensures var b := if comma then a + ", " else a;
      (if mode.NameAndType? then b + entry else b + entry + "\n") == a + Piece(mode, comma, entry)
  {
    if comma {
      assert a + ", " + entry == a + (", " + entry);
      assert a + ", " + entry + "\n" == a + (", " + entry + "\n");
    } else {
      assert a + entry + "\n" == a + (entry + "\n");
    }
  }

  /** One parameter on a stream that does not indent. */
  lemma StepText(mode: Mode, default: Types.Type, st: State, fs: seq<FormalParam>, i: nat)
    requires i < |fs| && st.out.tab <= 0 && (i > 0 ==> !st.firstComma)
    requires IdentifierAndTypeExtractor.Extract(fs[i]).Success?
    ensures ParamStep(mode, default, st, fs, i).Success?
    ensures var st2 := ParamStep(mode, default, st, fs, i).value;
      var ext := IdentifierAndTypeExtractor.Extract(fs[i]).value;
      st2.out.tab == st.out.tab && !st2.firstComma &&
      st2.position == (if Positional(mode) then st.position + 1 else st.position) &&
      st2.out.text == st.out.text + Piece(mode, st.firstComma || i > 0, Entry(mode, st.position, ext.0, TypeString(ext.1, default)))
  {
    var ext := IdentifierAndTypeExtractor.Extract(fs[i]).value;
    PieceAppended(mode, st.firstComma || i > 0, st.out.text, Entry(mode, st.position, ext.0, TypeString(ext.1, default)));
  }

  lemma StepShape(mode: Mode, default: Types.Type, st: State, fs: seq<FormalParam>, i: nat)
    requires i < |fs| && st.out.tab <= 0 && (i > 0 ==> !st.firstComma) && SupportedFrom(fs, i)
    ensures ParamStep(mode, default, st, fs, i).Success?
    ensures var st2 := ParamStep(mode, default, st, fs, i).value;
      st2.out.tab == st.out.tab && !st2.firstComma && SupportedFrom(fs, i + 1) &&
      st2.position == (if Positional(mode) then st.position + 1 else st.position)
  {
  }

  /** Gluing one parameter's text to the text of the rest. */
  lemma Glue(a: string, p: string, rest: string)
    ensures (a + p) + rest == a + (p + rest)
  {
  }

  /** On a stream that does not indent, a walk over supported parameters keeps the tab
      level, numbers the positional forms from the starting position and clears the
      pending comma once a parameter is written. */
  lemma {:induction false} ConvertShape(mode: Mode, default: Types.Type, st: State, fs: seq<FormalParam>, i: nat)
    requires i <= |fs| && st.out.tab <= 0 && (i > 0 ==> !st.firstComma) && SupportedFrom(fs, i)
    ensures ConvertFrom(mode, default, st, fs, i).Success?
    ensures var r := ConvertFrom(mode, default, st, fs, i).value;
      r.out.tab == st.out.tab &&
      r.position == (if Positional(mode) then st.position + |fs| - i else st.position) &&
      r.firstComma == (st.firstComma && i == |fs|)
    decreases |fs| - i
  {
    if i < |fs| {
      StepShape(mode, default, st, fs, i);
      var st2 := ParamStep(mode, default, st, fs, i).value;
      ConvertShape(mode, default, st2, fs, i + 1);
      assert ConvertFrom(mode, default, st, fs, i) == ConvertFrom(mode, default, st2, fs, i + 1);
    }
  }

  /** ... and writes the pending leading comma, if any, and then each parameter in
      order, separated by ", ". */
  lemma {:induction false} ConvertText(mode: Mode, default: Types.Type, st: State, fs: seq<FormalParam>, i: nat)
    requires i <= |fs| && st.out.tab <= 0 && (i > 0 ==> !st.firstComma) && SupportedFrom(fs, i)
    ensures ConvertFrom(mode, default, st, fs, i).Success?
    ensures ConvertFrom(mode, default, st, fs, i).value.out.text == st.out.text + ParamText(mode, default, fs, i, st.position, st.firstComma)
    decreases |fs| - i
  {
    if i == |fs| {
      TextBase(mode, default, st, fs, i);
    } else {
      StepShape(mode, default, st, fs, i);
      var st2 := ParamStep(mode, default, st, fs, i).value;
      ConvertText(mode, default, st2, fs, i + 1);
      TextStepAfter(mode, default, st, fs, i);
    }
  }

  lemma TextBase(mode: Mode, default: Types.Type, st: State, fs: seq<FormalParam>, i: nat)
    requires i == |fs|
    ensures ConvertFrom(mode, default, st, fs, i) == Success(st)
    ensures st.out.text == st.out.text + ParamText(mode, default, fs, i, st.position, st.firstComma)
  {
    assert st.out.text + "" == st.out.text;
  }

  lemma TextStepAfter(mode: Mode, default: Types.Type, st: State, fs: seq<FormalParam>, i: nat)
    requires i < |fs| && st.out.tab <= 0 && (i > 0 ==> !st.firstComma) && SupportedFrom(fs, i)
    requires ParamStep(mode, default, st, fs, i).Success?
    requires var st2 := ParamStep(mode, default, st, fs, i).value;
      ConvertFrom(mode, default, st2, fs, i + 1).Success? &&
      ConvertFrom(mode, default, st2, fs, i + 1).value.out.text == st2.out.text + ParamText(mode, default, fs, i + 1, st2.position, false)
    ensures ConvertFrom(mode, default, st, fs, i).Success?
    ensures ConvertFrom(mode, default, st, fs, i).value.out.text == st.out.text + ParamText(mode, default, fs, i, st.position, st.firstComma)
  {
    StepText(mode, default, st, fs, i);
    TextStep(mode, default, st, fs, i);
  }

  lemma TextStep(mode: Mode, default: Types.Type, st: State, fs: seq<FormalParam>, i: nat)
    requires i < |fs| && st.out.tab <= 0 && (i > 0 ==> !st.firstComma) && SupportedFrom(fs, i)
    requires ParamStep(mode, default, st, fs, i).Success?
    requires var st2 := ParamStep(mode, default, st, fs, i).value;
      var ext := IdentifierAndTypeExtractor.Extract(fs[i]).value;
      st2.out.text == st.out.text + Piece(mode, st.firstComma || i > 0, Entry(mode, st.position, ext.0, TypeString(ext.1, default))) &&
      ConvertFrom(mode, default, st2, fs, i + 1).Success? &&
      ConvertFrom(mode, default, st2, fs, i + 1).value.out.text == st2.out.text + ParamText(mode, default, fs, i + 1, st2.position, false)
    ensures ConvertFrom(mode, default, st, fs, i).Success?
    ensures ConvertFrom(mode, default, st, fs, i).value.out.text == st.out.text + ParamText(mode, default, fs, i, st.position, st.firstComma)
  {
    var st2 := ParamStep(mode, default, st, fs, i).value;
    var ext := IdentifierAndTypeExtractor.Extract(fs[i]).value;
    Glue(st.out.text, Piece(mode, st.firstComma || i > 0, Entry(mode, st.position, ext.0, TypeString(ext.1, default))),
         ParamText(mode, default, fs, i + 1, st2.position, false));
  }

  /** Whatever the stream, the names collected are the parameter ids, in order. */
  lemma {:induction false} ConvertCollectsNames(mode: Mode, default: Types.Type, st: State, fs: seq<FormalParam>, i: nat)
    requires i <= |fs|
    requires ConvertFrom(mode, default, st, fs, i).Success?
    ensures ConvertFrom(mode, default, st, fs, i).value.paramNames == st.paramNames + FormalParamsCollector.Ids(fs[i..])
    decreases |fs| - i
  {
    if i == |fs| {
      assert fs[i..] == [];
    } else {
      var st2 := ParamStep(mode, default, st, fs, i).value;
      ConvertCollectsNames(mode, default, st2, fs, i + 1);
      NamesStep(mode, default, st, fs, i);
    }
  }

  lemma NamesStep(mode: Mode, default: Types.Type, st: State, fs: seq<FormalParam>, i: nat)
    requires i < |fs|
    requires ConvertFrom(mode, default, st, fs, i).Success?
    requires ConvertFrom(mode, default, ParamStep(mode, default, st, fs, i).value, fs, i + 1).value.paramNames ==
      ParamStep(mode, default, st, fs, i).value.paramNames + FormalParamsCollector.Ids(fs[i + 1..])
    ensures ConvertFrom(mode, default, st, fs, i).value.paramNames == st.paramNames + FormalParamsCollector.Ids(fs[i..])
  {
    IdsStep(fs, i);
  }

  lemma IdsStep(fs: seq<FormalParam>, i: nat)
    requires i < |fs|
    ensures FormalParamsCollector.Ids(fs[i..]) == [fs[i].id] + FormalParamsCollector.Ids(fs[i + 1..])
  {
    assert fs[i..][0] == fs[i] && fs[i..][1..] == fs[i + 1..];
  }

  class FormalParamsConverter {
    const out: PrettyPrintStream
    const mode: Mode
    const defaultType: Types.Type
    var firstComma: bool
    var paramNames: seq<string>
    var position: nat

    function Value(): State
      reads this, out
    {
      State(out.Value(), firstComma, paramNames, position)
    }

    constructor (out: PrettyPrintStream, defaultType: Types.Type, mode: Mode, firstComma: bool)
      ensures this.out == out && this.mode == mode && this.defaultType == defaultType
      ensures this.firstComma == firstComma && paramNames == [] && position == 0
    {
      this.out := out;
      this.defaultType := defaultType;
      this.mode := mode;
      this.firstComma := firstComma;
      paramNames := [];
      position := 0;
    }

    /** The depth-first walk over a formal parameter list. */
    method Convert(fs: seq<FormalParam>) returns (r: Outcome<()>)
      modifies this, out
      ensures r.Success? <==> Converted(mode, defaultType, old(Value()), fs).Success?
      ensures r.Success? ==> Value() == Converted(mode, defaultType, old(Value()), fs).value
      ensures r.Failure? ==> r.error == Converted(mode, defaultType, old(Value()), fs).error
    {
      var i := 0;
      while i < |fs|
        invariant i <= |fs|
        invariant ConvertFrom(mode, defaultType, Value(), fs, i) == ConvertFrom(mode, defaultType, old(Value()), fs, 0)
        decreases |fs| - i
      {
        var step := VisitParam(fs, i);
        if step.Failure? {
          return step;
        }
        i := i + 1;
      }
      return Success(());
    }

    /** Parameter i: the comma of inAFormalParamsTl, then inAFormalParam. */
    method VisitParam(fs: seq<FormalParam>, i: nat) returns (r: Outcome<()>)
      requires i < |fs|
      modifies this, out
      ensures r.Success? <==> ParamStep(mode, defaultType, old(Value()), fs, i).Success?
      ensures r.Success? ==> Value() == ParamStep(mode, defaultType, old(Value()), fs, i).value
      ensures r.Failure? ==> r.error == ParamStep(mode, defaultType, old(Value()), fs, i).error
    {
      var ext := IdentifierAndTypeExtractor.Extract(fs[i]);
      if i > 0 {
        out.Print(", ");
      }
      if firstComma {
        firstComma := false;
        out.Print(", ");
      }
      if ext.Failure? {
        return Failure(ext.error);
      }
      var (name, t) := ext.value;
      var entry := Entry(mode, position, name, TypeString(t, defaultType));
      if mode.NameAndType? {
        out.Print(entry);
      } else {
        out.PrintlnText(entry);
      }
      if Positional(mode) {
        position := position + 1;
      }
      paramNames := paramNames + [name];
      return Success(());
    }
  }
}
