/** The helpers of the Boogie translation: the mapping from the checker's symbol types
    to tags, the operand tag of a comparison, scoped field names, checkpoint ids, the
    reading of the verifier's output and the cache of verified programs. */
module BoogieUtil {
  import opened Wrappers
  import Types
  import opened BoogieTypes
  import opened PrettyPrint
  import Fresh

  // ---------------------------------------------------------------------------
  // Types
  // ---------------------------------------------------------------------------

  /** toBoogieType: a Map is kept in a Memory, the other symbol types have a tag of the
      same name. */
  function ToBoogieType(t: Types.Type): (r: BoogieType)
    ensures r !in {Boolean, ObjectId, Object, Heap}
  {
    match t
    case Opaque => Opaque
    case Real => Real
    case Integer => Integer
    case Bitstring => Bitstring
    case Map => Memory
    case Expr => Expr
  }

  /** The symbol type a tag stands for, where there is one. */
  function FromBoogieType(t: BoogieType): Option<Types.Type>
  {
    match t
    case Opaque => Some(Types.Opaque)
    case Real => Some(Types.Real)
    case Integer => Some(Types.Integer)
    case Bitstring => Some(Types.Bitstring)
    case Memory => Some(Types.Map)
    case Expr => Some(Types.Expr)
    case _ => None
  }

  /** The mapping is one-to-one: reading a tag back gives the symbol type it came from,
      and the tags it reaches are exactly those with a symbol type. */
  lemma ToBoogieTypeInverse(t: Types.Type, b: BoogieType)
    ensures FromBoogieType(ToBoogieType(t)) == Some(t)
    ensures FromBoogieType(b).Some? <==> b !in {Boolean, ObjectId, Object, Heap}
    ensures FromBoogieType(b).Some? ==> ToBoogieType(FromBoogieType(b).value) == b
  {
  }

  /** The one-argument toBoogieType on a missing (null) type: the switch dereferences it. */
  function ToBoogieTypeOf(t: Option<Types.Type>): (r: Outcome<BoogieType>)
    ensures r.Success? <==> t.Some?
    ensures r.Failure? ==> r == NullPointer()
    ensures r.Success? ==> r.value == ToBoogieType(t.value)
  {
    if t.None? then NullPointer() else Success(ToBoogieType(t.value))
  }

  /** The two-argument toBoogieType: a missing type falls back to the default. */
  function ToBoogieTypeOr(t: Option<Types.Type>, default: Types.Type): (r: BoogieType)
    ensures t.None? ==> r == ToBoogieType(default)
    ensures t.Some? ==> r == ToBoogieType(t.value)
  {
    if t.None? then ToBoogieType(default) else ToBoogieType(t.value)
  }

  // ---------------------------------------------------------------------------
  // Comparisons
  // ---------------------------------------------------------------------------

  predicate IsOrdering(op: string)
  {
    op == "<=" || op == ">=" || op == "<" || op == ">"
  }

  /** getInType: the tag both operands of a comparison are coerced to. "=" compares
      opaque values; "==" and "!=" compare integers when both sides are integers and
      bitstrings otherwise; an ordering compares reals when either side is real and
      integers otherwise. */
  function GetInType(op: string, left: BoogieType, right: BoogieType): (r: Outcome<BoogieType>)
    ensures r.Failure? <==> !(op in {"=", "==", "!="} || IsOrdering(op))
    ensures r.Failure? ==> r == InternalFail("unimplemented logic op: " + op)
    ensures op == "=" ==> r == Success(Opaque)
    ensures op in {"==", "!="} ==> r == Success(if left == Integer && right == Integer then Integer else Bitstring)
    ensures IsOrdering(op) ==> r == Success(if left == Real || right == Real then Real else Integer)
  {
    if op == "=" then Success(Opaque)
    else if op == "==" then Success(if left == Integer && right == Integer then Integer else Bitstring)
    else if op == "!=" then Success(if left == Integer && right == Integer then Integer else Bitstring)
    else if IsOrdering(op) then Success(if left == Real || right == Real then Real else Integer)
    else InternalFail("unimplemented logic op: " + op)
  }

  /** convertBoolOp: "=" and "==" both become Boogie's "==", the other comparisons are
      kept. */
  function ConvertBoolOp(op: string): (r: Outcome<string>)
    ensures r.Failure? ==> r == InternalFail("unimplemented logic op: " + op)
    ensures r.Success? ==> r.value == (if op == "=" then "==" else op)
  {
    if op == "==" || op == "=" then Success("==")
    else if op == "!=" then Success("!=")
    else if op == "<=" then Success("<=")
    else if op == ">=" then Success(">=")
    else if op == "<" then Success("<")
    else if op == ">" then Success(">")
    else InternalFail("unimplemented logic op: " + op)
  }

  /** The two tables cover the same operators, and the operand tag does not depend on
      which side is which. */
  lemma ComparisonTablesAgree(op: string, l: BoogieType, r: BoogieType)
    ensures ConvertBoolOp(op).Success? <==> GetInType(op, l, r).Success?
    ensures GetInType(op, l, r) == GetInType(op, r, l)
  {
  }

  // ---------------------------------------------------------------------------
  // Names
  // ---------------------------------------------------------------------------

  const FieldPrefix := "internal.attribute.field."

  /** The Boogie expression for field f in the memory map `mapName`. */
  function FieldAccess(mapName: string, f: string): string
  {
    mapName + "[" + FieldPrefix + f + "]"
  }

  /** Distinct fields of one memory map are distinct accesses. */
  lemma FieldAccessInjective(mapName: string, f: string, g: string)
    ensures FieldAccess(mapName, f) == FieldAccess(mapName, g) <==> f == g
  {
    if FieldAccess(mapName, f) == FieldAccess(mapName, g) {
      var n := |mapName + "[" + FieldPrefix|;
      assert f == FieldAccess(mapName, f)[n..|FieldAccess(mapName, f)| - 1];
      assert g == FieldAccess(mapName, g)[n..|FieldAccess(mapName, g)| - 1];
    }
  }

  /** getScopedVars as a value: every field, and nothing else, mapped to its access. */
  function ScopedVars(fields: seq<string>, mapName: string): (r: map<string, string>)
  {
    map f | f in fields :: FieldAccess(mapName, f)
  }

  /** The loop of getScopedVars. */
  method GetScopedVars(fields: seq<string>, mapName: string) returns (result: map<string, string>)
    ensures result == ScopedVars(fields, mapName)
  {
    result := map[];
    for i := 0 to |fields|
      invariant result == ScopedVars(fields[..i], mapName)
    {
      assert fields[..i + 1] == fields[..i] + [fields[i]];
      result := result[fields[i] := FieldAccess(mapName, fields[i])];
    }
    assert fields[..|fields|] == fields;
  }

  /** The scoped variables are keyed by exactly the fields and no two share an access. */
  lemma ScopedVarsExact(fields: seq<string>, mapName: string, f: string, g: string)
    ensures f in ScopedVars(fields, mapName) <==> f in fields
    ensures f in fields && g in fields && f != g ==> ScopedVars(fields, mapName)[f] != ScopedVars(fields, mapName)[g]
  {
    FieldAccessInjective(mapName, f, g);
  }

  /** toCheckpointId. */
  function ToCheckpointId(name: string): (r: string)
    ensures |r| >= |"internal.checkpointid."| && r[..|"internal.checkpointid."|] == "internal.checkpointid."
  {
    "internal.checkpointid." + name
  }

  lemma CheckpointIdInjective(a: string, b: string)
    ensures ToCheckpointId(a) == ToCheckpointId(b) <==> a == b
  {
    if ToCheckpointId(a) == ToCheckpointId(b) {
      assert a == ToCheckpointId(a)[|"internal.checkpointid."|..];
      assert b == ToCheckpointId(b)[|"internal.checkpointid."|..];
    }
  }

  /** freshExprConstId: the first "internal.expr<i>" not among the existing constants. */
  method FreshExprConstId(existing: set<string>) returns (name: string)
    ensures name == Fresh.FreshName("internal.expr", existing)
    ensures name !in existing
  {
    var i;
    name, i := Fresh.SmallestFresh("internal.expr", existing);
  }

  /** The checkpoint of the current function state, heap and object memory. */
  const CheckpointState := "emptyCheckpoint[checkpointFunctionState := functionState][checkpointHeap := heap][checkpointMemory := objectMemory];"

  /** saveCheckpoint: a comment and the update of the checkpoint map with the current
      function state, heap and object memory. */
  function SaveCheckpoint(p: Printer, name: string): (r: Printer)
    ensures r.tab == p.tab && r.newLine
  {
    PrintLines(p, ["// saving checkpoint for label " + name,
      "checkpoints[" + ToCheckpointId(name) + "] := " + CheckpointState])
  }

  // ---------------------------------------------------------------------------
  // The target-method declaration a call site needs
  // ---------------------------------------------------------------------------

  /** The argument list a<0>..a<n-1>, each written as sep + "a" + i + post. */
  function ArgList(sep: string, post: string, n: nat): string
  {
    if n == 0 then "" else ArgList(sep, post, n - 1) + sep + "a" + Fresh.NatToString(n - 1) + post
  }

  /** declareTargetMethod: four uninterpreted functions giving the heap, memory, value
      and function state after a call, and the abstract procedure whose effect they
      describe; every signature takes the n arguments of the call site. */
  function TargetMethodLines(m: string, n: nat): (r: seq<string>)
    ensures |r| == 12
    ensures r[4] == "procedure " + m + TargetProcParams + ArgList(",", ":T", n) + ") returns (r: T);"
  {
    var sig := TargetSigParams + ArgList(", ", ":T", n);
    var call := TargetCallArgs + ArgList(", ", "", n);
    ["function " + m + "#Heap" + sig + "): Heap;",
     "function " + m + "#Memory" + sig + "): Memory;",
     "function " + m + "#Value" + sig + "): T;",
     "function " + m + "#FunctionState" + sig + "): FunctionState;",
     "procedure " + m + TargetProcParams + ArgList(",", ":T", n) + ") returns (r: T);"] +
    TargetModifies +
    ["ensures heap == " + m + "#Heap" + call + ");",
     "ensures objectMemory == " + m + "#Memory" + call + ");",
     "ensures r == " + m + "#Value" + call + ");",
     "ensures functionState == " + m + "#FunctionState" + call + ");"]
  }

  const TargetSigParams := "(h: Heap, o: Memory, f : FunctionState, id : ClassId, oid : ObjectId"
  const TargetCallArgs := "(old(heap), old(objectMemory), old(functionState), internal.classId, internal.objectId"
  const TargetProcParams := "(internal.classId : ClassId, internal.objectId : ObjectId"
  const TargetModifies := ["modifies heap;", "modifies objectMemory;", "modifies functionState;"]

  const ClassIdsPreserved := "ensures (forall id:ObjectId :: objectValid(old(heap), id) ==> (objectValid(heap, id) && invokeSplit(heap, id)[targetObject][objectClassIdAttr] == invokeSplit(old(heap), id)[targetObject][objectClassIdAttr]));"

  function DeclareTargetMethod(p: Printer, m: string, n: nat): Printer
  {
    Newline(PrintLine(PrintLines(p, TargetMethodLines(m, n)), ClassIdsPreserved))
  }

  // ---------------------------------------------------------------------------
  // The verifier's output
  // ---------------------------------------------------------------------------

  const SuccessPrefix := "Boogie program verifier finished with "
  const SuccessSuffix := " verified, 0 errors"

  predicate IsDigit(c: char)
  {
    '0' <= c <= '9'
  }

  predicate AllDigits(d: string)
  {
    forall k :: 0 <= k < |d| ==> IsDigit(d[k])
  }

  /** The regular expression "Boogie program verifier finished with \d+ verified,
      0 errors$" is found in a line: the line ends with the message, with a non-empty
      count of digits in it. */
  ghost predicate Matches(line: string)
  {
    exists a: string, d: string :: |d| > 0 && AllDigits(d) && line == a + SuccessPrefix + d + SuccessSuffix
  }

  /** The length of the run of digits that ends s. */
  function TrailingDigits(s: string): (n: nat)
    ensures n <= |s|
  {
    if s == [] || !IsDigit(s[|s| - 1]) then 0 else TrailingDigits(s[..|s| - 1]) + 1
  }

  lemma {:induction false} TrailingDigitsRun(s: string)
    ensures AllDigits(s[|s| - TrailingDigits(s)..])
    ensures TrailingDigits(s) < |s| ==> !IsDigit(s[|s| - TrailingDigits(s) - 1])
  {
    if s != [] && IsDigit(s[|s| - 1]) {
      var s' := s[..|s| - 1];
      TrailingDigitsRun(s');
      var n := TrailingDigits(s');
      assert s[|s| - (n + 1)..] == s'[|s'| - n..] + [s[|s| - 1]];
    }
  }

  /** The matcher's decision for one line, without backtracking: strip the suffix, then
      the maximal run of digits before it, then look for the prefix. */
  function LineSucceeds(line: string): bool
  {
    if |line| < |SuccessSuffix| || line[|line| - |SuccessSuffix|..] != SuccessSuffix then false
    else
      var body := line[..|line| - |SuccessSuffix|];
      var n := TrailingDigits(body);
      var rest := body[..|body| - n];
      n > 0 && |rest| >= |SuccessPrefix| && rest[|rest| - |SuccessPrefix|..] == SuccessPrefix
  }

  /** The digit run before the suffix cannot reach into the prefix, because the prefix
      ends with a space. */
  lemma {:induction false} TrailingDigitsOf(a: string, d: string)
    requires AllDigits(d)
    ensures TrailingDigits(a + SuccessPrefix + d) == |d|
    decreases |d|
  {
    var s := a + SuccessPrefix + d;
    if d == [] {
      assert s == a + SuccessPrefix;
      assert SuccessPrefix[|SuccessPrefix| - 1] == ' ';
      assert s[|s| - 1] == SuccessPrefix[|SuccessPrefix| - 1];
    } else {
      var d' := d[..|d| - 1];
      assert s[|s| - 1] == d[|d| - 1];
      assert IsDigit(s[|s| - 1]);
      assert s[..|s| - 1] == a + SuccessPrefix + d';
      TrailingDigitsOf(a, d');
    }
  }

  /** The decision procedure decides the regular expression. */
  lemma LineSucceedsIffMatches(line: string)
    ensures LineSucceeds(line) <==> Matches(line)
  {
    if LineSucceeds(line) {
      SucceedsThenMatches(line);
    }
    if Matches(line) {
      MatchesThenSucceeds(line);
    }
  }

  lemma SucceedsThenMatches(line: string)
    requires LineSucceeds(line)
    ensures Matches(line)
  {
    var body := line[..|line| - |SuccessSuffix|];
    var n := TrailingDigits(body);
    var rest := body[..|body| - n];
    var a := rest[..|rest| - |SuccessPrefix|];
    var d := body[|body| - n..];
    TrailingDigitsRun(body);
    Reassembled(line, body, rest, a, d, SuccessPrefix, SuccessSuffix);
  }

  lemma MatchesThenSucceeds(line: string)
    requires Matches(line)
    ensures LineSucceeds(line)
  {
    var a: string, d: string :| |d| > 0 && AllDigits(d) && line == a + SuccessPrefix + d + SuccessSuffix;
    TrailingDigitsOf(a, d);
    Cut(a, SuccessPrefix, d, SuccessSuffix);
  }

  /** Cutting a line at the suffix, the digits and the prefix, then gluing the pieces. */
  lemma Reassembled(line: string, body: string, rest: string, a: string, d: string, p: string, x: string)
    requires |x| <= |line| && line[|line| - |x|..] == x && body == line[..|line| - |x|]
    requires |d| <= |body| && rest == body[..|body| - |d|] && d == body[|body| - |d|..]
    requires |p| <= |rest| && rest[|rest| - |p|..] == p && a == rest[..|rest| - |p|]
    ensures line == a + p + d + x
  {
    assert rest == a + p;
    assert body == rest + d;
    assert line == body + x;
  }

  /** The pieces of a + p + d + x, read back from its end. */
  lemma Cut(a: string, p: string, d: string, x: string)
    ensures var line := a + p + d + x;
      line[|line| - |x|..] == x && line[..|line| - |x|] == a + p + d &&
      (a + p + d)[..|a + p + d| - |d|] == a + p &&
      (a + p)[|a + p| - |p|..] == p
  {
    var line := a + p + d + x;
    assert line == (a + p + d) + x;
    assert a + p + d == (a + p) + d;
  }

  /** boogieOutSuccess: the line loop over the verifier's output. */
  method BoogieOutSuccess(lines: seq<string>) returns (ok: bool)
    ensures ok <==> exists i :: 0 <= i < |lines| && Matches(lines[i])
  {
    for i := 0 to |lines|
      invariant forall j :: 0 <= j < i ==> !Matches(lines[j])
    {
      LineSucceedsIffMatches(lines[i]);
      if LineSucceeds(lines[i]) {
        return true;
      }
    }
    return false;
  }

  /** A concrete verifier report is recognised; a report with errors is not. */
  lemma SuccessExamples()
    ensures LineSucceeds("Boogie program verifier finished with 12 verified, 0 errors")
    ensures !LineSucceeds("Boogie program verifier finished with 12 verified, 1 error")
  {
    var line := "Boogie program verifier finished with 12 verified, 0 errors";
    var body := line[..|line| - |SuccessSuffix|];
    assert body == SuccessPrefix + "12";
    TrailingDigitsOf("", "12");
    assert "" + SuccessPrefix + "12" == body;
    assert body[..|body| - 2] == SuccessPrefix;
  }

  // ---------------------------------------------------------------------------
  // The cache of verified programs
  // ---------------------------------------------------------------------------

  /** BoogieCache: the digests of programs already verified. The digest (SHA-384,
      Base64 encoded) is a parameter of the model. */
  class BoogieCache {
    var digests: set<string>
    const digest: string -> string

    constructor (digest: string -> string)
      ensures digests == {} && this.digest == digest
    {
      digests := {};
      this.digest := digest;
    }

    predicate Contains(program: string)
      reads this
    {
      digest(program) in digests
    }

    method AddDigest(d: string)
      modifies this
      ensures digests == old(digests) + {d}
    {
      digests := digests + {d};
    }

    /** After add(s), contains(s) holds; nothing else but programs with the same
      digest becomes contained. */
    method Add(program: string)
      modifies this
      ensures digests == old(digests) + {digest(program)}
      ensures Contains(program)
      ensures forall q :: Contains(q) <==> old(Contains(q)) || digest(q) == digest(program)
    {
      AddDigest(digest(program));
    }
  }
}
