/** BoogieConstants: the unique constants a translation declares: one per field, per
    checkpoint label and per `env` expression: and the procedure ids of the methods of
    the objects translated so far. Declarations are written to the output stream the
    first time a name is added and never again. */
module BoogieConstants {
  import opened Wrappers
  import opened Syntax
  import opened PrettyPrint
  import BoogieUtil
  import Fresh

  datatype Constants = Constants(fields: set<string>, checkpoints: set<string>,
                                 methods: map<string, string>, methodNames: set<string>,
                                 exprs: map<string, string>, methodProcIdCtr: nat)

  const ExprPrefix := "internal.expr"
  const MethodProcIdPrefix := "internal.methodProcId.m"

  function Empty(): (c: Constants)
    ensures Valid(c)
  {
    Constants({}, {}, map[], {}, map[], 0)
  }

  /** What every table built from the empty one satisfies: no two expressions share a
      constant, no two methods share a procedure id, and the method ids are exactly the
      counter values used so far. */
  predicate Valid(c: Constants)
  {
    (forall e1, e2 :: e1 in c.exprs && e2 in c.exprs && e1 != e2 ==> c.exprs[e1] != c.exprs[e2]) &&
    (forall d1, d2 :: d1 in c.methods && d2 in c.methods && d1 != d2 ==> c.methods[d1] != c.methods[d2]) &&
    (forall d :: d in c.methods ==> c.methods[d] in Fresh.NamesBelow(MethodProcIdPrefix, c.methodProcIdCtr))
  }

  // ---------------------------------------------------------------------------
  // Fields
  // ---------------------------------------------------------------------------

  function FieldDecl(f: string): string
  {
    "const unique " + BoogieUtil.FieldPrefix + f + " : Bitstring;"
  }

  function AddField(c: Constants, f: string, p: Printer): (Constants, Printer)
  {
    if f in c.fields then (c, p) else (c.(fields := c.fields + {f}), PrintLine(p, FieldDecl(f)))
  }

  /** addFields: the fields in the order given, each declared when it is new. */
  function AddFieldsValue(c: Constants, fs: seq<string>, p: Printer): (Constants, Printer)
    decreases |fs|
  {
    if fs == [] then (c, p)
    else
      var (c1, p1) := AddField(c, fs[0], p);
      AddFieldsValue(c1, fs[1..], p1)
  }

  /** The fields a list adds to those already declared: first occurrences only. */
  function NewFields(seen: set<string>, fs: seq<string>): seq<string>
    decreases |fs|
  {
    if fs == [] then []
    else if fs[0] in seen then NewFields(seen, fs[1..])
    else [fs[0]] + NewFields(seen + {fs[0]}, fs[1..])
  }

  function FieldDecls(fs: seq<string>): (r: seq<string>)
    ensures |r| == |fs| && forall i :: 0 <= i < |fs| ==> r[i] == FieldDecl(fs[i])
  {
    seq(|fs|, i requires 0 <= i < |fs| => FieldDecl(fs[i]))
  }

  /** The new fields are exactly the listed ones not yet declared, each once. */
  lemma {:induction false} NewFieldsExact(seen: set<string>, fs: seq<string>)
    ensures forall f :: f in NewFields(seen, fs) <==> f in fs && f !in seen
    ensures forall i, j :: 0 <= i < j < |NewFields(seen, fs)| ==> NewFields(seen, fs)[i] != NewFields(seen, fs)[j]
    decreases |fs|
  {
    if fs != [] {
      if fs[0] in seen {
        NewFieldsExact(seen, fs[1..]);
        assert forall f :: f in fs <==> f == fs[0] || f in fs[1..];
      } else {
        var rest := NewFields(seen + {fs[0]}, fs[1..]);
        NewFieldsExact(seen + {fs[0]}, fs[1..]);
        assert forall f :: f in fs <==> f == fs[0] || f in fs[1..];
        assert NewFields(seen, fs) == [fs[0]] + rest;
        forall i, j | 0 <= i < j < |NewFields(seen, fs)|
          ensures NewFields(seen, fs)[i] != NewFields(seen, fs)[j]
        {
          if i == 0 {
            assert NewFields(seen, fs)[j] == rest[j - 1];
          } else {
            assert NewFields(seen, fs)[i] == rest[i - 1] && NewFields(seen, fs)[j] == rest[j - 1];
          }
        }
      }
    }
  }

  /** addFields declares, in order, every listed field that was not declared before and
      no other, and records all the listed fields; nothing else in the table changes. */
  lemma {:induction false} AddFieldsDeclaresNew(c: Constants, fs: seq<string>, p: Printer)
    ensures AddFieldsValue(c, fs, p).0 == c.(fields := c.fields + set f | f in fs)
    ensures AddFieldsValue(c, fs, p).1 == PrintLines(p, FieldDecls(NewFields(c.fields, fs)))
    decreases |fs|
  {
    if fs != [] {
      var (c1, p1) := AddField(c, fs[0], p);
      AddFieldsDeclaresNew(c1, fs[1..], p1);
      assert (set f | f in fs) == {fs[0]} + (set f | f in fs[1..]);
      assert c1.fields + (set f | f in fs[1..]) == c.fields + (set f | f in fs);
      if fs[0] !in c.fields {
        var decls := FieldDecls(NewFields(c.fields, fs));
        assert decls[0] == FieldDecl(fs[0]);
        assert decls[1..] == FieldDecls(NewFields(c1.fields, fs[1..]));
      }
    }
  }

  // ---------------------------------------------------------------------------
  // Checkpoints and method names
  // ---------------------------------------------------------------------------

  function CheckpointDecl(name: string): string
  {
    "const unique " + BoogieUtil.ToCheckpointId(name) + " : CheckpointId;"
  }

  /** addCheckpoint: each label's constant is declared once. */
  function AddCheckpointValue(c: Constants, name: string, p: Printer): (r: (Constants, Printer))
    ensures r.0 == c.(checkpoints := c.checkpoints + {name})
    ensures name in c.checkpoints ==> r.1 == p
    ensures name !in c.checkpoints ==> r.1 == PrintLine(p, CheckpointDecl(name))
  {
    if name in c.checkpoints then (c, p)
    else (c.(checkpoints := c.checkpoints + {name}), PrintLine(p, CheckpointDecl(name)))
  }

  /** Adding a label a second time writes nothing. */
  lemma AddCheckpointTwice(c: Constants, name: string, p: Printer, q: Printer)
    ensures AddCheckpointValue(AddCheckpointValue(c, name, p).0, name, q) == (AddCheckpointValue(c, name, p).0, q)
  {
  }

  /** addMethodName: recorded, nothing written. */
  function AddMethodNameValue(c: Constants, name: string): (r: Constants)
    ensures r.methodNames == c.methodNames + {name}
    ensures r.(methodNames := c.methodNames) == c
  {
    if name in c.methodNames then c else c.(methodNames := c.methodNames + {name})
  }

  // ---------------------------------------------------------------------------
  // Expression constants
  // ---------------------------------------------------------------------------

  function ExprDecl(id: string): string
  {
    "const unique " + id + ":Expr;"
  }

  /** addExpr: the expression's constant, declared and recorded the first time under
      the first "internal.expr<i>" not already a constant. */
  function AddExprValue(c: Constants, e: string, p: Printer): (string, Constants, Printer)
  {
    if e in c.exprs then (c.exprs[e], c, p)
    else
      var id := Fresh.FreshName(ExprPrefix, c.exprs.Values);
      (id, c.(exprs := c.exprs[e := id]), PrintLine(p, ExprDecl(id)))
  }

  /** A known expression keeps its constant and writes nothing; a new one gets a
      constant no other expression has, and only that entry is added. Distinct
      expressions therefore always get distinct constants. */
  lemma AddExprSpec(c: Constants, e: string, p: Printer)
    requires Valid(c)
    ensures var (id, c', p') := AddExprValue(c, e, p);
      e in c'.exprs && c'.exprs[e] == id && Valid(c') &&
      (e in c.exprs ==> c' == c && p' == p) &&
      (e !in c.exprs ==> (id !in c.exprs.Values && c'.exprs == c.exprs[e := id] &&
                           c'.(exprs := c.exprs) == c && p' == PrintLine(p, ExprDecl(id))))
  {
    if e !in c.exprs {
      var id := Fresh.FreshName(ExprPrefix, c.exprs.Values);
      Fresh.FreshNameSmallest(ExprPrefix, c.exprs.Values, 0);
      var c' := c.(exprs := c.exprs[e := id]);
      forall e1, e2 | e1 in c'.exprs && e2 in c'.exprs && e1 != e2
        ensures c'.exprs[e1] != c'.exprs[e2]
      {
        if e1 == e {
          assert c'.exprs[e2] == c.exprs[e2] && c.exprs[e2] in c.exprs.Values;
        } else if e2 == e {
          assert c'.exprs[e1] == c.exprs[e1] && c.exprs[e1] in c.exprs.Values;
        }
      }
    }
  }

  // ---------------------------------------------------------------------------
  // Method procedure ids
  // ---------------------------------------------------------------------------

  /** getMethodRef. */
  function MethodRef(name: string): (r: string)
  {
    "internal.attribute.method." + name
  }

  lemma MethodRefInjective(a: string, b: string)
    ensures MethodRef(a) == MethodRef(b) <==> a == b
  {
    if MethodRef(a) == MethodRef(b) {
      assert a == MethodRef(a)[|"internal.attribute.method."|..];
      assert b == MethodRef(b)[|"internal.attribute.method."|..];
    }
  }

  /** The text a method definition is registered under: its trimmed rendering. */
  function MethodKey(m: MethodDef): string
  {
    TrimmedText(RenderMethods([m]))
  }

  /** addMethod: a new definition gets "internal.methodProcId.m<counter>" and the
      counter moves on; a known one changes nothing. */
  function AddMethodValue(c: Constants, def: string): Constants
  {
    if def in c.methods then c
    else c.(methods := c.methods[def := Fresh.Name(MethodProcIdPrefix, c.methodProcIdCtr)],
            methodProcIdCtr := c.methodProcIdCtr + 1)
  }

  /** getMethodProcId, null for a definition never added. */
  function MethodProcId(c: Constants, def: string): (r: Option<string>)
    ensures r.Some? <==> def in c.methods
    ensures r.Some? ==> r.value == c.methods[def]
  {
    if def in c.methods then Some(c.methods[def]) else None
  }

  /** After addMethod the definition has an id; the id is the counter's value when the
      definition is new, and no other definition has it. */
  lemma AddMethodSpec(c: Constants, def: string)
    requires Valid(c)
    ensures Valid(AddMethodValue(c, def))
    ensures MethodProcId(AddMethodValue(c, def), def).Some?
    ensures def !in c.methods ==> MethodProcId(AddMethodValue(c, def), def) == Some(Fresh.Name(MethodProcIdPrefix, c.methodProcIdCtr))
    ensures forall d :: d != def ==> MethodProcId(AddMethodValue(c, def), d) == MethodProcId(c, d)
  {
    if def !in c.methods {
      var n := c.methodProcIdCtr;
      var c' := AddMethodValue(c, def);
      Fresh.NamesBelowCard(MethodProcIdPrefix, n);
      Fresh.NamesBelowCard(MethodProcIdPrefix, n + 1);
      assert Fresh.NamesBelow(MethodProcIdPrefix, n) <= Fresh.NamesBelow(MethodProcIdPrefix, n + 1);
      forall d1, d2 | d1 in c'.methods && d2 in c'.methods && d1 != d2
        ensures c'.methods[d1] != c'.methods[d2]
      {
        if d1 == def {
          assert c'.methods[d2] in Fresh.NamesBelow(MethodProcIdPrefix, n);
        } else if d2 == def {
          assert c'.methods[d1] in Fresh.NamesBelow(MethodProcIdPrefix, n);
        }
      }
    }
  }

  class BoogieConstants {
    var fields: set<string>
    var checkpoints: set<string>
    var methods: map<string, string>
    var methodNames: set<string>
    var exprs: map<string, string>
    var methodProcIdCtr: nat

    function Value(): Constants
      reads this
    {
      Constants(fields, checkpoints, methods, methodNames, exprs, methodProcIdCtr)
    }

    constructor ()
      ensures Value() == Empty()
    {
      fields := {};
      checkpoints := {};
      methods := map[];
      methodNames := {};
      exprs := map[];
      methodProcIdCtr := 0;
    }

    /** The loop of addFields. */
    method AddFields(newFields: seq<string>, out: PrettyPrintStream)
      modifies this, out
      ensures (Value(), out.Value()) == AddFieldsValue(old(Value()), newFields, old(out.Value()))
    {
      for i := 0 to |newFields|
        invariant AddFieldsValue(Value(), newFields[i..], out.Value()) == AddFieldsValue(old(Value()), newFields, old(out.Value()))
      {
        assert newFields[i..][1..] == newFields[i + 1..];
        var f := newFields[i];
        if f !in fields {
          out.PrintlnText(FieldDecl(f));
          fields := fields + {f};
        }
      }
    }

    method AddCheckpoint(name: string, out: PrettyPrintStream)
      modifies this, out
      ensures (Value(), out.Value()) == AddCheckpointValue(old(Value()), name, old(out.Value()))
    {
      if name !in checkpoints {
        out.PrintlnText(CheckpointDecl(name));
        checkpoints := checkpoints + {name};
      }
    }

    method AddMethodName(name: string)
      modifies this
      ensures Value() == AddMethodNameValue(old(Value()), name)
    {
      if name !in methodNames {
        methodNames := methodNames + {name};
      }
    }

    method AddExpr(e: string, out: PrettyPrintStream) returns (id: string)
      modifies this, out
      ensures (id, Value(), out.Value()) == AddExprValue(old(Value()), e, old(out.Value()))
    {
      if e in exprs {
        return exprs[e];
      }
      id := BoogieUtil.FreshExprConstId(exprs.Values);
      exprs := exprs[e := id];
      out.PrintlnText(ExprDecl(id));
    }

    method AddMethod(def: string)
      modifies this
      ensures Value() == AddMethodValue(old(Value()), def)
    {
      if def !in methods {
        var procId := Fresh.Name(MethodProcIdPrefix, methodProcIdCtr);
        methodProcIdCtr := methodProcIdCtr + 1;
        methods := methods[def := procId];
      }
    }

    function GetMethodProcId(def: string): (r: Option<string>)
      reads this
      ensures r == MethodProcId(Value(), def)
    {
      if def in methods then Some(methods[def]) else None
    }
  }
}
