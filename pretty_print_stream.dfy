/** PrettyPrintStream: an output stream that indents each line by two spaces per tab
    level. The stream's contents are modelled as the text written so far. */
module PrettyPrint {
  /** The state of a stream: the tab level, whether the next write starts a line, and
      the text written so far. */
  datatype Printer = Printer(tab: int, newLine: bool, text: string)

  /** A fresh stream: no indentation, at the start of a line, nothing written. */
  function Start(): (p: Printer)
    ensures p.tab == 0 && p.newLine && p.text == ""
  {
    Printer(0, true, "")
  }

  /** The indentation of one line at a tab level: two spaces per level, nothing for a
      level of zero or below. */
  function Indent(tab: int): (s: string)
    ensures |s| == if tab > 0 then 2 * tab else 0
    decreases tab
  {
    if tab <= 0 then "" else Indent(tab - 1) + "  "
  }

  /** print(x): indent first when at the start of a line. */
  function Printed(p: Printer, x: string): (r: Printer)
    ensures r.tab == p.tab && !r.newLine
    ensures |p.text| <= |r.text| && r.text[..|p.text|] == p.text
  {
    Printer(p.tab, false, (if p.newLine && p.tab > 0 then p.text + Indent(p.tab) else p.text) + x)
  }

  /** println(): end the line. */
  function Newline(p: Printer): (r: Printer)
    ensures r.tab == p.tab && r.newLine && r.text == p.text + "\n"
  {
    Printer(p.tab, true, p.text + "\n")
  }

  /** println(x). */
  function PrintLine(p: Printer, x: string): (r: Printer)
    ensures r.tab == p.tab && r.newLine
  {
    Newline(Printed(p, x))
  }

  function PushedTab(p: Printer): (r: Printer)
    ensures r.tab == p.tab + 1 && r.newLine == p.newLine && r.text == p.text
  {
    p.(tab := p.tab + 1)
  }

  function PoppedTab(p: Printer): (r: Printer)
    ensures r.tab == p.tab - 1 && r.newLine == p.newLine && r.text == p.text
  {
    p.(tab := p.tab - 1)
  }

  /** A line printed from the start of a line is its indentation, the text and a line
      break; printed in the middle of a line it only continues that line. */
  lemma PrintLineText(p: Printer, x: string)
    ensures p.newLine ==> PrintLine(p, x).text == p.text + Indent(p.tab) + x + "\n"
    ensures !p.newLine ==> PrintLine(p, x).text == p.text + x + "\n"
  {
  }

  /** Only the first write of a line is indented: two prints in a row write what one
      print of the concatenation writes. */
  lemma PrintTwice(p: Printer, x: string, y: string)
    ensures Printed(Printed(p, x), y) == Printed(p, x + y)
  {
    var ind := if p.newLine then Indent(p.tab) else "";
    assert p.text + ind + x + y == p.text + ind + (x + y);
  }

  /** A popTab undoes a pushTab, in either order; the tab level has no lower bound, and
      below zero a line is not indented at all. */
  lemma TabsBalance(p: Printer)
    ensures PoppedTab(PushedTab(p)) == p && PushedTab(PoppedTab(p)) == p
    ensures PoppedTab(Start()).tab == -1 && Indent(PoppedTab(Start()).tab) == ""
  {
  }

  /** The printed lines, each indented at one level. */
  function Lines(tab: int, xs: seq<string>): string
    decreases |xs|
  {
    if xs == [] then "" else Indent(tab) + xs[0] + "\n" + Lines(tab, xs[1..])
  }

  function PrintLines(p: Printer, xs: seq<string>): (r: Printer)
    ensures r.tab == p.tab && r.newLine == (p.newLine || xs != [])
    decreases |xs|
  {
    if xs == [] then p else PrintLines(PrintLine(p, xs[0]), xs[1..])
  }

  /** Printing whole lines from the start of a line appends each, indented at the
      current level, and leaves the stream at the start of a line. */
  lemma {:induction false} PrintLinesText(p: Printer, xs: seq<string>)
    requires p.newLine
    ensures PrintLines(p, xs) == Printer(p.tab, true, p.text + Lines(p.tab, xs))
    decreases |xs|
  {
    if xs != [] {
      var q := PrintLine(p, xs[0]);
      PrintLineText(p, xs[0]);
      PrintLinesText(q, xs[1..]);
      assert q.text + Lines(p.tab, xs[1..]) == p.text + Lines(p.tab, xs);
    }
  }

  /** Printing one more line after a batch is printing the longer batch. */
  lemma {:induction false} PrintLinesSnoc(p: Printer, xs: seq<string>, x: string)
    ensures PrintLines(p, xs + [x]) == PrintLine(PrintLines(p, xs), x)
    decreases |xs|
  {
    if xs == [] {
      assert [] + [x] == [x] && [x][1..] == [];
    } else {
      assert (xs + [x])[0] == xs[0] && (xs + [x])[1..] == xs[1..] + [x];
      PrintLinesSnoc(PrintLine(p, xs[0]), xs[1..], x);
    }
  }

  /** Printing two batches is printing their concatenation. */
  lemma {:induction false} PrintLinesAppend(p: Printer, xs: seq<string>, ys: seq<string>)
    ensures PrintLines(p, xs + ys) == PrintLines(PrintLines(p, xs), ys)
    decreases |xs|
  {
    if xs != [] {
      assert (xs + ys)[0] == xs[0] && (xs + ys)[1..] == xs[1..] + ys;
      PrintLinesAppend(PrintLine(p, xs[0]), xs[1..], ys);
    } else {
      assert xs + ys == ys;
    }
  }

  class PrettyPrintStream {
    var tab: int
    var newLine: bool
    var text: string

    function Value(): Printer
      reads this
    {
      Printer(tab, newLine, text)
    }

    constructor ()
      ensures Value() == Start()
    {
      tab := 0;
      newLine := true;
      text := "";
    }

    method PushTab()
      modifies this
      ensures Value() == PushedTab(old(Value()))
    {
      tab := tab + 1;
    }

    method PopTab()
      modifies this
      ensures Value() == PoppedTab(old(Value()))
    {
      tab := tab - 1;
    }

    method Println()
      modifies this
      ensures Value() == Newline(old(Value()))
    {
      text := text + "\n";
      newLine := true;
    }

    method PrintlnText(x: string)
      modifies this
      ensures Value() == PrintLine(old(Value()), x)
    {
      Print(x);
      Println();
    }

    /** println of each line, in order. */
    method PrintlnAll(lines: seq<string>)
      modifies this
      ensures Value() == PrintLines(old(Value()), lines)
    {
      ghost var p0 := Value();
      for i := 0 to |lines|
        invariant Value() == PrintLines(p0, lines[..i])
      {
        PrintlnText(lines[i]);
        PrintLinesSnoc(p0, lines[..i], lines[i]);
        assert lines[..i + 1] == lines[..i] + [lines[i]];
      }
      assert lines[..|lines|] == lines;
    }

    /** The indentation loop of print. */
    method Print(x: string)
      modifies this
      ensures Value() == Printed(old(Value()), x)
    {
      if newLine {
        var i := 0;
        while i < tab
          invariant 0 <= i <= (if tab > 0 then tab else 0)
          invariant text == old(text) + Indent(i) && tab == old(tab) && newLine
        {
          text := text + "  ";
          i := i + 1;
        }
        assert Indent(i) == Indent(tab);
      }
      newLine := false;
      text := text + x;
    }
  }
}
