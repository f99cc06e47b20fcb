/**
 * `fix_note_indentation`: one left-to-right pass over the lines of the
 * exported Markdown, carrying one flag `inNote`, that indents the physical
 * lines of a multi-line note which the exporter left flush left.
 */
module NoteIndentation {
  import opened Text

  /** A list item or a heading: ends any note. */
  predicate IsStructural(line: string) {
    StartsWith(line, "- ") || StartsWith(line, "#")
  }

  /** A line already indented by two spaces: a note line. */
  predicate IsIndented(line: string) {
    StartsWith(line, "  ")
  }

  /** A non-empty line that is neither structural nor starts with a space: indented exactly when a note is open. */
  predicate IsContinuation(line: string) {
    line != "" && !IsStructural(line) && !StartsWith(line, " ")
  }

  /** A line that keeps the note state as it was: blank, or a continuation. */
  predicate KeepsState(line: string) {
    line == "" || IsContinuation(line)
  }

  /** One iteration of the loop: the new `inNote` and the line emitted. */
  function Step(inNote: bool, line: string): (r: (bool, string))
    ensures r.1 == line || r.1 == "  " + line
    ensures r.1 != line <==> inNote && IsContinuation(line)
    ensures IsStructural(line) ==> !r.0
    ensures IsIndented(line) ==> r.0
  {
    IndentedIsNotStructural(line);
    if IsStructural(line) then (false, line)
    else if IsIndented(line) then (true, line)
    else if line == "" then (inNote, line)
    else if inNote && !StartsWith(line, " ") then (true, "  " + line)
    else (false, line)
  }

  /** The value of `inNote` after the loop has consumed `lines`. */
  function NoteStateAfter(lines: seq<string>): bool {
    if lines == [] then false
    else Step(NoteStateAfter(lines[..|lines| - 1]), lines[|lines| - 1]).0
  }

  /** The `result` list after the loop has consumed `lines`: one line out per line in. */
  function FixLines(lines: seq<string>): (fixed: seq<string>)
    ensures |fixed| == |lines|
  {
    if lines == [] then []
    else
      var init := lines[..|lines| - 1];
      FixLines(init) + [Step(NoteStateAfter(init), lines[|lines| - 1]).1]
  }

  /**
   * `fix_note_indentation(text)` as a function of the text: the output lines
   * hold no newline, so splitting the output gives back the fixed lines.
   */
  function FixNotes(text: string): (fixed: string)
    ensures Split(fixed) == FixLines(Split(text))
  {
    var lines := Split(text);
    FixLinesNoNewline(lines);
    SplitJoin(FixLines(lines));
    Join(FixLines(lines))
  }

  /** The Python loop, step by step. */
  method FixNoteIndentation(text: string) returns (fixed: string)
    ensures fixed == FixNotes(text)
  {
    var lines := Split(text);
    var result: seq<string> := [];
    var inNote := false;
    for i := 0 to |lines|
      invariant result == FixLines(lines[..i])
      invariant inNote == NoteStateAfter(lines[..i])
    {
      var line := lines[i];
      assert lines[..i + 1][..i] == lines[..i];
      if StartsWith(line, "- ") || StartsWith(line, "#") {
        inNote := false;
        result := result + [line];
      } else if StartsWith(line, "  ") {
        inNote := true;
        result := result + [line];
      } else if line == "" {
        result := result + [line];
      } else if inNote && !StartsWith(line, " ") {
        result := result + ["  " + line];
      } else {
        inNote := false;
        result := result + [line];
      }
    }
    assert lines[..|lines|] == lines;
    fixed := Join(result);
  }

  /** Line `i` of the output is line `i` of the input put through one step from the state its predecessors left. */
  lemma {:induction false} FixLinesAt(lines: seq<string>, i: nat)
    requires i < |lines|
    ensures FixLines(lines)[i] == Step(NoteStateAfter(lines[..i]), lines[i]).1
  {
    var init := lines[..|lines| - 1];
    if i < |lines| - 1 {
      FixLinesAt(init, i);
      assert init[..i] == lines[..i];
    } else {
      assert init == lines[..i];
    }
  }

  /** Each output line is its input line, unchanged or indented by two spaces. */
  lemma FixLinesShape(lines: seq<string>)
    ensures forall i :: 0 <= i < |lines| ==> FixLines(lines)[i] == lines[i] || FixLines(lines)[i] == "  " + lines[i]
  {
    forall i | 0 <= i < |lines| ensures FixLines(lines)[i] == lines[i] || FixLines(lines)[i] == "  " + lines[i] {
      FixLinesAt(lines, i);
    }
  }

  /**
   * The state rules, one case per branch of the loop: what the next line
   * emits and what it does to `inNote`.
   */
  lemma StateRules(lines: seq<string>, line: string)
    ensures var before := NoteStateAfter(lines);
            var after := NoteStateAfter(lines + [line]);
            var out := FixLines(lines + [line])[|lines|];
            && (IsStructural(line) ==> out == line && !after)
            && (IsIndented(line) ==> out == line && after)
            && (line == "" ==> out == line && after == before)
            && (IsContinuation(line) ==> out == (if before then "  " + line else line) && after == before)
            && (StartsWith(line, " ") && !IsIndented(line) ==> out == line && !after)
  {
    assert (lines + [line])[..|lines|] == lines;
    IndentedIsNotStructural(line);
  }

  lemma IndentedIsNotStructural(line: string)
    ensures IsIndented(line) ==> !IsStructural(line) && StartsWith(line, " ")
  {
    if IsIndented(line) {
      assert line[0] == ' ';
    }
  }

  /** A blank line or a continuation leaves the flag as it was. */
  lemma KeepsStateStep(inNote: bool, line: string)
    requires KeepsState(line)
    ensures Step(inNote, line).0 == inNote
  {
    IndentedIsNotStructural(line);
  }

  /**
   * A note is open after `lines` when some earlier line was indented and
   * every line after it was blank or a continuation.
   */
  ghost predicate NoteOpen(lines: seq<string>) {
    exists j :: 0 <= j < |lines| && IsIndented(lines[j]) &&
      forall k :: j < k < |lines| ==> KeepsState(lines[k])
  }

  lemma NoteOpenAfterIndented(init: seq<string>, last: string)
    requires IsIndented(last)
    ensures NoteOpen(init + [last])
  {
    var lines := init + [last];
    assert IsIndented(lines[|lines| - 1]);
  }

  lemma NoteOpenAfterKeeping(init: seq<string>, last: string)
    requires KeepsState(last)
    ensures NoteOpen(init + [last]) <==> NoteOpen(init)
  {
    var lines := init + [last];
    if NoteOpen(init) {
      var j :| 0 <= j < |init| && IsIndented(init[j]) &&
        forall k :: j < k < |init| ==> KeepsState(init[k]);
      assert IsIndented(lines[j]);
      forall k | j < k < |lines| ensures KeepsState(lines[k]) {
        if k < |init| { assert lines[k] == init[k]; }
      }
    }
    if NoteOpen(lines) {
      var j :| 0 <= j < |lines| && IsIndented(lines[j]) &&
        forall k :: j < k < |lines| ==> KeepsState(lines[k]);
      IndentedIsNotStructural(last);
      assert j < |init|;
      assert IsIndented(init[j]);
      forall k | j < k < |init| ensures KeepsState(init[k]) {
        assert init[k] == lines[k];
      }
    }
  }

  lemma NoteClosedAfterOther(init: seq<string>, last: string)
    requires !IsIndented(last) && !KeepsState(last)
    ensures !NoteOpen(init + [last])
  {
    var lines := init + [last];
    var n := |lines| - 1;
    assert !KeepsState(lines[n]) && !IsIndented(lines[n]);
  }

  /** The flag the loop carries is exactly "a note is open". */
  lemma {:induction false} NoteStateIsNoteOpen(lines: seq<string>)
    ensures NoteStateAfter(lines) <==> NoteOpen(lines)
  {
    if lines != [] {
      var init, last := lines[..|lines| - 1], lines[|lines| - 1];
      NoteStateIsNoteOpen(init);
      assert lines == init + [last];
      IndentedIsNotStructural(last);
      if IsIndented(last) {
        NoteOpenAfterIndented(init, last);
      } else if KeepsState(last) {
        NoteOpenAfterKeeping(init, last);
      } else {
        NoteClosedAfterOther(init, last);
      }
    }
  }

  /**
   * The output, stated without the loop: a line is indented by two spaces
   * exactly when it is a continuation and a note is open before it.
   */
  lemma FixLinesExplained(lines: seq<string>, i: nat)
    requires i < |lines|
    ensures FixLines(lines)[i] == if IsContinuation(lines[i]) && NoteOpen(lines[..i]) then "  " + lines[i] else lines[i]
  {
    var before, line := NoteStateAfter(lines[..i]), lines[i];
    FixLinesAt(lines, i);
    NoteStateIsNoteOpen(lines[..i]);
    IndentedIsNotStructural(line);
    assert FixLines(lines)[i] == Step(before, line).1;
    if IsContinuation(line) {
      assert Step(before, line).1 == if before then "  " + line else line;
    } else {
      assert Step(before, line).1 == line;
    }
  }

  /** Running the pass over its own output reproduces the same state. */
  lemma {:induction false} FixLinesKeepsState(lines: seq<string>)
    ensures NoteStateAfter(FixLines(lines)) == NoteStateAfter(lines)
  {
    if lines != [] {
      var init := lines[..|lines| - 1];
      FixLinesKeepsState(init);
      var fixed := FixLines(lines);
      assert fixed[..|fixed| - 1] == FixLines(init);
    }
  }

  /** Idempotence on lines: a second pass changes nothing. */
  lemma {:induction false} FixLinesIdempotent(lines: seq<string>)
    ensures FixLines(FixLines(lines)) == FixLines(lines)
  {
    if lines != [] {
      var init := lines[..|lines| - 1];
      FixLinesIdempotent(init);
      FixLinesKeepsState(init);
      var fixed := FixLines(lines);
      assert fixed[..|fixed| - 1] == FixLines(init);
    }
  }

  /** When no line is indented, no note ever opens and the lines come out unchanged. */
  lemma {:induction false} FixLinesIdentity(lines: seq<string>)
    requires forall i :: 0 <= i < |lines| ==> !IsIndented(lines[i])
    ensures FixLines(lines) == lines
  {
    if lines != [] {
      var init := lines[..|lines| - 1];
      FixLinesIdentity(init);
      NeverOpens(init);
      assert lines == init + [lines[|lines| - 1]];
    }
  }

  /** Without an indented line the flag never becomes true. */
  lemma {:induction false} NeverOpens(lines: seq<string>)
    requires forall i :: 0 <= i < |lines| ==> !IsIndented(lines[i])
    ensures !NoteStateAfter(lines)
  {
    if lines != [] {
      NeverOpens(lines[..|lines| - 1]);
    }
  }

  /** The pass adds no newline: lines without one come out without one. */
  lemma FixLinesNoNewline(lines: seq<string>)
    requires forall i :: 0 <= i < |lines| ==> '\n' !in lines[i]
    ensures forall i :: 0 <= i < |lines| ==> '\n' !in FixLines(lines)[i]
  {
    var fixed := FixLines(lines);
    FixLinesShape(lines);
    forall i | 0 <= i < |fixed| ensures '\n' !in fixed[i] {
      assert fixed[i] == lines[i] || fixed[i] == "  " + lines[i];
    }
  }

  /** `fix_note_indentation` is idempotent on text. */
  lemma FixNotesIdempotent(text: string)
    ensures FixNotes(FixNotes(text)) == FixNotes(text)
  {
    FixLinesIdempotent(Split(text));
  }

  /** Text in which no line starts with two spaces is returned unchanged. */
  lemma FixNotesIdentity(text: string)
    requires forall i :: 0 <= i < |Split(text)| ==> !IsIndented(Split(text)[i])
    ensures FixNotes(text) == text
  {
    FixLinesIdentity(Split(text));
    JoinSplit(text);
  }

  /** The pass over `lines + [line]` is the pass over `lines`, then one step. */
  lemma FixLinesSnoc(lines: seq<string>, line: string)
    ensures FixLines(lines + [line]) == FixLines(lines) + [Step(NoteStateAfter(lines), line).1]
    ensures NoteStateAfter(lines + [line]) == Step(NoteStateAfter(lines), line).0
  {
    assert (lines + [line])[..|lines|] == lines;
  }

  /**
   * A list item or heading forgets everything before it: the pass over
   * `a + b` is the pass over `a` followed by a fresh pass over `b`.
   */
  lemma {:induction false} StructuralRestarts(a: seq<string>, b: seq<string>)
    requires |b| >= 1 && IsStructural(b[0])
    ensures FixLines(a + b) == FixLines(a) + FixLines(b)
    ensures NoteStateAfter(a + b) == NoteStateAfter(b)
  {
    if |b| == 1 {
      assert b == [] + [b[0]];
      FixLinesSnoc(a, b[0]);
      FixLinesSnoc([], b[0]);
    } else {
      var init, last := b[..|b| - 1], b[|b| - 1];
      assert b == init + [last];
      assert a + b == (a + init) + [last];
      StructuralRestarts(a, init);
      FixLinesSnoc(a + init, last);
      FixLinesSnoc(init, last);
      var out := [Step(NoteStateAfter(init), last).1];
      calc {
        FixLines(a + b);
        FixLines(a + init) + out;
        (FixLines(a) + FixLines(init)) + out;
        { AppendAssociative(FixLines(a), FixLines(init), out); }
        FixLines(a) + (FixLines(init) + out);
        FixLines(a) + FixLines(b);
      }
    }
  }

  /**
   * A blank line does not close a note: a plain paragraph after a note and
   * a blank line is indented as part of the note.
   */
  lemma BlankLineKeepsNoteOpen(lines: seq<string>, note: string, para: string)
    requires IsIndented(note) && IsContinuation(para)
    ensures FixLines(lines + [note, "", para]) == FixLines(lines) + [note, "", "  " + para]
  {
    IndentedIsNotStructural(note);
    FixLinesSnoc(lines, note);
    FixLinesSnoc(lines + [note], "");
    FixLinesSnoc(lines + [note] + [""], para);
    assert lines + [note, "", para] == lines + [note] + [""] + [para];
  }

  /**
   * A list item or heading closes any note, so a flush-left line right after
   * it is left as it is, even where it was meant as the item's note.
   */
  lemma StructuralClosesNote(lines: seq<string>, item: string, line: string)
    requires IsStructural(item) && IsContinuation(line)
    ensures FixLines(lines + [item, line]) == FixLines(lines) + [item, line]
  {
    FixLinesSnoc(lines, item);
    FixLinesSnoc(lines + [item], line);
    assert lines + [item] + [line] == lines + [item, line];
  }

  /** A trailing blank line comes out blank. */
  lemma TrailingBlank(lines: seq<string>)
    ensures FixLines(lines + [""]) == FixLines(lines) + [""]
  {
    assert (lines + [""])[..|lines|] == lines;
  }
}
