/**
 * What `main` does with the script's output: the text the script logs is
 * put through `fix_note_indentation` before it is printed. This module reads
 * the exported document line by line and shows what the normaliser does to
 * it: every to-do keeps one list line, and the physical lines of its notes
 * come out indented under it.
 */
module Pipeline {
  import opened Text
  import opened NoteIndentation
  import opened ThingsExport

  /** The arguments `main` answers itself, with usage or version text, without running the script. */
  const MainOptions: set<string> := {"--help", "-h", "--version", "-v"}

  /**
   * `main` without the process plumbing: run the script with the name and
   * "--stdout", then fix the notes of what it logged. What it prints is
   * already normal: another pass would change nothing.
   */
  function Things2Md(app: ThingsApp, projectName: string): (printed: string)
    requires projectName !in MainOptions
    ensures FixNotes(printed) == printed
  {
    var logged := LoggedText(Run(app, [projectName, "--stdout"]));
    FixNotesIdempotent(logged);
    FixNotes(logged)
  }

  /** An error the script reports on one line comes through the normaliser unchanged. */
  lemma ErrorPassesThrough(app: ThingsApp, projectName: string)
    requires projectName !in MainOptions
    requires Run(app, [projectName, "--stdout"]).ScriptError?
    requires '\n' !in Run(app, [projectName, "--stdout"]).message
    ensures Things2Md(app, projectName) == "Error: " + Run(app, [projectName, "--stdout"]).message
  {
    var text := "Error: " + Run(app, [projectName, "--stdout"]).message;
    assert '\n' !in text by {
      assert forall i :: 0 <= i < 7 ==> text[i] != '\n';
    }
    SplitJoin([text]);
    assert Split(text) == [text];
    assert text[..2] != "  ";
    FixNotesIdentity(text);
  }

  // ------------------------------------------------- the document, line by line

  predicate SingleLine(s: string) {
    '\n' !in s
  }

  /** The physical lines a block occupies in the export (its final newline ends the last one). */
  function BlockLines(b: Block): (lines: seq<string>)
    ensures |lines| >= 1
  {
    match b
    case Title(title) => ["# " + title, ""]
    case TagsLine(tags) => ["**Tags:** " + tags, ""]
    case DueDateLine(due) => ["**Due Date:** " + FormatDate(Some(due)), ""]
    case ProjectNotes(notes) => ["## Project Notes", ""] + Split(notes) + [""]
    case TasksHeading => ["## Tasks", ""]
    case TaskEntry(t) =>
      [ListItem(t)] + if HasNote(t) then var s := Split(t.notes.text); ["  " + s[0]] + s[1..] else []
    case NoTasksNotice => ["", NoTasksMessage, ""]
  }

  /** The fields the exporter writes inside one line hold no newline; notes may span lines. */
  predicate SingleLineFields(b: Block) {
    match b
    case Title(title) => SingleLine(title)
    case TagsLine(tags) => SingleLine(tags)
    case TaskEntry(t) =>
      (t.name.Some? ==> SingleLine(t.name.value)) && (t.tagNames.Value? ==> SingleLine(t.tagNames.text))
    case _ => true
  }

  lemma FormatDateSingleLine(d: Date)
    ensures SingleLine(FormatDate(Some(d)))
  {
    var y, m, dd := NatToString(d.year), TwoDigits(d.month), TwoDigits(d.day);
    assert '\n' !in y && '\n' !in m && '\n' !in dd;
    assert FormatDate(Some(d)) == y + "-" + m + "-" + dd;
  }

  /** A one-line block followed by a blank line. */
  lemma LineThenBlank(line: string)
    ensures Join([line, ""]) + "\n" == line + "\n\n"
  {
    assert Join([line, ""]) == line + "\n" + "";
  }

  lemma ProjectNotesLines(notes: string)
    ensures BlockText(ProjectNotes(notes)) == Join(BlockLines(ProjectNotes(notes))) + "\n"
  {
    var heading := "## Project Notes";
    assert BlockLines(ProjectNotes(notes)) == [heading, ""] + (Split(notes) + [""]);
    assert BlockText(ProjectNotes(notes)) == heading + "\n\n" + notes + "\n\n";
    HeadedText(heading, notes);
  }

  /** A heading line, a blank line, the lines of a text and a blank line, joined. */
  lemma HeadedText(heading: string, text: string)
    ensures Join([heading, ""] + (Split(text) + [""])) + "\n" == heading + "\n\n" + text + "\n\n"
  {
    var head, body := [heading, ""], Split(text) + [""];
    JoinAppend(head, body);
    JoinAppend(Split(text), [""]);
    JoinSplit(text);
    assert Join([""]) == "";
    assert Join(body) == text + "\n";
    assert Join(head) == heading + "\n";
  }

  lemma TaskEntryLines(t: Todo)
    requires SingleLineFields(TaskEntry(t))
    ensures BlockText(TaskEntry(t)) == Join(BlockLines(TaskEntry(t))) + "\n"
    ensures forall i :: 0 <= i < |BlockLines(TaskEntry(t))| ==> SingleLine(BlockLines(TaskEntry(t))[i])
  {
    var item, lines := ListItem(t), BlockLines(TaskEntry(t));
    assert SingleLine(item);
    if HasNote(t) {
      var s := Split(t.notes.text);
      var rest := ["  " + s[0]] + s[1..];
      assert lines == [item] + rest;
      JoinAppend([item], rest);
      JoinPrefixFirst("  ", s);
      JoinSplit(t.notes.text);
      assert Join(rest) == "  " + t.notes.text;
      assert NoteLine(t) == "  " + t.notes.text + "\n";
      calc {
        BlockText(TaskEntry(t));
        (item + "\n") + ("  " + t.notes.text + "\n");
        { AppendAssociative(item + "\n", "  " + t.notes.text, "\n"); }
        (item + "\n" + Join(rest)) + "\n";
        Join(lines) + "\n";
      }
      forall i | 0 <= i < |lines| ensures SingleLine(lines[i]) {
        if i > 1 { assert lines[i] == s[i - 1]; }
      }
    } else {
      assert lines == [item];
    }
  }

  /** A block that is one line followed by a blank line. */
  lemma OneLineBlock(b: Block, line: string)
    requires BlockLines(b) == [line, ""]
    requires BlockText(b) == line + "\n\n"
    requires SingleLine(line)
    ensures BlockText(b) == Join(BlockLines(b)) + "\n"
    ensures forall i :: 0 <= i < |BlockLines(b)| ==> SingleLine(BlockLines(b)[i])
  {
    LineThenBlank(line);
  }

  lemma TitleLines(title: string)
    requires SingleLine(title)
    ensures BlockText(Title(title)) == Join(BlockLines(Title(title))) + "\n"
    ensures forall i :: 0 <= i < |BlockLines(Title(title))| ==> SingleLine(BlockLines(Title(title))[i])
  {
    OneLineBlock(Title(title), "# " + title);
  }

  lemma TagsLines(tags: string)
    requires SingleLine(tags)
    ensures BlockText(TagsLine(tags)) == Join(BlockLines(TagsLine(tags))) + "\n"
    ensures forall i :: 0 <= i < |BlockLines(TagsLine(tags))| ==> SingleLine(BlockLines(TagsLine(tags))[i])
  {
    OneLineBlock(TagsLine(tags), "**Tags:** " + tags);
  }

  lemma DueDateLines(due: Date)
    ensures BlockText(DueDateLine(due)) == Join(BlockLines(DueDateLine(due))) + "\n"
    ensures forall i :: 0 <= i < |BlockLines(DueDateLine(due))| ==> SingleLine(BlockLines(DueDateLine(due))[i])
  {
    FormatDateSingleLine(due);
    OneLineBlock(DueDateLine(due), "**Due Date:** " + FormatDate(Some(due)));
  }

  lemma TasksHeadingLines()
    ensures BlockText(TasksHeading) == Join(BlockLines(TasksHeading)) + "\n"
    ensures forall i :: 0 <= i < |BlockLines(TasksHeading)| ==> SingleLine(BlockLines(TasksHeading)[i])
  {
    OneLineBlock(TasksHeading, "## Tasks");
  }

  /** A line between two blank lines. */
  lemma BlankLineBlank(line: string)
    ensures Join(["", line, ""]) + "\n" == "\n" + line + "\n\n"
  {
    assert ["", line, ""] == [""] + [line, ""];
    JoinAppend([""], [line, ""]);
    LineThenBlank(line);
  }

  lemma NoTasksLines()
    ensures BlockText(NoTasksNotice) == Join(BlockLines(NoTasksNotice)) + "\n"
    ensures forall i :: 0 <= i < |BlockLines(NoTasksNotice)| ==> SingleLine(BlockLines(NoTasksNotice)[i])
  {
    BlankLineBlank(NoTasksMessage);
  }

  /** A block's text is its lines joined, with a final newline; no line holds a newline. */
  lemma BlockTextLines(b: Block)
    requires SingleLineFields(b)
    ensures BlockText(b) == Join(BlockLines(b)) + "\n"
    ensures forall i :: 0 <= i < |BlockLines(b)| ==> SingleLine(BlockLines(b)[i])
  {
    match b {
      case Title(title) => TitleLines(title);
      case TagsLine(tags) => TagsLines(tags);
      case DueDateLine(due) => DueDateLines(due);
      case ProjectNotes(notes) => ProjectNotesLines(notes);
      case TasksHeading => TasksHeadingLines();
      case TaskEntry(t) => TaskEntryLines(t);
      case NoTasksNotice => NoTasksLines();
    }
  }

  /** The lines of a run of blocks, in order. */
  function DocLines(blocks: seq<Block>): seq<string> {
    Flatten(MapSeq(BlockLines, blocks))
  }

  lemma DocLinesAppend(a: seq<Block>, b: seq<Block>)
    ensures DocLines(a + b) == DocLines(a) + DocLines(b)
  {
    MapSeqAppend(BlockLines, a, b);
    FlattenAppend(MapSeq(BlockLines, a), MapSeq(BlockLines, b));
  }

  lemma DocLinesOne(b: Block)
    ensures DocLines([b]) == BlockLines(b)
  {
    MapSeqOne(BlockLines, b);
    FlattenOne(BlockLines(b));
  }

  /** The text of a non-empty run of blocks is its lines joined, with a final newline. */
  lemma {:induction false} ConcatIsLines(blocks: seq<Block>)
    requires |blocks| >= 1
    requires forall i :: 0 <= i < |blocks| ==> SingleLineFields(blocks[i])
    ensures |DocLines(blocks)| >= 1
    ensures Concat(blocks) == Join(DocLines(blocks)) + "\n"
    ensures forall i :: 0 <= i < |DocLines(blocks)| ==> SingleLine(DocLines(blocks)[i])
  {
    var init, last := blocks[..|blocks| - 1], blocks[|blocks| - 1];
    assert blocks == init + [last];
    var lines := BlockLines(last);
    assert Concat(blocks) == Concat(init) + BlockText(last) by {
      ConcatAppend(init, [last]);
      ConcatOne(last);
    }
    assert DocLines(blocks) == DocLines(init) + lines by {
      DocLinesAppend(init, [last]);
      DocLinesOne(last);
    }
    BlockTextLines(last);
    if init == [] {
      assert Concat(init) == [] && DocLines(init) == [];
      assert Concat(blocks) == BlockText(last);
      assert DocLines(blocks) == lines;
    } else {
      ConcatIsLines(init);
      JoinedRuns(Concat(init), BlockText(last), DocLines(init), lines);
    }
  }

  /** Two runs of lines, each written with a final newline, written one after the other. */
  lemma JoinedRuns(ta: string, tb: string, a: seq<string>, b: seq<string>)
    requires |a| >= 1 && |b| >= 1
    requires ta == Join(a) + "\n" && tb == Join(b) + "\n"
    requires forall i :: 0 <= i < |a| ==> SingleLine(a[i])
    requires forall i :: 0 <= i < |b| ==> SingleLine(b[i])
    ensures ta + tb == Join(a + b) + "\n"
    ensures forall i :: 0 <= i < |a + b| ==> SingleLine((a + b)[i])
  {
    JoinAppend(a, b);
    AppendAssociative(Join(a) + "\n", Join(b), "\n");
  }

  /** The newline-free fields of a project: its name, its tags, and its to-dos' names and tags. */
  predicate ProjectSingleLine(p: Project) {
    && SingleLine(p.name)
    && SingleLine(p.tagNames)
    && (p.todos.Some? ==> forall i :: 0 <= i < |p.todos.value| ==> SingleLineFields(TaskEntry(p.todos.value[i])))
  }

  /** Splitting the export gives the document's lines and the empty piece after its final newline. */
  lemma SplitRender(p: Project)
    requires ProjectSingleLine(p)
    ensures Split(Render(p)) == DocLines(Outline(p)) + [""]
  {
    var o := Outline(p);
    forall i | 0 <= i < |o| ensures SingleLineFields(o[i]) {
      if o[i].TaskEntry? {
        var h := Header(p);
        assert i >= |h|;
        assert o[i] == TaskEntry(p.todos.value[i - |h|]);
      }
    }
    ConcatIsLines(o);
    var d := DocLines(o);
    var lines := d + [""];
    JoinAppend(d, [""]);
    assert Join([""]) == "";
    assert Join(lines) == Join(d) + "\n" + "";
    assert Join(lines) == Render(p);
    forall i | 0 <= i < |lines| ensures '\n' !in lines[i] {
      if i < |d| { assert lines[i] == d[i] && SingleLine(d[i]); }
    }
    SplitJoin(lines);
  }

  // ---------------------------------------------- what the normaliser does to it

  /** A note line after the first, as the normaliser leaves it inside an open note. */
  function IndentNoteLine(line: string): string {
    if IsContinuation(line) then "  " + line else line
  }

  /**
   * The notes of a to-do stay one note: every physical line after the first
   * is blank, flush-left text that is not a list item or heading, or already
   * indented by two spaces.
   */
  predicate NoteHoldsTogether(t: Todo) {
    HasNote(t) ==>
      var s := Split(t.notes.text);
      forall i :: 1 <= i < |s| ==> KeepsState(s[i]) || IsIndented(s[i])
  }

  /** A to-do's lines after normalisation: its list line, then every line of its notes indented. */
  function FixedEntry(t: Todo): seq<string> {
    [ListItem(t)] +
      if HasNote(t) then
        var s := Split(t.notes.text);
        ["  " + s[0]] + seq(|s| - 1, i requires 0 <= i < |s| - 1 => IndentNoteLine(s[i + 1]))
      else []
  }

  /** Once an indented line opens a note, lines that keep it open leave it open. */
  lemma {:induction false} NoteStaysOpen(lines: seq<string>, i: nat)
    requires 2 <= i <= |lines|
    requires IsIndented(lines[1])
    requires forall k :: 2 <= k < |lines| ==> KeepsState(lines[k]) || IsIndented(lines[k])
    ensures NoteStateAfter(lines[..i])
  {
    IndentedIsNotStructural(lines[i - 1]);
    assert lines[..i][..i - 1] == lines[..i - 1];
    if i > 2 {
      NoteStaysOpen(lines, i - 1);
    }
  }

  /** One line of a to-do's lines after the pass over them. */
  lemma FixTaskEntryAt(t: Todo, i: nat)
    requires NoteHoldsTogether(t)
    requires i < |BlockLines(TaskEntry(t))|
    ensures |FixedEntry(t)| == |BlockLines(TaskEntry(t))|
    ensures FixLines(BlockLines(TaskEntry(t)))[i] == FixedEntry(t)[i]
  {
    var lines := BlockLines(TaskEntry(t));
    FixLinesAt(lines, i);
    if i == 0 {
      assert lines[..0] == [];
      assert IsStructural(lines[0]);
    } else {
      assert HasNote(t);
      var s := Split(t.notes.text);
      assert lines == [ListItem(t)] + (["  " + s[0]] + s[1..]);
      assert lines[1] == "  " + s[0];
      assert ("  " + s[0])[..2] == "  ";
      IndentedIsNotStructural(lines[1]);
      if i >= 2 {
        assert lines[i] == s[i - 1];
        assert FixedEntry(t)[i] == IndentNoteLine(s[i - 1]);
        NoteStaysOpen(lines, i);
        IndentedIsNotStructural(lines[i]);
      }
    }
  }

  /** Normalising one to-do's lines on their own gives its list line and its notes indented. */
  lemma FixTaskEntry(t: Todo)
    requires NoteHoldsTogether(t)
    ensures FixLines(BlockLines(TaskEntry(t))) == FixedEntry(t)
  {
    var lines := BlockLines(TaskEntry(t));
    FixTaskEntryAt(t, 0);
    forall i | 0 <= i < |lines| ensures FixLines(lines)[i] == FixedEntry(t)[i] {
      FixTaskEntryAt(t, i);
    }
  }

  /** The to-dos' normalised lines, one after another. */
  function FixedEntries(todos: seq<Todo>): seq<string> {
    if todos == [] then []
    else FixedEntries(todos[..|todos| - 1]) + FixedEntry(todos[|todos| - 1])
  }

  /** The lines of the entries grow by the last to-do's lines. */
  lemma DocLinesEntriesSnoc(todos: seq<Todo>)
    requires |todos| >= 1
    ensures DocLines(Entries(todos)) == DocLines(Entries(todos[..|todos| - 1])) + BlockLines(TaskEntry(todos[|todos| - 1]))
  {
    var init, last := todos[..|todos| - 1], todos[|todos| - 1];
    assert Entries(todos) == Entries(init) + [TaskEntry(last)];
    DocLinesAppend(Entries(init), [TaskEntry(last)]);
    DocLinesOne(TaskEntry(last));
  }

  /** Each to-do's list line restarts the pass, so the to-dos are normalised one by one. */
  lemma {:induction false} FixEntries(head: seq<string>, todos: seq<Todo>)
    requires forall i :: 0 <= i < |todos| ==> NoteHoldsTogether(todos[i])
    ensures FixLines(head + DocLines(Entries(todos))) == FixLines(head) + FixedEntries(todos)
  {
    if todos == [] {
      assert head + DocLines(Entries(todos)) == head;
    } else {
      var init, last := todos[..|todos| - 1], todos[|todos| - 1];
      assert forall i :: 0 <= i < |init| ==> init[i] == todos[i];
      FixEntries(head, init);
      var before, entry := DocLines(Entries(init)), BlockLines(TaskEntry(last));
      DocLinesEntriesSnoc(todos);
      AppendAssociative(head, before, entry);
      assert IsStructural(entry[0]);
      StructuralRestarts(head + before, entry);
      FixTaskEntry(last);
      assert FixedEntries(todos) == FixedEntries(init) + FixedEntry(last);
      AppendAssociative(FixLines(head), FixedEntries(init), FixedEntry(last));
    }
  }

  /** The header ends with the "Tasks" heading and a blank line, so no note is open after it. */
  lemma HeaderClosesNotes(p: Project)
    ensures !NoteStateAfter(DocLines(Header(p)))
  {
    var h := Header(p);
    var init := h[..|h| - 1];
    assert h[|h| - 1] == TasksHeading;
    assert h == init + [TasksHeading];
    DocLinesAppend(init, [TasksHeading]);
    DocLinesOne(TasksHeading);
    var heading := "## Tasks";
    assert BlockLines(TasksHeading) == [heading, ""];
    assert IsStructural(heading);
    HeadingClosesNotes(DocLines(init), heading);
  }

  /** After a list item or heading and a blank line, no note is open. */
  lemma HeadingClosesNotes(lines: seq<string>, heading: string)
    requires IsStructural(heading)
    ensures !NoteStateAfter(lines + [heading, ""])
  {
    FixLinesSnoc(lines, heading);
    FixLinesSnoc(lines + [heading], "");
    assert lines + [heading] + [""] == lines + [heading, ""];
  }

  /** With no note open, blank lines and continuations pass through unchanged and open none. */
  lemma {:induction false} ClosedPassThrough(lines: seq<string>, tail: seq<string>)
    requires !NoteStateAfter(lines)
    requires forall k :: 0 <= k < |tail| ==> KeepsState(tail[k])
    ensures FixLines(lines + tail) == FixLines(lines) + tail
    ensures !NoteStateAfter(lines + tail)
  {
    if tail == [] {
      assert lines + tail == lines;
    } else {
      var init, last := tail[..|tail| - 1], tail[|tail| - 1];
      ClosedPassThrough(lines, init);
      assert tail == init + [last];
      KeepsStateStep(false, last);
      assert (lines + init) + [last] == lines + tail;
      FixLinesSnoc(lines + init, last);
      AppendAssociative(FixLines(lines), init, [last]);
    }
  }

  /**
   * The exported project after `fix_note_indentation`: the header as the
   * normaliser leaves it; then each to-do's list line with all the lines of
   * its notes indented under it, in Things 3's order, or, when the to-do list
   * cannot be read, the "No tasks found" notice unchanged between blank
   * lines; then the empty piece after the final newline.
   */
  lemma NormalizedExport(p: Project)
    requires ProjectSingleLine(p)
    requires p.todos.Some? ==> forall i :: 0 <= i < |p.todos.value| ==> NoteHoldsTogether(p.todos.value[i])
    ensures p.todos.Some? ==>
              Split(FixNotes(Render(p))) == FixLines(DocLines(Header(p))) + FixedEntries(p.todos.value) + [""]
    ensures p.todos.None? ==>
              Split(FixNotes(Render(p))) == FixLines(DocLines(Header(p))) + ["", NoTasksMessage, "", ""]
  {
    match p.todos {
      case Some(todos) => NormalizedWithTodos(p, todos);
      case None => NormalizedWithoutTodos(p);
    }
  }

  lemma NormalizedWithTodos(p: Project, todos: seq<Todo>)
    requires ProjectSingleLine(p) && p.todos == Some(todos)
    requires forall i :: 0 <= i < |todos| ==> NoteHoldsTogether(todos[i])
    ensures Split(FixNotes(Render(p))) == FixLines(DocLines(Header(p))) + FixedEntries(todos) + [""]
  {
    SplitRender(p);
    DocLinesAppend(Header(p), Entries(todos));
    TrailingBlank(DocLines(Outline(p)));
    FixEntries(DocLines(Header(p)), todos);
  }

  lemma NormalizedWithoutTodos(p: Project)
    requires ProjectSingleLine(p) && p.todos.None?
    ensures Split(FixNotes(Render(p))) == FixLines(DocLines(Header(p))) + ["", NoTasksMessage, "", ""]
  {
    SplitRender(p);
    var header := DocLines(Header(p));
    DocLinesAppend(Header(p), [NoTasksNotice]);
    DocLinesOne(NoTasksNotice);
    var notice := ["", NoTasksMessage, "", ""];
    assert DocLines(Outline(p)) + [""] == header + notice;
    HeaderClosesNotes(p);
    assert KeepsState(notice[1]) by {
      ContinuationByFirst(NoTasksMessage);
    }
    ClosedPassThrough(header, notice);
  }

  /**
   * Each to-do contributes exactly one list line, first; every line after it
   * is a line of its notes, blank or indented by at least two spaces, with
   * its text kept.
   */
  lemma FixedEntryShape(t: Todo)
    requires NoteHoldsTogether(t)
    ensures var lines := FixedEntry(t);
            && lines[0] == ListItem(t) && StartsWith(lines[0], "- ")
            && |lines| == 1 + (if HasNote(t) then |Split(t.notes.text)| else 0)
            && forall i :: 1 <= i < |lines| ==>
                 var s := Split(t.notes.text);
                 && (lines[i] == "" || IsIndented(lines[i]))
                 && (lines[i] == s[i - 1] || lines[i] == "  " + s[i - 1])
  {
    var lines := FixedEntry(t);
    if HasNote(t) {
      var s := Split(t.notes.text);
      forall i | 1 <= i < |lines| ensures (lines[i] == "" || IsIndented(lines[i])) && (lines[i] == s[i - 1] || lines[i] == "  " + s[i - 1]) {
        if i == 1 {
          assert lines[1] == "  " + s[0];
          assert ("  " + s[0])[..2] == "  ";
        } else {
          assert lines[i] == IndentNoteLine(s[i - 1]);
          if IsContinuation(s[i - 1]) {
            assert ("  " + s[i - 1])[..2] == "  ";
          }
        }
      }
    }
  }

  // ------------------------------------------------------------ a worked example

  function Milk(): Todo {
    Todo(Some("Milk"), Value(""), Value(""))
  }

  function Eggs(): Todo {
    Todo(Some("Eggs"), Value("dairy"), Value("Get organic\nCheck expiry"))
  }

  function Groceries(): Project {
    Project("Groceries", "errands", Some(Date(2024, 3, 7)), "Buy weekly", Some([Milk(), Eggs()]))
  }

  lemma SplitOneLine(line: string)
    requires '\n' !in line
    ensures Split(line) == [line]
  {
    SplitJoin([line]);
  }

  lemma EggsNotes()
    ensures Split(Eggs().notes.text) == ["Get organic", "Check expiry"]
  {
    var lines := ["Get organic", "Check expiry"];
    assert Join(lines) == "Get organic" + "\n" + "Check expiry";
    assert Join(lines) == Eggs().notes.text;
    SplitJoin(lines);
  }

  /** The first character decides whether a non-empty line is a continuation. */
  lemma ContinuationByFirst(line: string)
    requires line != [] && line[0] != '-' && line[0] != '#' && line[0] != ' '
    ensures IsContinuation(line)
  {
    assert line[..1] != "#" && line[..1] != " ";
    assert |line| < 2 || line[..2] != "- ";
  }

  lemma PlainListItem(name: string, notes: Field)
    ensures ListItem(Todo(Some(name), Value(""), notes)) == "- " + name
  {
  }

  lemma TaggedListItem(name: string, tags: string, notes: Field)
    requires tags != ""
    ensures ListItem(Todo(Some(name), Value(tags), notes)) == "- " + name + " *(" + tags + ")*"
  {
  }

  /** A to-do whose notes are two lines, the second a continuation. */
  lemma TwoLineNoteEntry(t: Todo, a: string, b: string)
    requires HasNote(t)
    requires Split(t.notes.text) == [a, b]
    requires IsContinuation(b)
    ensures FixedEntry(t) == [ListItem(t), "  " + a, "  " + b]
  {
    assert IndentNoteLine(b) == "  " + b;
  }

  lemma MilkEntry()
    ensures FixedEntry(Milk()) == ["- Milk"]
  {
    PlainListItem("Milk", Value(""));
    assert Milk() == Todo(Some("Milk"), Value(""), Value(""));
    assert ListItem(Milk()) == "- " + "Milk";
    assert "- " + "Milk" == "- Milk";
    assert FixedEntry(Milk()) == [ListItem(Milk())];
  }

  lemma EggsEntry()
    ensures FixedEntry(Eggs()) == ["- Eggs *(dairy)*", "  Get organic", "  Check expiry"]
  {
    assert "  " + "Get organic" == "  Get organic";
    assert "  " + "Check expiry" == "  Check expiry";
    var t := Eggs();
    assert t == Todo(Some("Eggs"), Value("dairy"), Value("Get organic\nCheck expiry"));
    TaggedListItem("Eggs", "dairy", Value("Get organic\nCheck expiry"));
    assert ListItem(t) == "- Eggs *(dairy)*";
    assert HasNote(t);
    EggsNotes();
    ContinuationByFirst("Check expiry");
    TwoLineNoteEntry(t, "Get organic", "Check expiry");
  }

  lemma FixedEntriesTwo(t1: Todo, t2: Todo)
    ensures FixedEntries([t1, t2]) == FixedEntry(t1) + FixedEntry(t2)
  {
    assert [t1, t2][..1] == [t1];
    assert [t1][..0] == [];
    assert FixedEntries([t1]) == [] + FixedEntry(t1);
    assert FixedEntries([t1, t2]) == FixedEntries([t1]) + FixedEntry(t2);
  }

  lemma GroceriesEntriesShape(milk: seq<string>, eggs: seq<string>)
    requires milk == ["- Milk"]
    requires eggs == ["- Eggs *(dairy)*", "  Get organic", "  Check expiry"]
    ensures milk + eggs == ["- Milk", "- Eggs *(dairy)*", "  Get organic", "  Check expiry"]
  {
  }

  lemma GroceriesEntries(todos: seq<Todo>)
    requires todos == [Milk(), Eggs()]
    ensures FixedEntries(todos) == ["- Milk", "- Eggs *(dairy)*", "  Get organic", "  Check expiry"]
  {
    FixedEntriesTwo(Milk(), Eggs());
    MilkEntry();
    EggsEntry();
    GroceriesEntriesShape(FixedEntry(Milk()), FixedEntry(Eggs()));
  }

  lemma DocLinesFive(b1: Block, b2: Block, b3: Block, b4: Block, b5: Block)
    ensures DocLines([b1, b2, b3, b4, b5]) == BlockLines(b1) + BlockLines(b2) + BlockLines(b3) + BlockLines(b4) + BlockLines(b5)
  {
    assert [b1, b2, b3, b4, b5] == [b1] + [b2] + [b3] + [b4] + [b5];
    DocLinesAppend([b1] + [b2] + [b3] + [b4], [b5]);
    DocLinesAppend([b1] + [b2] + [b3], [b4]);
    DocLinesAppend([b1] + [b2], [b3]);
    DocLinesAppend([b1], [b2]);
    DocLinesOne(b1);
    DocLinesOne(b2);
    DocLinesOne(b3);
    DocLinesOne(b4);
    DocLinesOne(b5);
  }

  /** The lines of a header with every optional section present. */
  lemma FullHeaderLines(p: Project)
    requires p.tagNames != "" && p.dueDate.Some? && p.notes != ""
    ensures DocLines(Header(p)) ==
      ["# " + p.name, "", "**Tags:** " + p.tagNames, "", "**Due Date:** " + FormatDate(p.dueDate), "",
       "## Project Notes", ""] + Split(p.notes) + ["", "## Tasks", ""]
  {
    var t, g, d, n, h := Title(p.name), TagsLine(p.tagNames), DueDateLine(p.dueDate.value), ProjectNotes(p.notes), TasksHeading;
    assert Header(p) == [t, g, d, n, h];
    DocLinesFive(t, g, d, n, h);
    assert BlockLines(t) == ["# " + p.name, ""];
    assert BlockLines(g) == ["**Tags:** " + p.tagNames, ""];
    assert BlockLines(d) == ["**Due Date:** " + FormatDate(p.dueDate), ""];
    assert BlockLines(n) == ["## Project Notes", ""] + Split(p.notes) + [""];
    assert BlockLines(h) == ["## Tasks", ""];
    HeaderRunsShape(BlockLines(t), BlockLines(g), BlockLines(d), BlockLines(n), BlockLines(h),
      "# " + p.name, "**Tags:** " + p.tagNames, "**Due Date:** " + FormatDate(p.dueDate), Split(p.notes));
  }

  lemma HeaderRunsShape(l1: seq<string>, l2: seq<string>, l3: seq<string>, l4: seq<string>, l5: seq<string>,
                        title: string, tags: string, due: string, notes: seq<string>)
    requires l1 == [title, ""] && l2 == [tags, ""] && l3 == [due, ""]
    requires l4 == ["## Project Notes", ""] + notes + [""] && l5 == ["## Tasks", ""]
    ensures l1 + l2 + l3 + l4 + l5 ==
      [title, "", tags, "", due, "", "## Project Notes", ""] + notes + ["", "## Tasks", ""]
  {
  }

  lemma GroceriesHeaderLines(p: Project)
    requires p == Groceries()
    ensures DocLines(Header(p)) ==
      ["# Groceries", "", "**Tags:** errands", "", "**Due Date:** 2024-03-07", "",
       "## Project Notes", "", "Buy weekly", "", "## Tasks", ""]
  {
    GroceriesTitleAndTags(p);
    GroceriesDueDate(p);
    GroceriesNotes(p);
    FullHeaderLines(p);
    GroceriesHeaderShape("# " + p.name, "**Tags:** " + p.tagNames, "**Due Date:** " + FormatDate(p.dueDate), Split(p.notes));
  }

  lemma GroceriesTitleAndTags(p: Project)
    requires p == Groceries()
    ensures "# " + p.name == "# Groceries" && "**Tags:** " + p.tagNames == "**Tags:** errands"
    ensures p.tagNames != ""
  {
    assert "# " + "Groceries" == "# Groceries";
    assert "**Tags:** " + "errands" == "**Tags:** errands";
  }

  lemma GroceriesDueDate(p: Project)
    requires p == Groceries()
    ensures p.dueDate.Some? && "**Due Date:** " + FormatDate(p.dueDate) == "**Due Date:** 2024-03-07"
  {
    assert "**Due Date:** " + "2024-03-07" == "**Due Date:** 2024-03-07";
    FormatDateExample();
  }

  lemma GroceriesNotes(p: Project)
    requires p == Groceries()
    ensures p.notes != "" && Split(p.notes) == ["Buy weekly"]
  {
    SplitOneLine("Buy weekly");
  }

  lemma GroceriesHeaderShape(title: string, tags: string, due: string, notes: seq<string>)
    requires title == "# Groceries" && tags == "**Tags:** errands" && due == "**Due Date:** 2024-03-07"
    requires notes == ["Buy weekly"]
    ensures [title, "", tags, "", due, "", "## Project Notes", ""] + notes + ["", "## Tasks", ""] ==
      ["# Groceries", "", "**Tags:** errands", "", "**Due Date:** 2024-03-07", "",
       "## Project Notes", "", "Buy weekly", "", "## Tasks", ""]
  {
  }

  /** The Groceries project meets the conditions of `NormalizedExport`. */
  lemma GroceriesWellFormed(p: Project)
    requires p == Groceries()
    ensures ProjectSingleLine(p) && p.todos.Some? && p.todos.value == [Milk(), Eggs()]
    ensures forall i :: 0 <= i < |p.todos.value| ==> NoteHoldsTogether(p.todos.value[i])
  {
    assert "Groceries"[0] != '\n' && "errands"[0] != '\n';
    assert SingleLine("Groceries") && SingleLine("errands");
    assert SingleLine("Milk") && SingleLine("Eggs") && SingleLine("dairy");
    assert SingleLineFields(TaskEntry(Milk())) && SingleLineFields(TaskEntry(Eggs()));
    assert NoteHoldsTogether(Milk());
    EggsHoldsTogether();
    var todos := p.todos.value;
    assert todos[0] == Milk() && todos[1] == Eggs();
  }

  lemma EggsHoldsTogether()
    ensures NoteHoldsTogether(Eggs())
  {
    var t := Eggs();
    assert HasNote(t);
    EggsNotes();
    ContinuationByFirst("Check expiry");
    TwoLineNoteHoldsTogether(t, "Get organic", "Check expiry");
  }

  lemma TwoLineNoteHoldsTogether(t: Todo, a: string, b: string)
    requires HasNote(t)
    requires Split(t.notes.text) == [a, b]
    requires IsContinuation(b)
    ensures NoteHoldsTogether(t)
  {
  }

  /** No header line of Groceries is indented, so the normaliser leaves the header alone. */
  lemma GroceriesHeaderFixed(p: Project)
    requires p == Groceries()
    ensures FixLines(DocLines(Header(p))) ==
      ["# Groceries", "", "**Tags:** errands", "", "**Due Date:** 2024-03-07", "",
       "## Project Notes", "", "Buy weekly", "", "## Tasks", ""]
  {
    GroceriesHeaderLines(p);
    var header := DocLines(Header(p));
    forall i | 0 <= i < |header| ensures !IsIndented(header[i]) {
      assert header[i] == "" || header[i][0] != ' ';
    }
    FixLinesIdentity(header);
  }

  lemma GroceriesShape(header: seq<string>, entries: seq<string>)
    requires header ==
      ["# Groceries", "", "**Tags:** errands", "", "**Due Date:** 2024-03-07", "",
       "## Project Notes", "", "Buy weekly", "", "## Tasks", ""]
    requires entries == ["- Milk", "- Eggs *(dairy)*", "  Get organic", "  Check expiry"]
    ensures header + entries + [""] ==
      ["# Groceries", "", "**Tags:** errands", "", "**Due Date:** 2024-03-07", "",
       "## Project Notes", "", "Buy weekly", "", "## Tasks", "",
       "- Milk", "- Eggs *(dairy)*", "  Get organic", "  Check expiry", ""]
  {
  }

  /**
   * `things2md Groceries --stdout` as written, whatever else Things 3 holds:
   * Groceries has a due date, so line 68 raises and only the error is printed.
   */
  lemma GroceriesAsWritten(app: ThingsApp)
    requires app.available && "Groceries" in app.projects && app.projects["Groceries"] == Groceries()
    requires '\n' !in app.commandError
    ensures Things2Md(app, "Groceries") == "Error: " + app.commandError
  {
    assert Run(app, ["Groceries", "--stdout"]) == ScriptError(app.commandError);
    ErrorPassesThrough(app, "Groceries");
  }

  /**
   * The intended `things2md Groceries --stdout` (with `my formatDate`), line by
   * line, whatever else Things 3 holds: the header untouched, one list line per
   * to-do, and the second line of the Eggs note indented like the first.
   */
  lemma GroceriesExample(app: ThingsApp)
    requires app.available && "Groceries" in app.projects && app.projects["Groceries"] == Groceries()
    ensures Split(FixNotes(LoggedText(RunIntended(app, ["Groceries", "--stdout"])))) ==
      ["# Groceries", "", "**Tags:** errands", "", "**Due Date:** 2024-03-07", "",
       "## Project Notes", "", "Buy weekly", "", "## Tasks", "",
       "- Milk", "- Eggs *(dairy)*", "  Get organic", "  Check expiry", ""]
  {
    var p := app.projects["Groceries"];
    assert RunIntended(app, ["Groceries", "--stdout"]) == Exported(Render(p));
    GroceriesWellFormed(p);
    NormalizedExport(p);
    GroceriesHeaderFixed(p);
    GroceriesEntries(p.todos.value);
    GroceriesShape(FixLines(DocLines(Header(p))), FixedEntries(p.todos.value));
  }
}
