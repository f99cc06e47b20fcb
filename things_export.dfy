/**
 * The AppleScript half of things2md: the `run` handler's validation chain,
 * `exportProjectToMarkdown` and `formatDate`. Things 3 itself is not
 * modelled; what the script reads from it is an input record: whether the
 * application is available, the projects by name, and for each project its
 * name, tag string, optional due date, notes and (fallible) to-do list.
 */
module ThingsExport {
  import opened Text

  datatype Option<T> = None | Some(value: T)

  /** A due date; the script reads only its year, month (as an integer) and day. */
  datatype Date = Date(year: nat, month: nat, day: nat)

  predicate ValidDate(d: Date) {
    1 <= d.month <= 12 && 1 <= d.day <= 31
  }

  /** Reading `tag names` or `notes` of a to-do: a string, `missing value`, or an error. */
  datatype Field = Value(text: string) | Missing | Unreadable

  /** A to-do as the script sees it; `name == None` means reading its name raised. */
  datatype Todo = Todo(name: Option<string>, tagNames: Field, notes: Field)

  /** A project; `todos == None` means reading `to dos of` the project raised. */
  datatype Project = Project(
    name: string,
    tagNames: string,
    dueDate: Option<Date>,
    notes: string,
    todos: Option<seq<Todo>>)

  // ---------------------------------------------------------------- formatDate

  /** `n as string`, with a "0" in front when `n < 10`. */
  function TwoDigits(n: nat): (s: string)
    ensures forall i :: 0 <= i < |s| ==> IsDigit(s[i])
    ensures n < 100 ==> |s| == 2 && DecimalValue(s) == n
  {
    var digits := NatToString(n);
    if n < 10 then
      var s := "0" + digits;
      assert s[..1] == "0";
      s
    else digits
  }

  /** `formatDate`: "" for `missing value`, otherwise year, month and day joined by hyphens. */
  function FormatDate(date: Option<Date>): (s: string)
    ensures s == "" <==> date.None?
  {
    match date
    case None => ""
    case Some(d) => NatToString(d.year) + "-" + TwoDigits(d.month) + "-" + TwoDigits(d.day)
  }

  /** Reads "<year>-<mm>-<dd>" back into a date; `None` for any other shape. */
  function ParseDate(s: string): Option<Date> {
    var n := |s|;
    if n >= 7 && s[n - 6] == '-' && s[n - 3] == '-'
       && AllDigits(s[..n - 6]) && AllDigits(s[n - 5..n - 3]) && AllDigits(s[n - 2..])
    then Some(Date(DecimalValue(s[..n - 6]), DecimalValue(s[n - 5..n - 3]), DecimalValue(s[n - 2..])))
    else None
  }

  /**
   * The formatted date reads back as the date: the year unpadded, then a
   * hyphen, the month in exactly two digits, a hyphen and the day in exactly
   * two digits.
   */
  lemma FormatDateRoundTrip(d: Date)
    requires ValidDate(d)
    ensures ParseDate(FormatDate(Some(d))) == Some(d)
  {
    var y, m, dd := NatToString(d.year), TwoDigits(d.month), TwoDigits(d.day);
    var s := FormatDate(Some(d));
    assert s == y + "-" + m + "-" + dd;
    var n := |s|;
    assert n == |y| + 6;
    assert s[..n - 6] == y;
    assert s[n - 5..n - 3] == m;
    assert s[n - 2..] == dd;
  }

  /** Two valid dates with the same rendering are the same date. */
  lemma FormatDateInjective(d1: Date, d2: Date)
    requires ValidDate(d1) && ValidDate(d2)
    requires FormatDate(Some(d1)) == FormatDate(Some(d2))
    ensures d1 == d2
  {
    FormatDateRoundTrip(d1);
    FormatDateRoundTrip(d2);
  }

  /** The example of 7 March 2024. */
  lemma FormatDateExample()
    ensures FormatDate(Some(Date(2024, 3, 7))) == "2024-03-07"
  {
    assert NatToString(2) == "2";
    assert NatToString(20) == "20";
    assert NatToString(202) == "202";
    assert NatToString(2024) == "2024";
    assert TwoDigits(3) == "03";
    assert TwoDigits(7) == "07";
  }

  // ------------------------------------------------------ the document outline

  /** The pieces `exportProjectToMarkdown` appends, one constructor per kind of append. */
  datatype Block =
    | Title(title: string)
    | TagsLine(tags: string)
    | DueDateLine(due: Date)
    | ProjectNotes(notes: string)
    | TasksHeading
    | TaskEntry(todo: Todo)
    | NoTasksNotice

  /**
   * The list line of one to-do without its newline, or the placeholder when
   * its name cannot be read; it stays on one line when the name and tags do.
   */
  function ListItem(t: Todo): (item: string)
    ensures StartsWith(item, "- ")
    ensures (t.name.Some? ==> '\n' !in t.name.value) && (t.tagNames.Value? ==> '\n' !in t.tagNames.text) ==>
              '\n' !in item
  {
    match t.name
    case None => "- [Error reading task]"
    case Some(name) =>
      if t.tagNames.Value? && t.tagNames.text != "" then "- " + name + " *(" + t.tagNames.text + ")*"
      else "- " + name
  }

  /** Whether the exporter writes a note under the to-do: the name and the notes were read and the notes are non-empty. */
  predicate HasNote(t: Todo) {
    t.name.Some? && t.notes.Value? && t.notes.text != ""
  }

  function ListLine(t: Todo): string {
    ListItem(t) + "\n"
  }

  /** The note line under a to-do, indented by two spaces; empty when there is no note. */
  function NoteLine(t: Todo): (note: string)
    ensures note != "" <==> HasNote(t)
    ensures note != "" ==> StartsWith(note, "  ")
  {
    if HasNote(t) then "  " + t.notes.text + "\n"
    else ""
  }

  /** The notice written when the to-do list cannot be read. */
  const NoTasksMessage := "No tasks found or error reading tasks"

  /** The text each kind of append adds. */
  function BlockText(b: Block): string {
    match b
    case Title(title) => "# " + title + "\n\n"
    case TagsLine(tags) => "**Tags:** " + tags + "\n\n"
    case DueDateLine(due) => "**Due Date:** " + FormatDate(Some(due)) + "\n\n"
    case ProjectNotes(notes) => "## Project Notes\n\n" + notes + "\n\n"
    case TasksHeading => "## Tasks\n\n"
    case TaskEntry(todo) => ListLine(todo) + NoteLine(todo)
    case NoTasksNotice => "\n" + NoTasksMessage + "\n\n"
  }

  /** The texts of a run of blocks, in order. */
  function Texts(blocks: seq<Block>): seq<string> {
    MapSeq(BlockText, blocks)
  }

  /** The text of a run of blocks, in order. */
  function Concat(blocks: seq<Block>): string {
    Flatten(Texts(blocks))
  }

  /** The blocks before the to-do list: title, the optional metadata, the "Tasks" heading. */
  function Header(p: Project): (h: seq<Block>)
    ensures 2 <= |h| <= 5 && h[0] == Title(p.name) && h[|h| - 1] == TasksHeading
    ensures forall i, j :: 0 <= i < j < |h| ==> Rank(h[i]) < Rank(h[j])
  {
    [Title(p.name)]
    + (if p.tagNames != "" then [TagsLine(p.tagNames)] else [])
    + (if p.dueDate.Some? then [DueDateLine(p.dueDate.value)] else [])
    + (if p.notes != "" then [ProjectNotes(p.notes)] else [])
    + [TasksHeading]
  }

  /** One entry per to-do, in the order Things 3 lists them. */
  function Entries(todos: seq<Todo>): (blocks: seq<Block>)
    ensures |blocks| == |todos|
    ensures forall i :: 0 <= i < |todos| ==> blocks[i] == TaskEntry(todos[i])
  {
    if todos == [] then [] else Entries(todos[..|todos| - 1]) + [TaskEntry(todos[|todos| - 1])]
  }

  /** The whole document: the header, then one entry per to-do or the notice that the list could not be read. */
  function Outline(p: Project): (o: seq<Block>)
    ensures |o| == |Header(p)| + (if p.todos.Some? then |p.todos.value| else 1)
    ensures o[..|Header(p)|] == Header(p)
  {
    Header(p) + match p.todos
                case None => [NoTasksNotice]
                case Some(todos) => Entries(todos)
  }

  /**
   * The Markdown `exportProjectToMarkdown` is meant to return for a project,
   * and returns as written for a project without a due date: it starts with
   * the project name as a level-one heading.
   */
  function Render(p: Project): (markdown: string)
    ensures StartsWith(markdown, "# " + p.name + "\n\n")
  {
    ConcatStartsWithFirst(Outline(p));
    Concat(Outline(p))
  }

  /** The text of a non-empty run of blocks starts with the text of its first block. */
  lemma ConcatStartsWithFirst(blocks: seq<Block>)
    requires |blocks| >= 1
    ensures StartsWith(Concat(blocks), BlockText(blocks[0]))
  {
    ConcatAppend([blocks[0]], blocks[1..]);
    assert [blocks[0]] + blocks[1..] == blocks;
    ConcatOne(blocks[0]);
  }

  lemma ConcatAppend(a: seq<Block>, b: seq<Block>)
    ensures Concat(a + b) == Concat(a) + Concat(b)
  {
    MapSeqAppend(BlockText, a, b);
    FlattenAppend(Texts(a), Texts(b));
  }

  lemma ConcatOne(b: Block)
    ensures Concat([b]) == BlockText(b)
  {
    MapSeqOne(BlockText, b);
    FlattenOne(BlockText(b));
  }

  /**
   * One pass of `repeat with currentTodo`: the list line, or the placeholder
   * when the name cannot be read, then the note line when there is one.
   */
  method AppendTodo(markdown: string, todo: Todo) returns (result: string)
    ensures result == markdown + BlockText(TaskEntry(todo))
  {
    result := markdown;
    match todo.name {
      case None =>
        result := result + "- [Error reading task]\n";
        assert result == markdown + ListLine(todo);
      case Some(taskName) =>
        match todo.tagNames {
          case Value(taskTags) =>
            if taskTags != "" {
              result := result + ("- " + taskName + " *(" + taskTags + ")*\n");
              assert ("- " + taskName + " *(" + taskTags + ")*\n") == ListItem(todo) + "\n";
            } else {
              result := result + ("- " + taskName + "\n");
            }
          case Missing =>
            result := result + ("- " + taskName + "\n");
          case Unreadable =>
            result := result + ("- " + taskName + "\n");
        }
        assert result == markdown + ListLine(todo);
        match todo.notes {
          case Value(taskNotes) =>
            if taskNotes != "" {
              result := result + ("  " + taskNotes + "\n");
            }
          case Missing =>
          case Unreadable =>
        }
    }
    assert result == (markdown + ListLine(todo)) + NoteLine(todo) by {
      if HasNote(todo) {
        assert result == (markdown + ListLine(todo)) + ("  " + todo.notes.text + "\n");
      }
    }
    AppendAssociative(markdown, ListLine(todo), NoteLine(todo));
  }

  /**
   * The first half of the script as written: title, the optional metadata,
   * the "Tasks" heading. Line 68 calls `formatDate` inside
   * `tell application "Things3"` without `my`, so the call is sent to Things 3,
   * which has no such command; no `try` covers it, so a due date ends the
   * handler with that error.
   */
  method ExportProjectHeader(p: Project, commandError: string) returns (r: RunResult)
    ensures p.dueDate.Some? ==> r == ScriptError(commandError)
    ensures p.dueDate.None? ==> r == Exported(Concat(Header(p)))
  {
    ghost var done: seq<Block> := [];
    var markdown := "";

    markdown := markdown + ("# " + p.name + "\n\n");
    ConcatOne(Title(p.name));
    done := [Title(p.name)];

    if p.tagNames != "" {
      markdown := markdown + ("**Tags:** " + p.tagNames + "\n\n");
      assert markdown == Concat(done + [TagsLine(p.tagNames)]) by {
        ConcatAppend(done, [TagsLine(p.tagNames)]);
        ConcatOne(TagsLine(p.tagNames));
      }
      done := done + [TagsLine(p.tagNames)];
    }
    ghost var tags := if p.tagNames != "" then [TagsLine(p.tagNames)] else [];
    assert done == [Title(p.name)] + tags;

    if p.dueDate.Some? {
      return ScriptError(commandError);
    }

    if p.notes != "" {
      markdown := markdown + ("## Project Notes\n\n" + p.notes + "\n\n");
      assert markdown == Concat(done + [ProjectNotes(p.notes)]) by {
        ConcatAppend(done, [ProjectNotes(p.notes)]);
        ConcatOne(ProjectNotes(p.notes));
      }
      done := done + [ProjectNotes(p.notes)];
    }
    ghost var notes := if p.notes != "" then [ProjectNotes(p.notes)] else [];
    assert done == [Title(p.name)] + tags + notes;

    markdown := markdown + "## Tasks\n\n";
    assert markdown == Concat(done + [TasksHeading]) by {
      ConcatAppend(done, [TasksHeading]);
      ConcatOne(TasksHeading);
    }
    done := done + [TasksHeading];
    assert done == Header(p);
    r := Exported(markdown);
  }

  /**
   * `exportProjectToMarkdown` as written: the error of line 68 for a project
   * with a due date; otherwise the header, then the to-do list or the notice
   * that it could not be read.
   */
  method ExportProjectToMarkdown(p: Project, commandError: string) returns (r: RunResult)
    ensures p.dueDate.Some? ==> r == ScriptError(commandError)
    ensures p.dueDate.None? ==> r == Exported(Render(p))
  {
    r := ExportProjectHeader(p, commandError);
    if r.ScriptError? {
      return;
    }
    var markdown := r.markdown;
    ghost var done := Header(p);
    match p.todos {
      case None =>
        markdown := markdown + ("\n" + NoTasksMessage + "\n\n");
        ConcatAppend(done, [NoTasksNotice]);
        ConcatOne(NoTasksNotice);
        assert Outline(p) == done + [NoTasksNotice];
      case Some(todos) =>
        assert Header(p) + Entries(todos[..0]) == Header(p);
        for i := 0 to |todos|
          invariant markdown == Concat(Header(p) + Entries(todos[..i]))
        {
          var todo := todos[i];
          markdown := AppendTodo(markdown, todo);
          ConcatEntriesStep(Header(p), todos, i);
        }
        assert todos[..|todos|] == todos;
        assert Outline(p) == Header(p) + Entries(todos);
    }
    assert markdown == Render(p);
    r := Exported(markdown);
  }

  /** One more to-do appends its entry's text. */
  lemma ConcatEntriesStep(header: seq<Block>, todos: seq<Todo>, i: nat)
    requires i < |todos|
    ensures Concat(header + Entries(todos[..i + 1])) ==
            Concat(header + Entries(todos[..i])) + BlockText(TaskEntry(todos[i]))
  {
    var prev := header + Entries(todos[..i]);
    assert todos[..i + 1][..i] == todos[..i];
    assert header + Entries(todos[..i + 1]) == prev + [TaskEntry(todos[i])];
    ConcatAppend(prev, [TaskEntry(todos[i])]);
    ConcatOne(TaskEntry(todos[i]));
  }

  // -------------------------------------------------- properties of the outline

  /** Where a block may stand: the sections come in this order, each at most once. */
  function Rank(b: Block): nat {
    match b
    case Title(_) => 0
    case TagsLine(_) => 1
    case DueDateLine(_) => 2
    case ProjectNotes(_) => 3
    case TasksHeading => 4
    case TaskEntry(_) => 5
    case NoTasksNotice => 5
  }

  /**
   * The document starts with the title, and its sections follow in a fixed
   * order with none repeated; only to-do entries share a rank.
   */
  lemma OutlineOrder(p: Project)
    ensures var o := Outline(p);
            && |o| >= 2 && o[0] == Title(p.name)
            && forall i, j :: 0 <= i < j < |o| ==>
                 Rank(o[i]) < Rank(o[j]) || (o[i].TaskEntry? && o[j].TaskEntry?)
  {
    var h := Header(p);
    assert forall i, j :: 0 <= i < j < |h| ==> Rank(h[i]) < Rank(h[j]);
    assert forall i :: 0 <= i < |h| ==> Rank(h[i]) <= 4;
  }

  /** Where the header sits in the outline, and that nothing after it is a header section. */
  lemma OutlineSplits(p: Project)
    ensures var o, h := Outline(p), Header(p);
            && |h| <= |o| && o[..|h|] == h
            && forall i :: |h| <= i < |o| ==> Rank(o[i]) == 5
  {
    var o, h := Outline(p), Header(p);
    match p.todos {
      case None =>
        assert o == h + [NoTasksNotice];
      case Some(todos) =>
        var e := Entries(todos);
        assert o == h + e;
        assert forall i :: |h| <= i < |o| ==> o[i] == e[i - |h|];
    }
  }

  /**
   * Each optional section is there exactly when its field is set, and
   * carries that field; the "Tasks" heading is always there.
   */
  lemma OutlineOptionalSections(p: Project)
    ensures var o := Outline(p);
            && ((exists i :: 0 <= i < |o| && o[i].TagsLine?) <==> p.tagNames != "")
            && (forall i :: 0 <= i < |o| && o[i].TagsLine? ==> o[i].tags == p.tagNames)
            && ((exists i :: 0 <= i < |o| && o[i].DueDateLine?) <==> p.dueDate.Some?)
            && (forall i :: 0 <= i < |o| && o[i].DueDateLine? ==> Some(o[i].due) == p.dueDate)
            && ((exists i :: 0 <= i < |o| && o[i].ProjectNotes?) <==> p.notes != "")
            && (forall i :: 0 <= i < |o| && o[i].ProjectNotes? ==> o[i].notes == p.notes)
            && (exists i :: 0 <= i < |o| && o[i] == TasksHeading)
  {
    var o, h := Outline(p), Header(p);
    OutlineSplits(p);
    assert forall i :: 0 <= i < |h| ==> o[i] == h[i];
    HeaderSections(p);
  }

  /** The same, for the header alone. */
  lemma HeaderSections(p: Project)
    ensures var h := Header(p);
            && ((exists i :: 0 <= i < |h| && h[i].TagsLine?) <==> p.tagNames != "")
            && (forall i :: 0 <= i < |h| && h[i].TagsLine? ==> h[i].tags == p.tagNames)
            && ((exists i :: 0 <= i < |h| && h[i].DueDateLine?) <==> p.dueDate.Some?)
            && (forall i :: 0 <= i < |h| && h[i].DueDateLine? ==> Some(h[i].due) == p.dueDate)
            && ((exists i :: 0 <= i < |h| && h[i].ProjectNotes?) <==> p.notes != "")
            && (forall i :: 0 <= i < |h| && h[i].ProjectNotes? ==> h[i].notes == p.notes)
            && h[|h| - 1] == TasksHeading
  {
    var h := Header(p);
    if p.tagNames != "" {
      assert h[1].TagsLine?;
    }
    if p.dueDate.Some? {
      var k := if p.tagNames != "" then 2 else 1;
      assert h[k].DueDateLine?;
    }
    if p.notes != "" {
      assert h[|h| - 2].ProjectNotes?;
    }
  }

  /** The to-dos named by the entries of a run of blocks, in order. */
  function EntryTodos(blocks: seq<Block>): seq<Todo> {
    if blocks == [] then []
    else
      var last := blocks[|blocks| - 1];
      EntryTodos(blocks[..|blocks| - 1]) + if last.TaskEntry? then [last.todo] else []
  }

  lemma {:induction false} EntryTodosAppend(a: seq<Block>, b: seq<Block>)
    ensures EntryTodos(a + b) == EntryTodos(a) + EntryTodos(b)
  {
    if b == [] {
      assert a + b == a;
    } else {
      var init := b[..|b| - 1];
      EntryTodosAppend(a, init);
      assert (a + b)[..|a + b| - 1] == a + init;
    }
  }

  lemma {:induction false} EntryTodosOfEntries(todos: seq<Todo>)
    ensures EntryTodos(Entries(todos)) == todos
  {
    if todos != [] {
      var init := todos[..|todos| - 1];
      EntryTodosOfEntries(init);
      EntryTodosAppend(Entries(init), [TaskEntry(todos[|todos| - 1])]);
      assert EntryTodos([TaskEntry(todos[|todos| - 1])]) == [todos[|todos| - 1]];
      assert init + [todos[|todos| - 1]] == todos;
    }
  }

  /** The header names no to-do and holds no notice. */
  lemma HeaderHasNoEntries(p: Project)
    ensures EntryTodos(Header(p)) == []
    ensures forall i :: 0 <= i < |Header(p)| ==> !Header(p)[i].TaskEntry? && Header(p)[i] != NoTasksNotice
  {
    var h := Header(p);
    assert forall i :: 0 <= i < |h| ==> Rank(h[i]) <= 4;
    NoEntries(h);
  }

  /**
   * The to-do list: when it could be read, every to-do has exactly one entry
   * and the entries follow Things 3's order; when it could not, the outline
   * ends with the "No tasks found" notice and has no entry.
   */
  lemma OutlineTodos(p: Project)
    ensures var o := Outline(p);
            && (p.todos.Some? ==> EntryTodos(o) == p.todos.value && (forall i :: 0 <= i < |o| ==> o[i] != NoTasksNotice))
            && (p.todos.None? ==> EntryTodos(o) == [] && o[|o| - 1] == NoTasksNotice)
  {
    match p.todos {
      case None => OutlineWithoutTodos(p);
      case Some(todos) => OutlineWithTodos(p, todos);
    }
  }

  lemma OutlineWithoutTodos(p: Project)
    requires p.todos.None?
    ensures EntryTodos(Outline(p)) == [] && Outline(p)[|Outline(p)| - 1] == NoTasksNotice
  {
    var h, o := Header(p), Outline(p);
    HeaderHasNoEntries(p);
    assert o == h + [NoTasksNotice];
    EntryTodosAppend(h, [NoTasksNotice]);
    assert EntryTodos([NoTasksNotice]) == [];
  }

  lemma OutlineWithTodos(p: Project, todos: seq<Todo>)
    requires p.todos == Some(todos)
    ensures EntryTodos(Outline(p)) == todos
    ensures forall i :: 0 <= i < |Outline(p)| ==> Outline(p)[i] != NoTasksNotice
  {
    var h, o, e := Header(p), Outline(p), Entries(todos);
    HeaderHasNoEntries(p);
    assert o == h + e;
    EntryTodosAppend(h, e);
    EntryTodosOfEntries(todos);
    forall i | 0 <= i < |o| ensures o[i] != NoTasksNotice {
      if i < |h| {
        assert o[i] == h[i];
      } else {
        assert o[i] == e[i - |h|];
      }
    }
  }

  lemma {:induction false} NoEntries(blocks: seq<Block>)
    requires forall i :: 0 <= i < |blocks| ==> !blocks[i].TaskEntry?
    ensures EntryTodos(blocks) == []
  {
    if blocks != [] {
      NoEntries(blocks[..|blocks| - 1]);
    }
  }

  /**
   * What one to-do contributes: a single list line, which starts with "- "
   * and is the placeholder when the name cannot be read, then a note line
   * only when the notes were read and are non-empty.
   */
  lemma TaskEntryText(t: Todo)
    ensures var text := BlockText(TaskEntry(t));
            && text == ListItem(t) + "\n" + NoteLine(t)
            && StartsWith(text, "- ")
            && (t.name.None? ==> text == "- [Error reading task]\n")
            && (t.name.Some? && t.tagNames.Value? && t.tagNames.text != "" ==>
                  ListItem(t) == "- " + t.name.value + " *(" + t.tagNames.text + ")*")
            && (t.name.Some? && !(t.tagNames.Value? && t.tagNames.text != "") ==>
                  ListItem(t) == "- " + t.name.value)
            && (NoteLine(t) != "" <==> t.name.Some? && t.notes.Value? && t.notes.text != "")
            && (NoteLine(t) != "" ==> NoteLine(t) == "  " + t.notes.text + "\n")
  {
    var text, item := BlockText(TaskEntry(t)), ListItem(t);
    assert text == item + ("\n" + NoteLine(t));
    assert text[..2] == item[..2];
  }

  // ------------------------------------------------------------- the run handler

  /** What the script can see of Things 3. */
  datatype ThingsApp = ThingsApp(
    available: bool,              // isThingsAvailable()
    projects: map<string, Project>,  // project <name>
    lookupError: string -> string,  // the message Things 3 raises for a project name it does not know
    commandError: string)         // the message raised when Things 3 is sent a command it does not have

  /** What `run` logs: the Markdown, or the message of the error it caught. */
  datatype RunResult = Exported(markdown: string) | ScriptError(message: string)

  const NotAvailableMessage := "Things 3 is not running or not installed. Please open Things 3 and try again."
  const NameRequiredMessage := "Project name is required."
  const NameEmptyMessage := "Project name cannot be empty."

  /** What `run` has before it exports: the project it looked up, or the message of the first check that failed. */
  datatype Lookup = Found(project: Project) | Failed(message: string)

  /** The checks of `run argv` in order (availability, an argument, a non-empty name), then `project projectName`. */
  function LookUp(app: ThingsApp, argv: seq<string>): (l: Lookup)
    ensures l.Found? ==> |argv| >= 1 && argv[0] in app.projects && l.project == app.projects[argv[0]]
    ensures l.Failed? ==>
              l.message in {NotAvailableMessage, NameRequiredMessage, NameEmptyMessage}
              || (|argv| >= 1 && l.message == app.lookupError(argv[0]))
  {
    if !app.available then Failed(NotAvailableMessage)
    else if |argv| < 1 then Failed(NameRequiredMessage)
    else if argv[0] == "" then Failed(NameEmptyMessage)
    else if argv[0] !in app.projects then Failed(app.lookupError(argv[0]))
    else Found(app.projects[argv[0]])
  }

  /**
   * `run argv` as written: a failed check, or the export, which raises at
   * line 68 for a project with a due date (see `ExportProjectHeader`).
   */
  function Run(app: ThingsApp, argv: seq<string>): (r: RunResult)
    ensures r.ScriptError? ==>
              r.message in {NotAvailableMessage, NameRequiredMessage, NameEmptyMessage, app.commandError}
              || (|argv| >= 1 && r.message == app.lookupError(argv[0]))
    ensures r.Exported? ==> LookUp(app, argv).Found? && LookUp(app, argv).project.dueDate.None?
  {
    match LookUp(app, argv)
    case Failed(message) => ScriptError(message)
    case Found(p) => if p.dueDate.Some? then ScriptError(app.commandError) else Exported(Render(p))
  }

  /**
   * `run argv` as evidently intended, with `my formatDate(projectDueDate)` at
   * line 68: every project that is found is exported, its due date included.
   */
  function RunIntended(app: ThingsApp, argv: seq<string>): (r: RunResult)
    ensures r.Exported? <==> LookUp(app, argv).Found?
    ensures r.Exported? ==> StartsWith(r.markdown, "# " + app.projects[argv[0]].name + "\n\n")
  {
    match LookUp(app, argv)
    case Failed(message) => ScriptError(message)
    case Found(p) => Exported(Render(p))
  }

  /**
   * The program as written differs from the intended one exactly for a
   * project with a due date: it logs the error of line 68 where the intended
   * program exports a document holding the due-date section.
   */
  lemma RunAgainstIntended(app: ThingsApp, argv: seq<string>)
    ensures var l := LookUp(app, argv);
            && (Run(app, argv) != RunIntended(app, argv) <==> l.Found? && l.project.dueDate.Some?)
            && (l.Found? && l.project.dueDate.Some? ==>
                  && Run(app, argv) == ScriptError(app.commandError)
                  && RunIntended(app, argv) == Exported(Render(l.project))
                  && DueDateLine(l.project.dueDate.value) in Outline(l.project))
  {
    var l := LookUp(app, argv);
    if l.Found? && l.project.dueDate.Some? {
      var p := l.project;
      OutlineOptionalSections(p);
      var o := Outline(p);
      var i :| 0 <= i < |o| && o[i].DueDateLine?;
      assert o[i] == DueDateLine(p.dueDate.value);
    }
  }

  /** The text `run` hands to `log`: the Markdown as it is, or the caught message after "Error: ". */
  function LoggedText(r: RunResult): (text: string)
    ensures r.Exported? ==> text == r.markdown
    ensures r.ScriptError? ==> StartsWith(text, "Error: ") && text[7..] == r.message
  {
    match r
    case Exported(markdown) => markdown
    case ScriptError(message) => "Error: " + message
  }

  /**
   * The checks come in order and the first that fails decides the message;
   * a project with a due date fails at line 68; Markdown is produced exactly
   * when all checks pass and the project has no due date.
   */
  lemma RunChecksInOrder(app: ThingsApp, argv: seq<string>)
    ensures var r := Run(app, argv);
            && (!app.available ==> r == ScriptError(NotAvailableMessage))
            && (app.available && |argv| == 0 ==> r == ScriptError(NameRequiredMessage))
            && (app.available && |argv| >= 1 && argv[0] == "" ==> r == ScriptError(NameEmptyMessage))
            && (app.available && |argv| >= 1 && argv[0] != "" && argv[0] !in app.projects ==>
                  r == ScriptError(app.lookupError(argv[0])))
            && ((app.available && |argv| >= 1 && argv[0] != "" && argv[0] in app.projects
                 && app.projects[argv[0]].dueDate.Some?) ==> r == ScriptError(app.commandError))
            && (r.Exported? <==> app.available && |argv| >= 1 && argv[0] != "" && argv[0] in app.projects
                                 && app.projects[argv[0]].dueDate.None?)
            && (r.Exported? ==> r.markdown == Render(app.projects[argv[0]]))
  {
  }

  /**
   * The log tells failure from success: it starts with "Error: " exactly when
   * `run` caught an error, and otherwise with the project's title heading.
   */
  lemma LoggedTextTellsOutcome(app: ThingsApp, argv: seq<string>)
    ensures var r := Run(app, argv);
            && (StartsWith(LoggedText(r), "Error: ") <==> r.ScriptError?)
            && (r.Exported? ==> StartsWith(LoggedText(r), "# " + app.projects[argv[0]].name + "\n\n"))
  {
    var r := Run(app, argv);
    if r.Exported? {
      var title := "# " + app.projects[argv[0]].name + "\n\n";
      assert StartsWith(r.markdown, title);
      assert r.markdown[0] == title[0] == '#';
    } else {
      assert LoggedText(r)[..7] == "Error: ";
    }
  }
}
