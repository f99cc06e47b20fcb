# things2md in Dafny

things2md exports one Things 3 project as Markdown. The Python script
`things2md.py` holds an AppleScript program as a string constant and runs it
through `osascript` with the project name. The script checks that Things 3
is available and that a non-empty project name was given. It looks the
project up and builds the document: a title, optional tags, due date and
notes, a "Tasks" heading and one list line per to-do, each optionally
followed by its note. It logs the result, or `Error: <message>` when a check
or the lookup fails. As written, the due date is never rendered: the call to
`formatDate` at things2md.py:68 sits inside `tell application "Things3"`
without `my`, so it is sent to Things 3, which has no such command, and every
project with a due date is logged as an error (see "## Findings"). The model
gives both the program as written (`Run`) and as evidently intended
(`RunIntended`). The Python side then puts the logged text through
`fix_note_indentation`. That function makes one pass over the lines with a
single `in_note` flag and indents the physical lines of a multi-line note
that the exporter left flush left.

The project has four modules:

- `Text` (text.dfy): splitting on and joining with `'\n'`, and decimal
  rendering of naturals (AppleScript's `n as string`).
- `NoteIndentation` (note_indentation.dfy): `fix_note_indentation`. A
  prefix-recursive specification (`Step`, `NoteStateAfter`, `FixLines`,
  `FixNotes`) sits beside a method with the Python loop (`FixNoteIndentation`).
- `ThingsExport` (things_export.dfy): the AppleScript handlers.
  - `formatDate` is `FormatDate`, with `ParseDate` as its inverse.
  - `exportProjectToMarkdown` is the imperative method
    `ExportProjectToMarkdown`. For a project without a due date it is proved
    equal to `Render`, the concatenation of an outline of blocks; for a
    project with one it ends with the error of things2md.py:68.
  - The `run` validation chain is `LookUp`; `Run` is `run` as written and
    `RunIntended` is `run` with `my formatDate`.
  - What the script reads from Things 3 is an input record, `ThingsApp`.
    It says whether the application is available and maps project names to
    projects. Each project has a name, a tag string, an optional due date,
    notes, and a to-do list that may be unreadable. Each to-do has a name,
    tags and notes, and each of the three may be unreadable.
- `Pipeline` (pipeline.dfy): `main` without its process plumbing
  (`Things2Md`). It reads the exported document line by line and shows
  what the normaliser does to it. A worked example, the Groceries project,
  gives the intended output line by line (`GroceriesExample`, with
  `my formatDate`); as written the program prints only one `Error: …` line
  for it, because Groceries has a due date (`GroceriesAsWritten`).

## Model

| member | source | states |
|---|---|---|
| NoteIndentation.FixNoteIndentation | things2md.py:232-253 | the loop over the split lines, carrying `in_note` and appending to `result`, returns exactly the specification `FixNotes(text)` (loop invariant: result and flag equal `FixLines`/`NoteStateAfter` of the lines consumed) |
| NoteIndentation.Step | things2md.py:239-251 | one iteration emits the line unchanged or with two spaces in front; it adds them exactly when a note is open and the line is a continuation; a list item or heading leaves `in_note` false and a two-space line leaves it true |
| NoteIndentation.KeepsStateStep | things2md.py:245-248 | a blank line or a continuation leaves `in_note` as it was |
| NoteIndentation.FixNotes | things2md.py:232-253 | `fix_note_indentation` on text: split on newlines, one pass, join; splitting the result gives back exactly the fixed lines |
| NoteIndentation.FixLinesNoNewline | things2md.py:238-253 | the pass adds no newline to any line |
| NoteIndentation.FixLines | things2md.py:234-251 | the pass emits exactly one output line per input line |
| NoteIndentation.FixLinesShape | things2md.py:238-251 | every output line is its input line, either unchanged or prefixed with two spaces |
| NoteIndentation.FixLinesAt | things2md.py:238-251 | output line i is input line i put through one loop iteration from the state its predecessors left |
| NoteIndentation.FixLinesSnoc | things2md.py:238-251 | consuming one more line appends that iteration's line to the output and updates the flag by the same iteration |
| NoteIndentation.StateRules | things2md.py:239-251 | per branch: a list item or heading is kept and closes the note; a two-space line is kept and opens it; a blank line is kept and leaves the flag; a continuation is indented exactly when the note is open and leaves the flag; a line with a single leading space is kept and closes the note |
| NoteIndentation.NoteStateAfter | things2md.py:236-251 | the value of `in_note` after the loop has consumed a prefix of the lines, one `Step` per line from `False`; `NoteStateIsNoteOpen` states it without the loop |
| NoteIndentation.NoteStateIsNoteOpen | things2md.py:236-251 | the flag after a prefix is true exactly when some earlier line was indented and every later line was blank or a continuation |
| NoteIndentation.FixLinesExplained | things2md.py:236-251 | without the loop: a line is indented by two spaces exactly when it is a continuation and a note is open before it, and otherwise it is unchanged |
| NoteIndentation.FixLinesKeepsState | things2md.py:242-248 | a second pass over the output reproduces the flag of the first pass |
| NoteIndentation.FixLinesIdempotent | things2md.py:234-251 | a second pass over the output lines changes nothing |
| NoteIndentation.FixNotesIdempotent | things2md.py:232-253 | `fix_note_indentation(fix_note_indentation(t)) == fix_note_indentation(t)` for every text |
| NoteIndentation.FixLinesIdentity | things2md.py:242-251 | when no line starts with two spaces, the lines come out unchanged |
| NoteIndentation.NeverOpens | things2md.py:236-244 | when no line starts with two spaces, `in_note` stays false after every prefix |
| NoteIndentation.FixNotesIdentity | things2md.py:232-253 | text in which no line starts with two spaces is returned unchanged |
| NoteIndentation.StructuralRestarts | things2md.py:239-241 | a list item or heading resets the pass: the output for `a + b` is the output for `a` followed by a fresh pass over `b` |
| NoteIndentation.BlankLineKeepsNoteOpen | things2md.py:245-248 | a blank line does not close a note, so a plain paragraph after a note line and a blank line is indented |
| NoteIndentation.StructuralClosesNote | things2md.py:239-251 | a list item or heading closes any note, so a flush-left line right after it is left as it is |
| NoteIndentation.TrailingBlank | things2md.py:245-246 | a trailing empty line (from a final newline) comes out empty |
| Text.Split | things2md.py:234 | `split('\n')` yields at least one piece and no piece holds a newline |
| Text.JoinSplit | things2md.py:234-253 | joining the pieces of a split with newlines gives back the text |
| Text.Join | things2md.py:253 | `'\n'.join(result)`; with `Split` it is a round trip both ways, stated by `JoinSplit` and `SplitJoin` |
| Text.SplitJoin | things2md.py:234-253 | splitting the newline-join of newline-free lines gives back the lines |
| Text.NatToString | things2md.py:174-180 | `n as string` is decimal digits without a leading zero whose value is n |
| ThingsExport.TwoDigits | things2md.py:174-178 | the month or day string is all digits, and for values below 100 it is exactly two digits with the value n |
| ThingsExport.FormatDate | things2md.py:159-180 | `formatDate` gives "" exactly for `missing value`; its format is stated by `FormatDateRoundTrip`; only the intended program reaches it from line 68 |
| ThingsExport.FormatDateRoundTrip | things2md.py:159-180 | for a valid date, `formatDate` reads back as that date: the year unpadded, a hyphen, the month in two digits, a hyphen, the day in two digits |
| ThingsExport.FormatDateInjective | things2md.py:169-180 | two valid dates with the same rendering are the same date |
| ThingsExport.FormatDateExample | things2md.py:169-180 | 7 March 2024 renders as "2024-03-07" |
| ThingsExport.AppendTodo | things2md.py:84-115 | one pass of `repeat with currentTodo` appends exactly that to-do's entry: its list line, then its note line if any |
| ThingsExport.ExportProjectHeader | things2md.py:54-78 | for a project with a due date, the error raised by the `formatDate` call sent to Things 3 at line 68; otherwise the sequence of `set markdownContent` statements yields the concatenation of the header blocks |
| ThingsExport.ExportProjectToMarkdown | things2md.py:50-122 | for a project with a due date, the error of line 68; otherwise `Render(p)`: the header, then one entry per to-do in order (loop invariant over the to-dos consumed), or the notice when the to-do list cannot be read |
| ThingsExport.BlockText | things2md.py:57-117 | the literal text of each append: `"# " & name & "\n\n"` (57), `"**Tags:** " & tags & "\n\n"` (62), `"**Due Date:** " & formatDate(d) & "\n\n"` (68), `"## Project Notes\n\n" & notes & "\n\n"` (74), `"## Tasks\n\n"` (78), a to-do's list and note lines (86-113, stated by `TaskEntryText`) and the notice (117) |
| ThingsExport.Header | things2md.py:57-78 | the intended header: between two and five blocks, the title first and the "Tasks" heading last, sections in strictly increasing rank; which sections are present is stated by `HeaderSections` |
| ThingsExport.Outline | things2md.py:57-118 | the intended document: the header, then one block per to-do when the list is read or exactly one (the notice) when it is not; the order and contents are stated by `OutlineOrder` and `OutlineTodos` |
| ThingsExport.Entries | things2md.py:84-115 | the to-do list gives one entry per to-do, in Things 3's order |
| ThingsExport.OutlineOrder | things2md.py:57-118 | the document starts with the title; the sections follow in fixed order (tags, due date, notes, "Tasks", then the to-dos or the notice) and none repeats |
| ThingsExport.HeaderSections | things2md.py:57-78 | in the intended header (with `my formatDate`), the tags, due-date and notes sections are each present exactly when their field is set and carry that field; it ends with the "Tasks" heading |
| ThingsExport.OutlineSplits | things2md.py:54-118 | the outline is the header followed only by to-do entries or the notice |
| ThingsExport.OutlineOptionalSections | things2md.py:59-78 | in the whole intended document (with `my formatDate`), each optional section is present exactly when its field is set and carries that field, and the "Tasks" heading is always present |
| ThingsExport.HeaderHasNoEntries | things2md.py:57-78 | the header holds no to-do entry and no notice |
| ThingsExport.EntryTodosOfEntries | things2md.py:84-115 | the to-dos named by the entries are the to-dos in order |
| ThingsExport.OutlineTodos | things2md.py:80-118 | a readable to-do list gives exactly one entry per to-do, in order, and no notice; an unreadable one gives no entry and ends the document with the notice |
| ThingsExport.OutlineWithTodos | things2md.py:82-115 | the readable case of `OutlineTodos` |
| ThingsExport.OutlineWithoutTodos | things2md.py:116-118 | the unreadable case of `OutlineTodos` |
| ThingsExport.Render | things2md.py:50-122 | the Markdown the handler is meant to return for a project, the text of its outline, and what it returns as written for a project without a due date; it starts with `"# " & name & "\n\n"` (line 57) |
| ThingsExport.ListItem | things2md.py:86-113 | the list line without its newline starts with "- ", and it holds no newline when the to-do's name and tags hold none |
| ThingsExport.NoteLine | things2md.py:101-110 | the note line is non-empty exactly when the name and notes were read and the notes are non-empty, and then it starts with two spaces |
| ThingsExport.TaskEntryText | things2md.py:84-115 | a to-do contributes one list line starting with "- ": `- [Error reading task]` when the name cannot be read; `- name *(tags)*` when the tags are read and non-empty; `- name` otherwise; then a note line `"  " & notes` exactly when the name and notes are read and the notes are non-empty |
| ThingsExport.LookUp | things2md.py:20-52 | the project found is the one named by the first argument; a failure carries one of the three messages of `run` or the lookup error Things 3 raises for the name |
| ThingsExport.Run | things2md.py:20-52 | `run` as written: an error it catches carries one of its three messages, the lookup error for the given name, or the error of the `formatDate` call sent to Things 3; Markdown comes only for a found project without a due date |
| ThingsExport.RunIntended | things2md.py:20-52 | `run` with `my formatDate` at line 68: Markdown exactly when the checks and the lookup pass, starting with the project's title heading |
| ThingsExport.RunAgainstIntended | things2md.py:66-69 | as written and intended differ exactly for a found project with a due date: as written it logs the error of line 68, intended it exports `Render(p)`, whose outline holds the due-date line |
| ThingsExport.RunChecksInOrder | things2md.py:20-52 | availability first, then that an argument is present, then a non-empty name, then the lookup, then line 68 raising for a due date; the first failure decides the error message, and Markdown is produced exactly when all checks pass and the project has no due date |
| ThingsExport.LoggedText | things2md.py:42-45 | the Markdown is logged as it is; a caught error is logged as "Error: " followed by its message |
| ThingsExport.LoggedTextTellsOutcome | things2md.py:39-45 | the logged text starts with "Error: " exactly when `run` caught an error (a failed check, the lookup, or line 68 for a due date), and otherwise with the project's title heading |
| Pipeline.Things2Md | things2md.py:272-293 | the script as written (`Run`) run with the name and "--stdout", its logged text put through `fix_note_indentation`; what is printed is already normal, so a further pass changes nothing |
| Pipeline.ErrorPassesThrough | things2md.py:44-45 | a one-line error message comes through `fix_note_indentation` as `Error: <message>`, unchanged |
| Pipeline.SplitRender | things2md.py:234 | when the one-line fields hold no newline, the lines of the export are the blocks' lines in order, plus a final empty line from the last newline |
| Pipeline.FixTaskEntry | things2md.py:239-251 | a to-do's lines after the pass are its list line and then every non-blank line of its notes indented, blank note lines staying blank; the first note line already carries the exporter's two spaces |
| Pipeline.FixEntries | things2md.py:239-241 | each list line restarts the pass, so the to-dos are normalised one by one after whatever precedes them |
| Pipeline.NormalizedExport | things2md.py:287-290 | the fixed export is the fixed header, then either each to-do's normalised lines in order or, when the to-do list cannot be read, the blank line, "No tasks found or error reading tasks" and one blank line unchanged; then the final empty piece after the last newline |
| Pipeline.NormalizedWithTodos | things2md.py:84-115 | the readable case of `NormalizedExport` |
| Pipeline.NormalizedWithoutTodos | things2md.py:116-118 | the unreadable case of `NormalizedExport` |
| Pipeline.HeaderClosesNotes | things2md.py:239-246 | the header ends with "## Tasks" and a blank line, so no note is open after it |
| Pipeline.HeadingClosesNotes | things2md.py:239-246 | after a list item or heading and a blank line, no note is open |
| Pipeline.ClosedPassThrough | things2md.py:245-251 | with no note open, blank lines and continuations pass through unchanged and open none |
| Pipeline.FixedEntryShape | things2md.py:104-106 | after the pass, an entry is its list line and then one line per note line, each blank or indented, each the note line unchanged or with two spaces added |
| Pipeline.GroceriesAsWritten | things2md.py:282-290 | as written, `things2md Groceries --stdout` prints only `Error: ` and the message of the `formatDate` call sent to Things 3, since Groceries has a due date |
| Pipeline.GroceriesExample | things2md.py:282-290 | for the Groceries project, the intended normalised export (with `my formatDate`) is, line by line, the header unchanged, "- Milk", "- Eggs *(dairy)*" and both lines of the Eggs note indented |

## Left out

- `main`'s process plumbing (things2md.py:256-308) is not modelled: the temporary script file, the `osascript` subprocess, taking stderr over stdout, printing and exit codes. `Pipeline.Things2Md` takes the logged text as the script's output.
- `show_usage` and the `--help`/`--version` flags (things2md.py:214-229, 258-264) are left out, because they only print CLI text. `Pipeline.Things2Md` requires the name not to be one of `--help`, `-h`, `--version`, `-v`: `main` answers those itself and never runs the script with them. With no arguments `main` shows usage, so the "Project name is required" branch at things2md.py:267-270 is unreachable and is not modelled.
- `isThingsAvailable` (things2md.py:188-210) queries System Events and Finder. It is the boolean `ThingsApp.available`.
- `formatTaskAsMarkdown` (things2md.py:125-156) is left out, because nothing calls it.
- `ThingsExport.FormatDate`: the fallback `dateValue as string` (things2md.py:181-183) is left out. It is a locale-dependent AppleScript coercion, and in the model reading the year, month and day always succeeds.
- How Things 3 formats `tag names` is not modelled; tags are an opaque string.
- The error text Things 3 raises for an unknown project name is an opaque function of that name, `ThingsApp.lookupError`.
- The error text AppleScript raises when the `formatDate` call at things2md.py:68 reaches Things 3 is an opaque string, `ThingsApp.commandError`.
- `ThingsExport.HeaderSections`: states the sections of the intended header, with `my formatDate`; as written a project with a due date never gets a header (`ThingsExport.RunAgainstIntended`).
- `ThingsExport.OutlineOptionalSections`: states the sections of the intended document; as written its due-date section is never emitted, because line 68 raises whenever the due date is set.
- `ThingsExport.Render`: is the intended document; as written the handler returns it only for a project without a due date (`ThingsExport.ExportProjectToMarkdown`).
- `Pipeline.GroceriesExample`: states the intended output; as written the Groceries project, which has a due date, prints only the error (`Pipeline.GroceriesAsWritten`).
- `Pipeline.NormalizedExport`, `Pipeline.NormalizedWithTodos`, `Pipeline.NormalizedWithoutTodos`, `Pipeline.SplitRender` describe `Render(p)`, which is what the program logs for a project without a due date and what it is meant to log for every project.
- The semantics of AppleScript `log` (where the text goes and any line ending it adds) are left out. The logged text is the string handed to `log`.
- Reading a project's name, tags, due date or notes is assumed to succeed. The script has no handler for those reads, so a failure there falls into `run`'s generic error.
- A failure of `to dos of` is all-or-nothing (`Project.todos == None`). Once the list is read, the loop cannot fail, because each to-do's errors are caught inside it.
- `Pipeline.FixTaskEntry`, `Pipeline.FixEntries`, `Pipeline.NormalizedExport`, `Pipeline.NormalizedWithTodos`, `Pipeline.FixedEntryShape`: when the to-do list is read, these require every to-do's notes to "hold together". Each note line after the first must be blank, a continuation or already indented. A note line that starts with "- ", "#" or a single space closes the note, and its lines are then not described.
- `Pipeline.SplitRender`, `Pipeline.NormalizedExport`, `Pipeline.NormalizedWithTodos`, `Pipeline.NormalizedWithoutTodos`: these require the project name, project tags and to-dos' names and tags to hold no newline. The line-level view does not describe other inputs.
- Behaviour of the code that the model keeps, though a reader might expect otherwise:
  - the year is printed without zero padding (things2md.py:180), so a year below 1000 has fewer than four digits although the comment at things2md.py:168 names the format YYYY-MM-DD;
  - a blank line leaves `in_note` as it is (things2md.py:245-246), so a plain paragraph after a note line and a blank line is indented (`NoteIndentation.BlankLineKeepsNoteOpen`);
  - a list item or heading sets `in_note` to false, so a flush-left line right after a list item falls to the final branch and is left unchanged (`NoteIndentation.StructuralClosesNote`, things2md.py:239-251).

## Findings

| source | as written | input that shows it | evidently intended | confidence | as-written member | corrected member |
|---|---|---|---|---|---|---|
| things2md.py:68 | `formatDate(projectDueDate)` is called inside `tell application "Things3"` without `my`, so AppleScript sends it to Things 3, which has no `formatDate` command; no `try` in `exportProjectToMarkdown` covers the line, and `run` logs `Error: ` and that message instead of the document | the Groceries project, due 2024-03-07 | `my formatDate(projectDueDate)`: the document with a `**Due Date:** 2024-03-07` line | high, not executed | Pipeline.GroceriesAsWritten | ThingsExport.RunIntended |
