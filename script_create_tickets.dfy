/**
 * Turning an approved planning document into GitHub issues (scripts/github/create_tickets.py):
 * the front-matter block and its approval gate, the `- item` subtasks of a task, and the title,
 * body and labels of each ticket. The GitHub client is a function from request to reply.
 */
module CreateTickets {
  import opened Wrappers
  import opened Strs

  // ---------------------------------------------------------------------------
  // Front matter

  const OPEN: string := "---\n"
  const CLOSE: string := "\n---"

  /**
   * The group of `^---\n(.*?)\n---` (dot matching line breaks, `^` only at the start): the text
   * after a leading `---` line up to the first following line break and `---`.
   */
  function FrontMatter(content: string): (r: Option<string>)
    ensures !(|content| >= 4 && content[..4] == OPEN) ==> r == None
  {
    if |content| >= 4 && content[..4] == OPEN then
      match IndexOfFrom(content, CLOSE, 4)
      case None => None
      case Some(j) => Some(content[4..j])
    else None
  }

  /** A block between the two fences is read back whole, whatever follows it. */
  lemma FrontMatterBetweenFences(block: string, rest: string)
    requires !Contains(block, CLOSE)
    ensures FrontMatter(OPEN + block + CLOSE + rest) == Some(block)
  {
    var s := OPEN + block + CLOSE + rest;
    var end := 4 + |block|;
    assert s[..4] == OPEN;
    assert s[4..end] == block;
    assert s[end..end + 4] == CLOSE;
    assert OccursAt(s, CLOSE, end);
    forall j | 4 <= j < end ensures !OccursAt(s, CLOSE, j) {
      if j + 4 <= end {
        assert s[j..j + 4] == block[j - 4..j - 4 + 4];
        assert !OccursAt(block, CLOSE, j - 4);
      } else {
        assert s[end] == '\n';
        assert s[j..j + 4][end - j] == s[end];
      }
    }
    assert IndexOfFrom(s, CLOSE, 4) == Some(end);
  }

  /** `line.split(':', 1)` with both halves stripped, for a line containing a colon. */
  function Field(line: string): Option<(string, string)>
  {
    if ':' in line then
      var i := FirstIndexOfChar(line, ':');
      Some((PyStrip(line[..i]), PyStrip(line[i + 1..])))
    else None
  }

  /** The fields of the lines, one per line; `None` for a line without a colon. */
  function Fields(lines: seq<string>): (r: seq<Option<(string, string)>>)
    ensures |r| == |lines| && forall i :: 0 <= i < |lines| ==> r[i] == Field(lines[i])
  {
    seq(|lines|, i requires 0 <= i < |lines| => Field(lines[i]))
  }

  /** The dict the fields build, in order: a later field overwrites an earlier one of the same key. */
  function Collect(fields: seq<Option<(string, string)>>): map<string, string>
    decreases |fields|
  {
    if fields == [] then map[]
    else
      var before := Collect(fields[..|fields| - 1]);
      var last := fields[|fields| - 1];
      if last.Some? then before[last.value.0 := last.value.1] else before
  }

  /** The metadata of a front-matter block's lines. */
  function Metadata(lines: seq<string>): map<string, string>
  {
    Collect(Fields(lines))
  }

  predicate Sets(field: Option<(string, string)>, key: string)
  {
    field.Some? && field.value.0 == key
  }

  /** The position of the last field that sets `key`, if any. */
  function LastSetter(fields: seq<Option<(string, string)>>, key: string): (r: Option<nat>)
    ensures r.Some? ==> r.value < |fields| && Sets(fields[r.value], key)
    ensures r.Some? ==> forall j :: r.value < j < |fields| ==> !Sets(fields[j], key)
    ensures r.None? ==> forall j :: 0 <= j < |fields| ==> !Sets(fields[j], key)
    decreases |fields|
  {
    if fields == [] then None
    else if Sets(fields[|fields| - 1], key) then Some(|fields| - 1)
    else LastSetter(fields[..|fields| - 1], key)
  }

  /**
   * A key is present exactly when some field names it, and its value is the one of the last
   * such field.
   */
  lemma {:induction false} CollectLastWins(fields: seq<Option<(string, string)>>, key: string)
    ensures key in Collect(fields) <==> LastSetter(fields, key).Some?
    ensures key in Collect(fields) ==> Collect(fields)[key] == fields[LastSetter(fields, key).value].value.1
    decreases |fields|
  {
    if fields != [] {
      CollectLastWins(fields[..|fields| - 1], key);
    }
  }

  /** The loop over `frontmatter.split('\n')` filling the metadata dict. */
  method ReadFrontMatter(block: string) returns (metadata: map<string, string>)
    ensures metadata == Metadata(Split(block, '\n'))
  {
    var lines := Split(block, '\n');
    ghost var fields := Fields(lines);
    metadata := map[];
    var i := 0;
    while i < |lines|
      invariant 0 <= i <= |lines|
      invariant metadata == Collect(fields[..i])
    {
      var field := Field(lines[i]);
      assert field == fields[i];
      CollectStep(fields, i);
      if field.Some? {
        metadata := metadata[field.value.0 := field.value.1];
      }
      i := i + 1;
    }
    assert fields[..i] == fields;
  }

  /** One more field sets its key, if it has one. */
  lemma CollectStep(fields: seq<Option<(string, string)>>, i: nat)
    requires i < |fields|
    ensures Collect(fields[..i + 1])
         == if fields[i].Some? then Collect(fields[..i])[fields[i].value.0 := fields[i].value.1] else Collect(fields[..i])
  {
    assert fields[..i + 1][..i] == fields[..i];
  }

  /** `metadata.get(key, default)`. */
  function Lookup(metadata: map<string, string>, key: string, default: string): string
  {
    if key in metadata then metadata[key] else default
  }

  /** A document may be turned into tickets only when its status reads `approved`. */
  predicate Approved(metadata: map<string, string>)
  {
    Lookup(metadata, "status", "draft") == "approved"
  }

  function NotApprovedMessage(status: string): string
  {
    "Planning document status is '" + status + "', must be 'approved'"
  }

  // ---------------------------------------------------------------------------
  // Tasks

  datatype Task = Task(title: string, description: string, subtasks: seq<string>)

  /** A parsed planning document: `{'metadata', 'tasks', 'file_path'}`. */
  datatype Plan = Plan(metadata: map<string, string>, tasks: seq<Task>, filePath: string)

  /** `re.findall(r'- (.+)', s)`: after each `- `, the rest of its line when that is not empty. */
  function Subtasks(s: string): seq<string>
    decreases |s|
  {
    if |s| < 3 then []
    else if s[0] == '-' && s[1] == ' ' && s[2] != '\n' then
      var item := RestOfLine(s[2..]);
      [item] + Subtasks(s[2 + |item|..])
    else Subtasks(s[1..])
  }

  /** A bulleted list, one `- item` per line. */
  function Bullets(items: seq<string>): string
    decreases |items|
  {
    if items == [] then ""
    else if |items| == 1 then "- " + items[0]
    else "- " + items[0] + "\n" + Bullets(items[1..])
  }

  /** An item is the rest of its line after `- `. */
  lemma SubtasksStep(item: string, rest: string)
    requires item != "" && '\n' !in item
    requires rest == [] || rest[0] == '\n'
    ensures Subtasks("- " + item + rest) == [item] + Subtasks(rest)
  {
    var s := "- " + item + rest;
    assert s[2..] == item + rest;
    assert s[2] == item[0];
    assert item[0] in item;
    RestOfLineStops(item, rest);
    assert s[2 + |item|..] == rest;
  }

  /** A line break on its own starts no item. */
  lemma SubtasksSkipBreak(t: string)
    ensures Subtasks("\n" + t) == Subtasks(t)
  {
    assert ("\n" + t)[1..] == t;
  }

  /** The items of a bulleted list are found again, in order. */
  lemma {:induction false} SubtasksOfBullets(items: seq<string>)
    requires forall k :: 0 <= k < |items| ==> items[k] != "" && '\n' !in items[k]
    ensures Subtasks(Bullets(items)) == items
    decreases |items|
  {
    if |items| == 1 {
      SubtasksStep(items[0], "");
      assert Bullets(items) == "- " + items[0] + "";
      assert items == [items[0]];
    } else if |items| > 1 {
      var rest := "\n" + Bullets(items[1..]);
      assert Bullets(items) == "- " + items[0] + rest;
      SubtasksStep(items[0], rest);
      SubtasksSkipBreak(Bullets(items[1..]));
      SubtasksOfBullets(items[1..]);
      assert items == [items[0]] + items[1..];
    }
  }

  /** A task found by the numbered-item pattern: its title and description are stripped. */
  function TaskOf(rawTitle: string, rawDescription: string): Task
  {
    var description := PyStrip(rawDescription);
    Task(PyStrip(rawTitle), description, Subtasks(description))
  }

  /** The metadata of the document: empty when there is no front matter. */
  function PlanMetadata(content: string): map<string, string>
  {
    match FrontMatter(content)
    case None => map[]
    case Some(block) => Metadata(Split(block, '\n'))
  }

  /**
   * `parse_planning_document`: read the front matter and refuse a document that is not approved.
   * `matches` are the (title, description) groups of the numbered items of the tasks section.
   */
  method ParsePlanningDocument(content: string, matches: seq<(string, string)>, filePath: string)
    returns (r: Result<Plan>)
    ensures r.Ok? <==> Approved(PlanMetadata(content))
    ensures r.Err? ==> r.error == NotApprovedMessage(Lookup(PlanMetadata(content), "status", "draft"))
    ensures r.Ok? ==> r.value.metadata == PlanMetadata(content) && r.value.filePath == filePath
    ensures r.Ok? ==> |r.value.tasks| == |matches|
    ensures r.Ok? ==> forall i :: 0 <= i < |matches| ==> r.value.tasks[i] == TaskOf(matches[i].0, matches[i].1)
  {
    var metadata: map<string, string> := map[];
    var block := FrontMatter(content);
    if block.Some? {
      metadata := ReadFrontMatter(block.value);
    }
    assert metadata == PlanMetadata(content);
    var status := Lookup(metadata, "status", "draft");
    if status != "approved" {
      return Err(NotApprovedMessage(status));
    }
    var tasks := ReadTasks(matches);
    return Ok(Plan(metadata, tasks, filePath));
  }

  /** The loop over the numbered items appending one task each. */
  method ReadTasks(matches: seq<(string, string)>) returns (tasks: seq<Task>)
    ensures |tasks| == |matches|
    ensures forall i :: 0 <= i < |matches| ==> tasks[i] == TaskOf(matches[i].0, matches[i].1)
  {
    tasks := [];
    var i := 0;
    while i < |matches|
      invariant 0 <= i <= |matches| && |tasks| == i
      invariant forall k :: 0 <= k < i ==> tasks[k] == TaskOf(matches[k].0, matches[k].1)
    {
      tasks := tasks + [TaskOf(matches[i].0, matches[i].1)];
      i := i + 1;
    }
  }

  /** Without front matter the status is taken to be `draft`, and the document is refused. */
  lemma NoFrontMatterIsDraft(content: string)
    requires FrontMatter(content).None?
    ensures !Approved(PlanMetadata(content))
    ensures Lookup(PlanMetadata(content), "status", "draft") == "draft"
  {
  }

  // ---------------------------------------------------------------------------
  // Tickets

  datatype Ticket = Ticket(title: string, body: string, labels: seq<string>)

  /** The `- [ ] <subtask>` checklist lines, joined by line breaks. */
  function Checklist(subtasks: seq<string>): string
  {
    Join(seq(|subtasks|, k requires 0 <= k < |subtasks| => "- [ ] " + subtasks[k]), "\n")
  }

  const NOTES_AND_DEPENDENCIES: string :=
    "## Implementation Notes\n- Follow TDD: Write tests first\n- Ensure all tests pass before committing\n"
    + "- Update documentation if needed\n- Check for reusable code\n\n"
    + "## Dependencies\nCheck planning document for dependencies on other tasks.\n"

  function ProgressLine(taskNumber: nat, totalTasks: nat): string
  {
    "This is task " + NatToStr(taskNumber) + " of " + NatToStr(totalTasks) + " for this feature."
  }

  /** The body's first section without its closing blank line. */
  function Opening(task: Task): string
  {
    "## Description\n" + task.description
  }

  /** The body's sections up to and including the `## Task Progress` heading. */
  function BodyHead(task: Task, featureId: string, planFilePath: string): string
  {
    Opening(task)
    + ("\n\n## Acceptance Criteria\n" + Checklist(task.subtasks)
       + "\n\n## Planning Document\nDefined in: `" + planFilePath + "`\nFeature ID: " + featureId
       + "\n\n## Task Progress\n")
  }

  /** The issue body of `create_ticket_from_task`. */
  function TicketBody(task: Task, featureId: string, planFilePath: string, taskNumber: nat, totalTasks: nat): string
  {
    BodyHead(task, featureId, planFilePath) + (ProgressLine(taskNumber, totalTasks) + ("\n\n" + NOTES_AND_DEPENDENCIES))
  }

  /** The issue for task `taskNumber` of `totalTasks`. */
  function TicketFor(task: Task, metadata: map<string, string>, planFilePath: string, taskNumber: nat, totalTasks: nat): Ticket
  {
    Ticket(
      "[Feature] " + task.title,
      TicketBody(task, Lookup(metadata, "id", "FEAT-XXX"), planFilePath, taskNumber, totalTasks),
      ["feature", "priority:" + Lookup(metadata, "priority", "medium")])
  }

  /** Where the parts of `a + (b + c)` sit. */
  lemma Parts(a: string, b: string, c: string)
    ensures OccursAt(a + (b + c), b, |a|)
    ensures (a + (b + c))[|a + (b + c)| - |c|..] == c
  {
    assert (a + (b + c))[|a|..] == b + c;
  }

  /** `x` is a prefix of `(x + y) + z`. */
  lemma PrefixOfParts(x: string, y: string, z: string)
    ensures |x| <= |(x + y) + z| && ((x + y) + z)[..|x|] == x
  {
    assert ((x + y) + z)[..|x|] == (x + y)[..|x|];
  }

  /**
   * The body opens with the description, states the task's position among all tasks right after
   * the `## Task Progress` heading, and ends with the fixed notes.
   */
  lemma TicketBodyStates(task: Task, featureId: string, planFilePath: string, taskNumber: nat, totalTasks: nat)
    ensures var body := TicketBody(task, featureId, planFilePath, taskNumber, totalTasks);
            && |Opening(task)| <= |body| && body[..|Opening(task)|] == Opening(task)
            && OccursAt(body, ProgressLine(taskNumber, totalTasks), |BodyHead(task, featureId, planFilePath)|)
            && body[|body| - |NOTES_AND_DEPENDENCIES|..] == NOTES_AND_DEPENDENCIES
  {
    var p := ProgressLine(taskNumber, totalTasks);
    var tail := "\n\n" + NOTES_AND_DEPENDENCIES;
    var head := BodyHead(task, featureId, planFilePath);
    Parts(head, p, tail);
    Parts(head + p, "\n\n", NOTES_AND_DEPENDENCIES);
    assert head + (p + tail) == (head + p) + ("\n\n" + NOTES_AND_DEPENDENCIES);
    var rest := head[|Opening(task)|..];
    assert head == Opening(task) + rest;
    PrefixOfParts(Opening(task), rest, p + tail);
  }

  /** Every subtask appears in the checklist as an unchecked box, in order. */
  lemma ChecklistLines(subtasks: seq<string>)
    requires forall k :: 0 <= k < |subtasks| ==> '\n' !in subtasks[k]
    ensures Split(Checklist(subtasks), '\n') == if subtasks == [] then [""] else seq(|subtasks|, k requires 0 <= k < |subtasks| => "- [ ] " + subtasks[k])
  {
    var lines := seq(|subtasks|, k requires 0 <= k < |subtasks| => "- [ ] " + subtasks[k]);
    if subtasks != [] {
      forall k | 0 <= k < |lines| ensures '\n' !in lines[k] {
        assert lines[k] == "- [ ] " + subtasks[k];
      }
      SplitJoin(lines, '\n');
    } else {
      assert Checklist(subtasks) == "";
    }
  }

  /** The labels: `feature` and the document's priority, `medium` when it names none. */
  lemma TicketLabels(task: Task, metadata: map<string, string>, planFilePath: string, taskNumber: nat, totalTasks: nat)
    ensures var t := TicketFor(task, metadata, planFilePath, taskNumber, totalTasks);
            && t.labels[0] == "feature"
            && ("priority" !in metadata ==> t.labels == ["feature", "priority:medium"])
            && ("priority" in metadata ==> t.labels[1] == "priority:" + metadata["priority"])
            && t.title[..10] == "[Feature] " && t.title[10..] == task.title
  {
    assert "priority:" + "medium" == "priority:medium";
  }

  /** The issues of a plan: task `i` (from 0) becomes issue `i + 1` of `|plan.tasks|`. */
  function Tickets(plan: Plan): (r: seq<Ticket>)
    ensures |r| == |plan.tasks|
  {
    seq(|plan.tasks|, i requires 0 <= i < |plan.tasks| => TicketFor(plan.tasks[i], plan.metadata, plan.filePath, i + 1, |plan.tasks|))
  }

  /**
   * The creation loop of `main`: the tickets are sent in order. A failed request raises, so the
   * tickets before it have been created and the rest are not attempted.
   */
  method CreateEach(tickets: seq<Ticket>, create: Ticket -> Result<nat>) returns (sent: seq<Ticket>, created: Result<seq<nat>>)
    ensures |sent| <= |tickets| && sent == tickets[..|sent|]
    ensures forall i :: 0 <= i < |sent| - 1 ==> create(sent[i]).Ok?
    ensures created.Ok? <==> sent == tickets && forall i :: 0 <= i < |sent| ==> create(sent[i]).Ok?
    ensures created.Ok? ==> |created.value| == |sent| && forall i :: 0 <= i < |sent| ==> created.value[i] == create(sent[i]).value
    ensures created.Err? ==> sent != [] && create(sent[|sent| - 1]).Err? && created.error == create(sent[|sent| - 1]).error
  {
    var numbers: seq<nat> := [];
    var idx := 0;
    while idx < |tickets|
      invariant 0 <= idx <= |tickets| && |numbers| == idx
      invariant forall i :: 0 <= i < idx ==> create(tickets[i]).Ok? && numbers[i] == create(tickets[i]).value
    {
      var issue := create(tickets[idx]);
      if issue.Err? {
        return tickets[..idx + 1], Err(issue.error);
      }
      numbers := numbers + [issue.value];
      idx := idx + 1;
    }
    assert tickets[..|tickets|] == tickets;
    return tickets, Ok(numbers);
  }

  /** `main` after parsing: one issue per task, numbered 1..n in document order. */
  method CreateAll(plan: Plan, create: Ticket -> Result<nat>) returns (sent: seq<Ticket>, created: Result<seq<nat>>)
    ensures |sent| <= |plan.tasks|
    ensures forall i :: 0 <= i < |sent| ==>
              sent[i] == TicketFor(plan.tasks[i], plan.metadata, plan.filePath, i + 1, |plan.tasks|)
    ensures forall i :: 0 <= i < |sent| - 1 ==> create(sent[i]).Ok?
    ensures created.Ok? <==> |sent| == |plan.tasks| && forall i :: 0 <= i < |sent| ==> create(sent[i]).Ok?
    ensures created.Ok? ==> |created.value| == |sent| && forall i :: 0 <= i < |sent| ==> created.value[i] == create(sent[i]).value
    ensures created.Err? ==> sent != [] && create(sent[|sent| - 1]).Err? && created.error == create(sent[|sent| - 1]).error
  {
    var tickets := Tickets(plan);
    sent, created := CreateEach(tickets, create);
    forall i | 0 <= i < |sent|
      ensures sent[i] == TicketFor(plan.tasks[i], plan.metadata, plan.filePath, i + 1, |plan.tasks|)
    {
      assert sent[i] == tickets[i];
    }
  }
}
