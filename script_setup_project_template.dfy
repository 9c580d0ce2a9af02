/**
 * The one-time template setup of scripts/github/setup_project_template.py: whether an existing
 * template is kept, which listed project becomes the template, and how `.env` is rewritten to
 * name it. The user's answers, the project list and the file contents are inputs.
 */
module SetupProjectTemplate {
  import opened Wrappers
  import opened Strs

  /** A node of the project list: its number and title. */
  datatype Project = Project(number: int, title: string)

  /** `response not in ['y', 'yes']` after `.strip().lower()`: the existing template is kept. */
  predicate KeepsExisting(answer: string)
  {
    var a := Lower(PyStrip(answer));
    a != "y" && a != "yes"
  }

  /** `response not in ['n', 'no']` after `.strip().lower()`: the guess is accepted. */
  predicate AcceptsGuess(answer: string)
  {
    var a := Lower(PyStrip(answer));
    a != "n" && a != "no"
  }

  /** The title names a template: it contains `template` or `kanban`, case aside. */
  predicate LooksLikeTemplate(p: Project)
  {
    Contains(Lower(p.title), "template") || Contains(Lower(p.title), "kanban")
  }

  /** The position of the first listed project whose title looks like a template. */
  function FirstTemplate(projects: seq<Project>): (k: Option<nat>)
    ensures k.Some? ==> k.value < |projects| && LooksLikeTemplate(projects[k.value])
    ensures k.Some? ==> forall j :: 0 <= j < k.value ==> !LooksLikeTemplate(projects[j])
    ensures k.None? ==> forall j :: 0 <= j < |projects| ==> !LooksLikeTemplate(projects[j])
    decreases |projects|
  {
    if projects == [] then None
    else if LooksLikeTemplate(projects[0]) then Some(0)
    else
      var rest := FirstTemplate(projects[1..]);
      assert forall j :: 0 < j < |projects| ==> projects[j] == projects[1..][j - 1];
      match rest
      case None => None
      case Some(k) => Some(k + 1)
  }

  /** The search for a likely template: the first listed project whose title looks like one. */
  method GuessTemplate(projects: seq<Project>) returns (guess: Option<nat>)
    ensures guess == FirstTemplate(projects)
    ensures guess.Some? ==> guess.value < |projects| && LooksLikeTemplate(projects[guess.value])
    ensures guess.None? ==> forall j :: 0 <= j < |projects| ==> !LooksLikeTemplate(projects[j])
  {
    var i := 0;
    while i < |projects|
      invariant 0 <= i <= |projects|
      invariant forall j :: 0 <= j < i ==> !LooksLikeTemplate(projects[j])
    {
      var title := Lower(projects[i].title);
      if Contains(title, "template") || Contains(title, "kanban") {
        return Some(i);
      }
      i := i + 1;
    }
    return None;
  }

  /** `any(p['number'] == n for p in projects)`. */
  predicate Listed(projects: seq<Project>, n: int)
  {
    exists j :: 0 <= j < |projects| && projects[j].number == n
  }

  /**
   * One answer to the manual prompt: the number `int(answer.strip())` when it names a listed
   * project, `None` when the answer is not a number or names no listed project.
   */
  function Entry(projects: seq<Project>, answer: string): Option<int>
  {
    var v := PyInt(PyStrip(answer));
    if v.Some? && Listed(projects, v.value) then v else None
  }

  /**
   * Where a prompt loop settles that asks again until an answer is accepted: the value of the
   * first accepted answer and how many answers were read up to it. The answers run out (`None`)
   * only where `input` would meet the end of its input.
   */
  function Prompted(read: string -> Option<int>, answers: seq<string>): (Option<int>, nat)
    decreases |answers|
  {
    if answers == [] then (None, 0)
    else if read(answers[0]).Some? then (read(answers[0]), 1)
    else
      var rest := Prompted(read, answers[1..]);
      (rest.0, rest.1 + 1)
  }

  /** Reading from position `i` stops there exactly when that answer is accepted. */
  lemma PromptedStep(read: string -> Option<int>, answers: seq<string>, i: nat)
    requires i < |answers|
    ensures Prompted(read, answers[i..])
         == if read(answers[i]).Some? then (read(answers[i]), 1)
            else (Prompted(read, answers[i + 1..]).0, Prompted(read, answers[i + 1..]).1 + 1)
  {
    assert answers[i..][0] == answers[i] && answers[i..][1..] == answers[i + 1..];
  }

  /** The manual prompt settled over the given answers, each judged by `Entry`. */
  function PromptedEntry(projects: seq<Project>, answers: seq<string>): (Option<int>, nat)
  {
    Prompted(EntryReader(projects), answers)
  }

  /** `Entry` for the listed projects, as the judge of one answer. */
  function EntryReader(projects: seq<Project>): string -> Option<int>
  {
    a => Entry(projects, a)
  }

  /** The number the manual prompt settles on is a listed project's, read from the first accepted answer. */
  lemma PromptedEntryListed(projects: seq<Project>, answers: seq<string>)
    ensures var (chosen, used) := PromptedEntry(projects, answers);
            used <= |answers|
            && (chosen.Some? ==>
                  0 < used && chosen == Entry(projects, answers[used - 1]) && Listed(projects, chosen.value))
            && forall k :: 0 <= k < used - 1 ==> Entry(projects, answers[k]).None?
  {
    PromptedChoosesFirstAccepted(EntryReader(projects), answers);
  }

  /** The prompt loop for a project number: each answer is judged by `Entry`. */
  method AskProjectNumber(projects: seq<Project>, answers: seq<string>) returns (chosen: Option<int>, used: nat)
    ensures (chosen, used) == PromptedEntry(projects, answers)
  {
    chosen, used := PromptLoop(EntryReader(projects), answers);
  }

  /** The `while True` loop: one answer at a time until `read` accepts one or the answers run out. */
  method PromptLoop(read: string -> Option<int>, answers: seq<string>) returns (chosen: Option<int>, used: nat)
    ensures (chosen, used) == Prompted(read, answers)
  {
    var i := 0;
    while i < |answers|
      invariant 0 <= i <= |answers|
      invariant Prompted(read, answers) == (Prompted(read, answers[i..]).0, Prompted(read, answers[i..]).1 + i)
    {
      var n := read(answers[i]);
      PromptedStep(read, answers, i);
      if n.Some? {
        return n, i + 1;
      }
      i := i + 1;
    }
    assert answers[i..] == [];
    return None, i;
  }

  /**
   * The loop reads answers until the first accepted one, whose value it returns; every earlier
   * answer is rejected; nothing is returned only when no answer is accepted, and then all were read.
   */
  lemma {:induction false} PromptedChoosesFirstAccepted(read: string -> Option<int>, answers: seq<string>)
    ensures var (chosen, used) := Prompted(read, answers);
            && used <= |answers|
            && (forall k :: 0 <= k < used - 1 ==> read(answers[k]).None?)
            && (chosen.Some? <==> exists k :: 0 <= k < |answers| && read(answers[k]).Some?)
            && (chosen.Some? ==> 0 < used && chosen == read(answers[used - 1]))
            && (chosen.None? ==> used == |answers|)
    decreases |answers|
  {
    if answers != [] && read(answers[0]).None? {
      var tail := answers[1..];
      PromptedChoosesFirstAccepted(read, tail);
      assert forall k :: 0 < k < |answers| ==> answers[k] == tail[k - 1];
      if exists k :: 0 <= k < |answers| && read(answers[k]).Some? {
        var k :| 0 <= k < |answers| && read(answers[k]).Some?;
        assert read(tail[k - 1]).Some?;
      }
    }
  }

  const KEY: string := "GITHUB_TEMPLATE_PROJECT_NUMBER="
  const MARKER: string := "# AUTO-POPULATED"

  /** The assignment line written for the chosen number. */
  function Assignment(n: int): string
  {
    KEY + IntToStr(n)
  }

  /**
   * `re.sub(r'GITHUB_TEMPLATE_PROJECT_NUMBER=.*', assignment, s)`: every occurrence of the key is
   * replaced, together with the rest of its line, by the assignment; the line break stays.
   */
  function SubAssignments(s: string, assignment: string): string
    decreases |s|
  {
    if s == [] then []
    else if OccursAt(s, KEY, 0) then
      var value := RestOfLine(s[|KEY|..]);
      assignment + SubAssignments(s[|KEY| + |value|..], assignment)
    else [s[0]] + SubAssignments(s[1..], assignment)
  }

  /** The new `.env` text: the key's lines rewritten, else the line put before each marker, else appended. */
  function NewEnv(content: string, n: int): string
  {
    if Contains(content, KEY) then SubAssignments(content, Assignment(n))
    else if Contains(content, MARKER) then ReplaceAll(content, MARKER, Assignment(n) + "\n\n" + MARKER)
    else content + "\n" + Assignment(n) + "\n"
  }

  /** `current_template and current_template.strip()`: a template is already configured. */
  predicate Configured(setting: Option<string>)
  {
    setting.Some? && setting.value != "" && PyStrip(setting.value) != ""
  }

  /** The outcome of a run: its exit code and the `.env` text written, if any. */
  datatype Outcome = Outcome(code: int, written: Option<string>)

  /**
   * The project `main` settles on: the guessed template unless the answer declines it (or its
   * number is 0, which `if not project_number` treats as none), else the first accepted manual
   * answer.
   */
  function GuessOrPrompted(projects: seq<Project>, guessAnswer: string, manualAnswers: seq<string>): Option<int>
  {
    var g := FirstTemplate(projects);
    if g.Some? && AcceptsGuess(guessAnswer) && projects[g.value].number != 0 then Some(projects[g.value].number)
    else PromptedEntry(projects, manualAnswers).0
  }

  /**
   * `main` after authentication. `configured` is `GITHUB_TEMPLATE_PROJECT_NUMBER` from the
   * environment, `changeAnswer` and `guessAnswer` the replies to the two yes/no prompts,
   * `manualAnswers` the replies to the number prompt and `env` the `.env` text, `None` when the
   * file does not exist.
   */
  method Setup(configured: Option<string>, changeAnswer: string, projects: seq<Project>,
               guessAnswer: string, manualAnswers: seq<string>, env: Option<string>)
    returns (out: Outcome, chosen: Option<int>)
    ensures Configured(configured) && KeepsExisting(changeAnswer) ==> out == Outcome(0, None)
    ensures out.code == 0 || out.code == 1
    ensures out.code == 0 <==> out.written.Some? || (Configured(configured) && KeepsExisting(changeAnswer))
    ensures out.written.Some? <==> !(Configured(configured) && KeepsExisting(changeAnswer)) && projects != [] && chosen.Some? && env.Some?
    ensures out.written.Some? ==> chosen.Some? && env.Some? && out.written.value == NewEnv(env.value, chosen.value)
    ensures out.written.Some? ==> Listed(projects, chosen.value)
    ensures projects == [] ==> out.written.None?
    ensures env.None? ==> out.written.None?
    ensures !(Configured(configured) && KeepsExisting(changeAnswer)) && projects != [] ==>
              chosen == GuessOrPrompted(projects, guessAnswer, manualAnswers)
  {
    if Configured(configured) {
      var response := Lower(PyStrip(changeAnswer));
      if response != "y" && response != "yes" {
        return Outcome(0, None), None;
      }
    }
    if projects == [] {
      return Outcome(1, None), None;
    }
    var guess := GuessTemplate(projects);
    var number: Option<int> := None;
    if guess.Some? {
      var response := Lower(PyStrip(guessAnswer));
      if response != "n" && response != "no" {
        number := Some(projects[guess.value].number);
      }
    }
    if number.None? || number.value == 0 {
      var used;
      number, used := AskProjectNumber(projects, manualAnswers);
      PromptedEntryListed(projects, manualAnswers);
      if number.None? {
        // `input` raises EOFError: the script ends with an error and writes nothing.
        return Outcome(1, None), None;
      }
    } else {
      assert Listed(projects, number.value) by {
        assert projects[guess.value].number == number.value;
      }
    }
    if env.None? {
      return Outcome(1, None), number;
    }
    var content := env.value;
    if Contains(content, KEY) {
      content := SubAssignments(content, Assignment(number.value));
    } else if Contains(content, MARKER) {
      content := ReplaceAll(content, MARKER, Assignment(number.value) + "\n\n" + MARKER);
    } else {
      content := content + "\n" + Assignment(number.value) + "\n";
    }
    return Outcome(0, Some(content)), number;
  }

  // ---------------------------------------------------------------------------
  // Properties of the `.env` rewrite

  /** An assignment line, whatever its value, becomes the new assignment; the line break stays. */
  lemma SubOneLine(value: string, rest: string, assignment: string)
    requires '\n' !in value
    requires rest == [] || rest[0] == '\n'
    ensures SubAssignments(KEY + value + rest, assignment) == assignment + SubAssignments(rest, assignment)
  {
    var s := KEY + value + rest;
    assert OccursAt(s, KEY, 0) by { assert s[..|KEY|] == KEY; }
    assert s[|KEY|..] == value + rest;
    RestOfLineStops(value, rest);
    assert s[|KEY| + |value|..] == rest;
  }

  /** Text without the key is left as it is. */
  lemma {:induction false} SubWithoutKey(s: string, assignment: string)
    requires !Contains(s, KEY)
    ensures SubAssignments(s, assignment) == s
    decreases |s|
  {
    if s != [] {
      assert !OccursAt(s, KEY, 0);
      ContainsTail(s, KEY);
      SubWithoutKey(s[1..], assignment);
    }
  }

  /** A line that assigns the key: the key and a value on one line. */
  predicate AssignsKey(line: string)
  {
    |line| >= |KEY| && line[..|KEY|] == KEY && '\n' !in line[|KEY|..]
  }

  /**
   * A file that assigns the key once keeps the text before and after the assignment and carries
   * the new assignment in its place.
   */
  lemma RewritesTheAssignment(before: string, line: string, after: string, n: int)
    requires !Contains(before, KEY) && !Contains(after, KEY)
    requires AssignsKey(line)
    requires after == [] || after[0] == '\n'
    ensures NewEnv(before + line + after, n) == before + Assignment(n) + after
  {
    var t := line + after;
    assert OccursAt(t, KEY, 0) by { assert t[..|KEY|] == line[..|KEY|]; }
    assert before + line + after == before + t;
    HasKey(before, t);
    NewEnvWithKey(before + t, n);
    SubRewritesLine(before, line, after, Assignment(n));
  }

  /** With the key present, the new text is the key's lines rewritten. */
  lemma NewEnvWithKey(content: string, n: int)
    requires Contains(content, KEY)
    ensures NewEnv(content, n) == SubAssignments(content, Assignment(n))
  {
  }

  /** Rewriting the one assignment line between text without the key puts the new line in its place. */
  lemma SubRewritesLine(before: string, line: string, after: string, a: string)
    requires !Contains(before, KEY) && !Contains(after, KEY)
    requires AssignsKey(line)
    requires after == [] || after[0] == '\n'
    ensures SubAssignments(before + line + after, a) == before + a + after
  {
    var t := line + after;
    assert OccursAt(t, KEY, 0) by { assert t[..|KEY|] == line[..|KEY|]; }
    assert before + line + after == before + t;
    SubPrefix(before, t, a);
    SubAssignmentLine(line, after, a);
    SubWithoutKey(after, a);
    assert before + (a + after) == before + a + after;
  }

  lemma HasKey(before: string, t: string)
    requires OccursAt(t, KEY, 0)
    ensures Contains(before + t, KEY)
  {
    var s := before + t;
    assert s[|before|..|before| + |KEY|] == t[..|KEY|];
    assert OccursAt(s, KEY, |before|);
  }

  /** An assignment line followed by the end of the text or a line break becomes the new assignment. */
  lemma SubAssignmentLine(line: string, after: string, a: string)
    requires AssignsKey(line)
    requires after == [] || after[0] == '\n'
    ensures SubAssignments(line + after, a) == a + SubAssignments(after, a)
  {
    var t := line + after;
    assert OccursAt(t, KEY, 0) by { assert t[..|KEY|] == line[..|KEY|]; }
    var value := line[|KEY|..];
    assert t[|KEY|..] == value + after;
    RestOfLineStops(value, after);
    assert t[|KEY| + |value|..] == after;
  }

  /** Text without the key is copied up to the first occurrence, one character at a time. */
  lemma {:induction false} SubPrefix(before: string, t: string, assignment: string)
    requires !Contains(before, KEY)
    requires OccursAt(t, KEY, 0)
    ensures SubAssignments(before + t, assignment) == before + SubAssignments(t, assignment)
    decreases |before|
  {
    if before != [] {
      SubPrefixStep(before, t, assignment);
      SubPrefix(before[1..], t, assignment);
      assert before == [before[0]] + before[1..];
    } else {
      assert before + t == t;
    }
  }

  /** The first character of text without the key is copied ahead of the key. */
  lemma SubPrefixStep(before: string, t: string, assignment: string)
    requires before != [] && !Contains(before, KEY)
    requires OccursAt(t, KEY, 0)
    ensures SubAssignments(before + t, assignment) == [before[0]] + SubAssignments(before[1..] + t, assignment)
    ensures !Contains(before[1..], KEY)
  {
    var s := before + t;
    KeyHasOneG();
    NoOccurrenceAcross(before, t, KEY);
    SubStep(s, assignment);
    assert s[1..] == before[1..] + t;
    ContainsTail(before, KEY);
  }

  /** `G` is the key's first character and appears nowhere else in it. */
  lemma KeyHasOneG()
    ensures forall i :: 0 < i < |KEY| ==> KEY[i] != KEY[0]
  {
  }

  /** Where the key does not start, the first character is copied. */
  lemma SubStep(s: string, assignment: string)
    requires s != [] && !OccursAt(s, KEY, 0)
    ensures SubAssignments(s, assignment) == [s[0]] + SubAssignments(s[1..], assignment)
  {
  }

  /** Without the key but with a marker, the marker is preceded by the new assignment and a blank line. */
  lemma InsertsBeforeMarker(before: string, after: string, n: int)
    requires !Contains(before + MARKER + after, KEY)
    requires !Contains(before, MARKER) && !Contains(after, MARKER)
    ensures NewEnv(before + MARKER + after, n) == before + (Assignment(n) + "\n\n" + MARKER) + after
  {
    var rep := Assignment(n) + "\n\n" + MARKER;
    var t := MARKER + after;
    var s := before + t;
    assert s == before + MARKER + after;
    assert OccursAt(t, MARKER, 0) by { assert t[..|MARKER|] == MARKER; }
    assert OccursAt(s, MARKER, |before|) by { assert s[|before|..|before| + |MARKER|] == t[..|MARKER|]; }
    ReplacePrefix(before, t, rep);
    assert t[|MARKER|..] == after;
    assert ReplaceAll(t, MARKER, rep) == rep + ReplaceAll(after, MARKER, rep);
    ReplaceAllAbsent(after, MARKER, rep);
  }

  /** Text without the marker is copied up to the first marker. */
  lemma {:induction false} ReplacePrefix(before: string, t: string, rep: string)
    requires !Contains(before, MARKER)
    requires OccursAt(t, MARKER, 0)
    ensures ReplaceAll(before + t, MARKER, rep) == before + ReplaceAll(t, MARKER, rep)
    decreases |before|
  {
    if before != [] {
      var s := before + t;
      MarkerHasOneHash();
      NoOccurrenceAcross(before, t, MARKER);
      assert |s| >= |MARKER|;
      assert s[1..] == before[1..] + t;
      ContainsTail(before, MARKER);
      assert ReplaceAll(s, MARKER, rep) == [s[0]] + ReplaceAll(s[1..], MARKER, rep);
      ReplacePrefix(before[1..], t, rep);
      assert s[0] == before[0];
      assert before == [before[0]] + before[1..];
    } else {
      assert before + t == t;
    }
  }

  /** `#` is the marker's first character and appears nowhere else in it. */
  lemma MarkerHasOneHash()
    ensures forall i :: 0 < i < |MARKER| ==> MARKER[i] != MARKER[0]
  {
  }

  /** Without the key or a marker, the assignment is appended on a line of its own. */
  lemma NewEnvAssigns(content: string, n: int)
    requires !Contains(content, KEY) && !Contains(content, MARKER)
    ensures NewEnv(content, n) == content + "\n" + Assignment(n) + "\n"
    ensures OccursAt(NewEnv(content, n), Assignment(n) + "\n", |content| + 1)
  {
    var r := content + "\n" + Assignment(n) + "\n";
    assert r[|content| + 1..|content| + 1 + |Assignment(n) + "\n"|] == Assignment(n) + "\n";
  }
}
