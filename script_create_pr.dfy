/**
 * Opening a pull request from the current branch (scripts/github/create_pr.py): reading
 * `git status --porcelain`, the guard against opening a PR from the base branch, and the
 * request payload. Git's output, the user's answer and the GitHub client are inputs.
 */
module CreatePr {
  import opened Wrappers
  import opened Strs
  import opened Json

  /** The result of `check_git_status`: `(is_clean, uncommitted_files, untracked_files)`. */
  datatype GitStatus = GitStatus(isClean: bool, uncommitted: seq<string>, untracked: seq<string>)

  /** How one output line is counted. */
  datatype Kind = Ignored | Uncommitted | Untracked

  /** `line[:2]`. */
  function StatusCode(line: string): string
  {
    if |line| <= 2 then line else line[..2]
  }

  /** `line[3:]`. */
  function PathOf(line: string): string
  {
    if |line| <= 3 then "" else line[3..]
  }

  /** Blank lines and all-space status codes are ignored; `??` is untracked; anything else is uncommitted. */
  function KindOf(line: string): Kind
  {
    if line == "" then Ignored
    else if StatusCode(line) == "??" then Untracked
    else if PyStrip(StatusCode(line)) != "" then Uncommitted
    else Ignored
  }

  /** The paths of the lines of one kind, in output order. */
  function PathsOfKind(lines: seq<string>, k: Kind): seq<string>
    decreases |lines|
  {
    if lines == [] then []
    else
      var last := lines[|lines| - 1];
      PathsOfKind(lines[..|lines| - 1], k) + (if KindOf(last) == k then [PathOf(last)] else [])
  }

  /** The loop of `check_git_status` over the lines it was given. */
  method ClassifyLines(lines: seq<string>) returns (status: GitStatus)
    ensures status.uncommitted == PathsOfKind(lines, Uncommitted)
    ensures status.untracked == PathsOfKind(lines, Untracked)
    ensures status.isClean <==> status.uncommitted == [] && status.untracked == []
  {
    var uncommitted: seq<string> := [];
    var untracked: seq<string> := [];
    var i := 0;
    while i < |lines|
      invariant 0 <= i <= |lines|
      invariant uncommitted == PathsOfKind(lines[..i], Uncommitted)
      invariant untracked == PathsOfKind(lines[..i], Untracked)
    {
      var line := lines[i];
      assert lines[..i + 1][..i] == lines[..i];
      if line != "" {
        var code := StatusCode(line);
        var path := PathOf(line);
        if code == "??" {
          untracked := untracked + [path];
        } else if PyStrip(code) != "" {
          uncommitted := uncommitted + [path];
        }
      }
      i := i + 1;
    }
    assert lines[..i] == lines;
    return GitStatus(uncommitted == [] && untracked == [], uncommitted, untracked);
  }

  // ---------------------------------------------------------------------------
  // Splitting git's output into lines

  /** `result.stdout.strip().split('\n')`, as the script splits the output. */
  function LinesAsWritten(stdout: string): seq<string>
  {
    Split(PyStrip(stdout), '\n')
  }

  /** The output split at line breaks without stripping it first. */
  function Lines(stdout: string): seq<string>
  {
    Split(stdout, '\n')
  }

  /** `check_git_status` as written: the whole output is stripped before it is split. */
  method CheckGitStatusAsWritten(stdout: string) returns (status: GitStatus)
    ensures status.uncommitted == PathsOfKind(LinesAsWritten(stdout), Uncommitted)
    ensures status.untracked == PathsOfKind(LinesAsWritten(stdout), Untracked)
    ensures status.isClean <==> status.uncommitted == [] && status.untracked == []
  {
    status := ClassifyLines(LinesAsWritten(stdout));
  }

  /** `check_git_status` reading every line whole, so that a leading space of a status survives. */
  method CheckGitStatus(stdout: string) returns (status: GitStatus)
    ensures status.uncommitted == PathsOfKind(Lines(stdout), Uncommitted)
    ensures status.untracked == PathsOfKind(Lines(stdout), Untracked)
    ensures status.isClean <==> status.uncommitted == [] && status.untracked == []
  {
    status := ClassifyLines(Lines(stdout));
  }

  /** Stripping removes one space in front and the final line break. */
  lemma StripOneLine(core: string)
    requires core != [] && !IsPySpace(core[0]) && !IsPySpace(core[|core| - 1])
    ensures PyStrip(" " + core + "\n") == core
  {
    var s := " " + core + "\n";
    assert s[0] == ' ' && s[1..] == core + "\n";
    assert (core + "\n")[0] == core[0];
    assert PyLStrip(s) == core + "\n";
    assert (core + "\n")[..|core|] == core;
  }

  /**
   * A file changed only in the work tree is listed as ` M path`. When it comes first, stripping the
   * output drops the line's leading space and `line[3:]` then cuts the first letter of the path.
   */
  lemma FirstPathLosesLetter(path: string)
    requires path != [] && !IsPySpace(path[|path| - 1]) && '\n' !in path
    ensures PathsOfKind(LinesAsWritten(" M " + path + "\n"), Uncommitted) == [path[1..]]
  {
    var core := ['M', ' ', path[0]] + path[1..];
    StrippedToOneLine(path);
    LineParts('M', ' ', path[0], path[1..]);
    assert [core][..0] == [];
  }

  /** The stripped output of the single line ` M path` is the one line `M ` + path. */
  lemma StrippedToOneLine(path: string)
    requires path != [] && !IsPySpace(path[|path| - 1]) && '\n' !in path
    ensures LinesAsWritten(" M " + path + "\n") == [['M', ' ', path[0]] + path[1..]]
  {
    var core := ['M', ' ', path[0]] + path[1..];
    StripsToCore(path);
    CoreOnOneLine(path);
    OneStrippedLine(" M " + path + "\n", core);
  }

  lemma CoreOnOneLine(path: string)
    requires path != [] && '\n' !in path
    ensures '\n' !in ['M', ' ', path[0]] + path[1..]
  {
    var core := ['M', ' ', path[0]] + path[1..];
    assert forall k :: 3 <= k < |core| ==> core[k] == path[k - 2];
    assert path[0] in path;
  }

  /** Output that strips to a single line is read as that one line. */
  lemma OneStrippedLine(stdout: string, core: string)
    requires PyStrip(stdout) == core && '\n' !in core
    ensures LinesAsWritten(stdout) == [core]
  {
  }

  lemma StripsToCore(path: string)
    requires path != [] && !IsPySpace(path[|path| - 1])
    ensures PyStrip(" M " + path + "\n") == ['M', ' ', path[0]] + path[1..]
  {
    var core := ['M', ' ', path[0]] + path[1..];
    assert " M " + path + "\n" == " " + core + "\n";
    assert core[|core| - 1] == path[|path| - 1];
    StripOneLine(core);
  }

  /** Reading the lines whole, the same output names the path itself. */
  lemma FirstPathKept(path: string)
    requires '\n' !in path
    ensures PathsOfKind(Lines(" M " + path + "\n"), Uncommitted) == [path]
  {
    var e := Entry(' ', 'M', path);
    assert [e][..0] == [];
    assert EntryLines([e]) == [EntryLine(e)];
    assert Porcelain([e]) == " M " + path + "\n";
    CheckGitStatusReadsPorcelain([e], Uncommitted);
  }

  // ---------------------------------------------------------------------------
  // Git's porcelain format

  /** One entry of `git status --porcelain`: the index and work-tree status letters and the path. */
  datatype Entry = Entry(x: char, y: char, path: string)

  function EntryLine(e: Entry): string
  {
    [e.x, e.y, ' '] + e.path
  }

  function EntryLines(entries: seq<Entry>): seq<string>
    decreases |entries|
  {
    if entries == [] then [] else EntryLines(entries[..|entries| - 1]) + [EntryLine(entries[|entries| - 1])]
  }

  /** The whole output: every entry's line ends with a line break. */
  function Porcelain(entries: seq<Entry>): string
  {
    if entries == [] then "" else Join(EntryLines(entries), "\n") + "\n"
  }

  /** Each entry read on its own terms: `??` untracked, a non-blank status uncommitted. */
  function EntryKind(e: Entry): Kind
  {
    if e.x == '?' && e.y == '?' then Untracked
    else if !IsPySpace(e.x) || !IsPySpace(e.y) then Uncommitted
    else Ignored
  }

  /** The paths of the entries of one kind, in order. */
  function EntryPaths(entries: seq<Entry>, k: Kind): seq<string>
    decreases |entries|
  {
    if entries == [] then []
    else
      var last := entries[|entries| - 1];
      EntryPaths(entries[..|entries| - 1], k) + (if EntryKind(last) == k then [last.path] else [])
  }

  /** A line is classified by its first two characters and names the path after the third. */
  lemma LineParts(x: char, y: char, z: char, rest: string)
    ensures KindOf([x, y, z] + rest) == EntryKind(Entry(x, y, rest))
    ensures PathOf([x, y, z] + rest) == rest
  {
    var line := [x, y, z] + rest;
    assert StatusCode(line) == [x, y];
    assert line[3..] == rest;
    PyStripEmptyIffAllSpace([x, y]);
    assert [x, y][0] == x && [x, y][1] == y;
  }

  lemma EntryLineKind(e: Entry)
    ensures KindOf(EntryLine(e)) == EntryKind(e)
    ensures PathOf(EntryLine(e)) == e.path
  {
    LineParts(e.x, e.y, ' ', e.path);
  }

  /** The porcelain paths of each kind are the entries' paths of that kind, in order. */
  lemma {:induction false} EntryLinesPaths(entries: seq<Entry>, k: Kind)
    ensures PathsOfKind(EntryLines(entries), k) == EntryPaths(entries, k)
    decreases |entries|
  {
    if entries != [] {
      var init := entries[..|entries| - 1];
      var last := entries[|entries| - 1];
      EntryLinesPaths(init, k);
      EntryLineKind(last);
      PathsOfKindSnoc(EntryLines(init), EntryLine(last), k);
    }
  }

  lemma PathsOfKindSnoc(lines: seq<string>, line: string, k: Kind)
    ensures PathsOfKind(lines + [line], k)
            == PathsOfKind(lines, k) + (if KindOf(line) == k then [PathOf(line)] else [])
  {
    assert (lines + [line])[..|lines|] == lines;
  }

  /** The porcelain has one line per entry, in order. */
  lemma {:induction false} EntryLinesShape(entries: seq<Entry>)
    ensures |EntryLines(entries)| == |entries|
    ensures forall i :: 0 <= i < |entries| ==> EntryLines(entries)[i] == EntryLine(entries[i])
    decreases |entries|
  {
    if entries != [] {
      EntryLinesShape(entries[..|entries| - 1]);
    }
  }

  /** A trailing empty piece is ignored. */
  lemma PathsIgnoreEmptyLast(lines: seq<string>, k: Kind)
    requires k != Ignored
    ensures PathsOfKind(lines + [""], k) == PathsOfKind(lines, k)
  {
    assert (lines + [""])[..|lines|] == lines;
  }

  /** An entry git can print on one line. */
  predicate OnOneLine(e: Entry)
  {
    e.x != '\n' && e.y != '\n' && '\n' !in e.path
  }

  /**
   * Reading the lines whole recovers git's report exactly: the untracked and the uncommitted
   * paths, each in output order.
   */
  lemma CheckGitStatusReadsPorcelain(entries: seq<Entry>, k: Kind)
    requires forall i :: 0 <= i < |entries| ==> OnOneLine(entries[i])
    requires k != Ignored
    ensures PathsOfKind(Lines(Porcelain(entries)), k) == EntryPaths(entries, k)
  {
    EntryLinesPaths(entries, k);
    PorcelainLines(entries);
    PathsIgnoreEmptyLast(EntryLines(entries), k);
  }

  lemma EntryLineOnOneLine(e: Entry)
    requires OnOneLine(e)
    ensures '\n' !in EntryLine(e)
  {
    var line := EntryLine(e);
    assert forall k :: 3 <= k < |line| ==> line[k] == e.path[k - 3];
    assert forall k :: 0 <= k < |line| ==> line[k] != '\n';
  }

  lemma NoBreakWithEmptyLast(lines: seq<string>)
    requires forall i :: 0 <= i < |lines| ==> '\n' !in lines[i]
    ensures forall i :: 0 <= i < |lines + [""]| ==> '\n' !in (lines + [""])[i]
  {
    forall i | 0 <= i < |lines + [""]| ensures '\n' !in (lines + [""])[i] {
      if i < |lines| {
        assert (lines + [""])[i] == lines[i];
      }
    }
  }

  /** Split at its line breaks, the porcelain gives back each entry's line and an empty last piece. */
  lemma PorcelainLines(entries: seq<Entry>)
    requires forall i :: 0 <= i < |entries| ==> OnOneLine(entries[i])
    ensures Lines(Porcelain(entries)) == EntryLines(entries) + [""]
  {
    var lines := EntryLines(entries);
    if entries == [] {
      assert Lines("") == [""];
      assert [""] == lines + [""];
    } else {
      EntryLinesShape(entries);
      forall i | 0 <= i < |lines| ensures '\n' !in lines[i] {
        EntryLineOnOneLine(entries[i]);
      }
      JoinAppend(lines, "", "\n");
      assert Porcelain(entries) == Join(lines + [""], "\n");
      NoBreakWithEmptyLast(lines);
      SplitJoin(lines + [""], '\n');
    }
  }

  // ---------------------------------------------------------------------------
  // Creating the pull request

  function OnBaseBranchMessage(base: string): string
  {
    "Cannot create PR: currently on base branch '" + base + "'"
  }

  /** The work tree is clean when nothing is uncommitted and nothing is untracked. */
  predicate Clean(stdout: string)
  {
    PathsOfKind(Lines(stdout), Uncommitted) == [] && PathsOfKind(Lines(stdout), Untracked) == []
  }

  /** `is_clean` as the script computes it, from the stripped output. */
  predicate CleanAsWritten(stdout: string)
  {
    PathsOfKind(LinesAsWritten(stdout), Uncommitted) == [] && PathsOfKind(LinesAsWritten(stdout), Untracked) == []
  }

  /** A status letter git prints in porcelain format version 1. */
  predicate StatusLetter(c: char)
  {
    c == ' ' || c == 'M' || c == 'T' || c == 'A' || c == 'D' || c == 'R' || c == 'C' || c == 'U'
    || c == '?' || c == '!'
  }

  /** An entry git can print: two status letters, not both blank, and a path on one line. */
  predicate GitEntry(e: Entry)
  {
    OnOneLine(e) && StatusLetter(e.x) && StatusLetter(e.y) && !(e.x == ' ' && e.y == ' ')
  }

  /**
   * Stripping the output first does not change whether the work tree counts as clean: on git's
   * output both readings are clean exactly when git lists nothing.
   */
  lemma CleanReadingsAgree(entries: seq<Entry>)
    requires forall i :: 0 <= i < |entries| ==> GitEntry(entries[i])
    ensures Clean(Porcelain(entries)) <==> entries == []
    ensures CleanAsWritten(Porcelain(entries)) <==> entries == []
  {
    if entries == [] {
      NothingListed();
    } else {
      WholeLinesCount(entries);
      StrippedLinesCount(entries);
    }
  }

  lemma NothingListed()
    ensures Clean(Porcelain([])) && CleanAsWritten(Porcelain([]))
  {
    assert Porcelain([]) == "";
    assert Lines("") == [""];
    assert PyStrip("") == "";
    assert [""][..0] == [];
  }

  /** Read whole, the first entry's line counts. */
  lemma WholeLinesCount(entries: seq<Entry>)
    requires entries != [] && forall i :: 0 <= i < |entries| ==> GitEntry(entries[i])
    ensures !Clean(Porcelain(entries))
  {
    var lines := Lines(Porcelain(entries));
    PorcelainLines(entries);
    EntryLinesShape(entries);
    assert lines[0] == EntryLine(entries[0]);
    GitEntryCounts(entries[0]);
    LineCounts(lines, 0);
  }

  /** A status git prints for a listed file is never read as ignored. */
  lemma GitEntryCounts(e: Entry)
    requires GitEntry(e)
    ensures KindOf(EntryLine(e)) != Ignored
  {
    EntryLineKind(e);
  }

  /** Stripped first, the output starts with one of the first entry's letters, and that line counts. */
  lemma StrippedLinesCount(entries: seq<Entry>)
    requires entries != [] && GitEntry(entries[0])
    ensures !CleanAsWritten(Porcelain(entries))
  {
    var p := Porcelain(entries);
    PorcelainStart(entries);
    var t := PyStrip(p);
    StripStartsNonSpace(p);
    FirstPieceStartsWith(t, '\n');
    LeadNonSpaceCounts(LinesAsWritten(p)[0]);
    LineCounts(LinesAsWritten(p), 0);
  }

  /** A text with a non-blank character in its first two strips to one starting with a non-blank. */
  lemma StripStartsNonSpace(p: string)
    requires |p| >= 2 && (!IsPySpace(p[0]) || !IsPySpace(p[1]))
    ensures PyStrip(p) != [] && !IsPySpace(PyStrip(p)[0])
  {
    var l := PyLStrip(p);
    var lead := PyLeadingSpaces(p);
    assert lead <= 1;
    assert l[0] == p[lead];
    assert PyTrailingSpaces(l) < |l|;
  }

  /** The output of a non-empty listing starts with the first entry's two status letters. */
  lemma PorcelainStart(entries: seq<Entry>)
    requires entries != []
    ensures |Porcelain(entries)| >= 2
    ensures Porcelain(entries)[0] == entries[0].x && Porcelain(entries)[1] == entries[0].y
  {
    EntryLinesShape(entries);
    var lines := EntryLines(entries);
    var j := Join(lines, "\n");
    assert j[..|lines[0]|] == lines[0];
    assert Porcelain(entries)[..|j|] == j;
  }

  /** A piece of the output that counts makes the tree unclean. */
  lemma LineCounts(lines: seq<string>, i: nat)
    requires i < |lines| && KindOf(lines[i]) != Ignored
    ensures !(PathsOfKind(lines, Uncommitted) == [] && PathsOfKind(lines, Untracked) == [])
  {
    KindFound(lines, i, KindOf(lines[i]));
  }

  lemma {:induction false} KindFound(lines: seq<string>, i: nat, k: Kind)
    requires i < |lines| && KindOf(lines[i]) == k
    ensures PathsOfKind(lines, k) != []
    decreases |lines|
  {
    if i < |lines| - 1 {
      assert lines[..|lines| - 1][i] == lines[i];
      KindFound(lines[..|lines| - 1], i, k);
    }
  }

  /** A line starting with a non-blank character counts, as untracked or uncommitted. */
  lemma LeadNonSpaceCounts(line: string)
    requires line != [] && !IsPySpace(line[0])
    ensures KindOf(line) != Ignored
  {
    var code := StatusCode(line);
    assert code[0] == line[0];
    PyStripEmptyIffAllSpace(code);
  }

  lemma FirstPieceStartsWith(s: string, c: char)
    requires s != [] && s[0] != c
    ensures Split(s, c)[0] != [] && Split(s, c)[0][0] == s[0]
  {
    if c in s {
      var i := FirstIndexOfChar(s, c);
      assert i > 0;
    }
  }

  /** `input(...).strip().lower() in ['y', 'yes']`: the prompt's default is no. */
  predicate Proceeds(answer: string)
  {
    Lower(PyStrip(answer)) == "y" || Lower(PyStrip(answer)) == "yes"
  }

  /** The request body of `POST /repos/{owner}/{repo}/pulls`. */
  function Payload(title: string, body: string, head: string, base: string): Json
  {
    StrObj(map["title" := title, "body" := body, "head" := head, "base" := base])
  }

  /** The payload has exactly the four members, each holding its argument. */
  lemma PayloadMembers(title: string, body: string, head: string, base: string)
    ensures Payload(title, body, head, base).JObj?
    ensures Payload(title, body, head, base).fields.Keys == {"title", "body", "head", "base"}
    ensures Get(Payload(title, body, head, base), "title") == Some(JStr(title))
    ensures Get(Payload(title, body, head, base), "body") == Some(JStr(body))
    ensures Get(Payload(title, body, head, base), "head") == Some(JStr(head))
    ensures Get(Payload(title, body, head, base), "base") == Some(JStr(base))
  {
    var m := map["title" := title, "body" := body, "head" := head, "base" := base];
    assert m.Keys == {"title", "body", "head", "base"};
  }

  datatype PrOutcome =
    | OnBaseBranch(message: string)   // the ValueError raised before anything is asked or sent
    | Cancelled                       // the user declined; the script exits with status 0
    | Failed(error: string)           // the client raised, or the reply lacks a field the summary prints
    | Created(pr: Json)

  /** What the script makes of GitHub's reply: it prints `number`, `title` and `html_url`. */
  function Reply(r: Result<Json>): PrOutcome
  {
    match r
    case Err(e) => Failed(e)
    case Ok(pr) =>
      if !HasKey(pr, "number") then Failed("'number'")
      else if !HasKey(pr, "title") then Failed("'title'")
      else if !HasKey(pr, "html_url") then Failed("'html_url'")
      else Created(pr)
  }

  /**
   * `create_pull_request`: refuse to open a PR from the base branch, ask before going on with a
   * dirty work tree, then send the payload. `sent` is the request made, if any.
   */
  method CreatePullRequest(title: string, body: string, base: string, head: string,
                           stdout: string, answer: string, post: Json -> Result<Json>)
    returns (sent: Option<Json>, outcome: PrOutcome)
    ensures head == base ==> sent == None && outcome == OnBaseBranch(OnBaseBranchMessage(base))
    ensures head != base ==> (sent.None? <==> !CleanAsWritten(stdout) && !Proceeds(answer))
    ensures head != base && sent.None? ==> outcome == Cancelled
    ensures sent.Some? ==> sent.value == Payload(title, body, head, base) && outcome == Reply(post(sent.value))
  {
    if head == base {
      return None, OnBaseBranch(OnBaseBranchMessage(base));
    }
    var status := CheckGitStatusAsWritten(stdout);
    if !status.isClean {
      var response := Lower(PyStrip(answer));
      if response != "y" && response != "yes" {
        return None, Cancelled;
      }
    }
    var data := Payload(title, body, head, base);
    var pr := post(data);
    return Some(data), Reply(pr);
  }

  /**
   * `main`: the exit status for the arguments `title body [base]` (`argv[0]` is the script); the
   * base branch defaults to `main`.
   */
  method Run(argv: seq<string>, head: string, stdout: string, answer: string, post: Json -> Result<Json>)
    returns (code: int)
    ensures |argv| < 3 ==> code == 1
    ensures |argv| >= 3 ==>
              var base := if |argv| > 3 then argv[3] else "main";
              (code == 0 <==>
                 && head != base
                 && (CleanAsWritten(stdout) || Proceeds(answer) ==> Reply(post(Payload(argv[1], argv[2], head, base))).Created?))
  {
    if |argv| < 3 {
      return 1;
    }
    var base := if |argv| > 3 then argv[3] else "main";
    var sent, outcome := CreatePullRequest(argv[1], argv[2], base, head, stdout, answer, post);
    code := if outcome.Cancelled? || outcome.Created? then 0 else 1;
  }
}
