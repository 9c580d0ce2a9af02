/**
 * The parts of scripts/github/create_repo_and_project.py that decide rather than call: how the
 * project is made (copied from a template or built from scratch with fixed columns), which field
 * receives the columns, and how `.env` is rewritten with the new repository's settings.
 */
module CreateRepoAndProject {
  import opened Wrappers
  import opened Strs
  import opened Json

  // ---------------------------------------------------------------------------
  // create_project

  /** The Kanban columns a project built from scratch receives, in board order. */
  const COLUMNS: seq<string> := ["Backlog", "Ready", "In Progress", "In Review", "In Testing", "Test Failed", "Done"]

  /**
   * How the project is made. `templateNumber` is `int(template_number)`, `None` where that
   * raises ValueError.
   */
  datatype ProjectSource =
    | CopyTemplate(templateNumber: Option<int>, title: string)
    | FromScratch(title: string, columns: seq<string>)

  /**
   * The choice in `create_project`: a configured, non-blank `GITHUB_TEMPLATE_PROJECT_NUMBER` is
   * copied; otherwise the project is built from scratch and given the seven columns.
   */
  function ChooseSource(templateSetting: Option<string>, repoName: string): (r: ProjectSource)
    ensures r.FromScratch? <==> templateSetting.None? || PyStrip(templateSetting.value) == ""
    ensures r.CopyTemplate? ==> r.templateNumber == PyInt(templateSetting.value)
    ensures r.FromScratch? ==> r.columns == COLUMNS
    ensures r.title == repoName + " Kanban"
  {
    if templateSetting.Some? && templateSetting.value != "" && PyStrip(templateSetting.value) != "" then
      CopyTemplate(PyInt(templateSetting.value), repoName + " Kanban")
    else
      FromScratch(repoName + " Kanban", COLUMNS)
  }

  /**
   * A node of the project's field list: `None` for a JSON null, and the empty object for a field
   * that is not a single-select field.
   */
  type FieldNode = Option<map<string, Json>>

  /** `field and field.get('name') == 'Status'`. */
  predicate IsStatusField(field: FieldNode)
  {
    field.Some? && field.value != map[] && "name" in field.value && field.value["name"] == JStr("Status")
  }

  /** The search for the Status field: the first node that is one. */
  method FindStatusField(fields: seq<FieldNode>) returns (found: Option<nat>)
    ensures found.Some? ==> found.value < |fields| && IsStatusField(fields[found.value])
    ensures found.Some? ==> forall j :: 0 <= j < found.value ==> !IsStatusField(fields[j])
    ensures found.None? ==> forall j :: 0 <= j < |fields| ==> !IsStatusField(fields[j])
  {
    var i := 0;
    while i < |fields|
      invariant 0 <= i <= |fields|
      invariant forall j :: 0 <= j < i ==> !IsStatusField(fields[j])
    {
      var field := fields[i];
      if field.Some? && field.value != map[] && "name" in field.value && field.value["name"] == JStr("Status") {
        return Some(i);
      }
      i := i + 1;
    }
    return None;
  }

  /** The option objects sent for the columns: `{'name': col, 'color': 'GRAY', 'description': ''}`. */
  function ColumnOptions(columns: seq<string>): (r: seq<Json>)
    ensures |r| == |columns|
    ensures forall i :: 0 <= i < |columns| ==>
              r[i].JObj? && r[i].fields.Keys == {"name", "color", "description"}
              && r[i].fields["name"] == JStr(columns[i]) && r[i].fields["color"] == JStr("GRAY")
              && r[i].fields["description"] == JStr("")
  {
    seq(|columns|, i requires 0 <= i < |columns| =>
      JObj(map["name" := JStr(columns[i]), "color" := JStr("GRAY"), "description" := JStr("")]))
  }

  // ---------------------------------------------------------------------------
  // update_env_file

  const OWNER_KEY: string := "GITHUB_OWNER="
  const REPO_KEY: string := "GITHUB_REPO="
  const NUMBER_KEY: string := "GITHUB_PROJECT_NUMBER="

  /** The values written for the new repository. */
  datatype Settings = Settings(owner: string, repoName: string, projectNumber: nat)

  predicate StartsWith(s: string, prefix: string)
  {
    |prefix| <= |s| && s[..|prefix|] == prefix
  }

  function OwnerLine(st: Settings): string { OWNER_KEY + st.owner + "\n" }
  function RepoLine(st: Settings): string { REPO_KEY + st.repoName + "\n" }
  function NumberLine(st: Settings): string { NUMBER_KEY + NatToStr(st.projectNumber) + "\n" }

  /** A line that assigns one of the three keys. */
  predicate IsKeyLine(line: string)
  {
    StartsWith(line, OWNER_KEY) || StartsWith(line, REPO_KEY) || StartsWith(line, NUMBER_KEY)
  }

  /** What one line of the old file becomes: the new assignment for a key line, itself otherwise. */
  function RewriteLine(line: string, st: Settings): string
  {
    if StartsWith(line, OWNER_KEY) then OwnerLine(st)
    else if StartsWith(line, REPO_KEY) then RepoLine(st)
    else if StartsWith(line, NUMBER_KEY) then NumberLine(st)
    else line
  }

  /** The rewritten lines, one per line of the old file. */
  function RewriteLines(lines: seq<string>, st: Settings): (r: seq<string>)
    ensures |r| == |lines| && forall i :: 0 <= i < |lines| ==> r[i] == RewriteLine(lines[i], st)
  {
    seq(|lines|, i requires 0 <= i < |lines| => RewriteLine(lines[i], st))
  }

  /** Some line of the old file assigns `key` (the flag the loop sets). */
  predicate Seen(lines: seq<string>, key: string)
  {
    exists i :: 0 <= i < |lines| && StartsWith(lines[i], key)
  }

  /** The assignments appended for keys the file lacks; only the owner line is preceded by a blank line. */
  function MissingLines(lines: seq<string>, st: Settings): seq<string>
  {
    (if Seen(lines, OWNER_KEY) then [] else ["\n" + OwnerLine(st)])
    + (if Seen(lines, REPO_KEY) then [] else [RepoLine(st)])
    + (if Seen(lines, NUMBER_KEY) then [] else [NumberLine(st)])
  }

  /** The lines `update_env_file` writes back. */
  function UpdatedLines(lines: seq<string>, st: Settings): seq<string>
  {
    RewriteLines(lines, st) + MissingLines(lines, st)
  }

  /** The number of keys the file does not assign. */
  function MissingCount(lines: seq<string>): nat
  {
    (if Seen(lines, OWNER_KEY) then 0 else 1)
    + (if Seen(lines, REPO_KEY) then 0 else 1)
    + (if Seen(lines, NUMBER_KEY) then 0 else 1)
  }

  /**
   * `update_env_file`. `envLines` is `f.readlines()` of `.env`, `None` when it does not exist, in
   * which case nothing is written.
   */
  method UpdateEnvFile(envLines: Option<seq<string>>, st: Settings) returns (written: Option<seq<string>>)
    ensures envLines.None? ==> written.None?
    ensures envLines.Some? ==> written == Some(UpdatedLines(envLines.value, st))
  {
    if envLines.None? {
      return None;
    }
    var lines := envLines.value;
    var ownerSeen, repoSeen, numberSeen := false, false, false;
    var newLines: seq<string> := [];
    var i := 0;
    while i < |lines|
      invariant 0 <= i <= |lines|
      invariant newLines == RewriteLines(lines[..i], st)
      invariant ownerSeen == Seen(lines[..i], OWNER_KEY)
      invariant repoSeen == Seen(lines[..i], REPO_KEY)
      invariant numberSeen == Seen(lines[..i], NUMBER_KEY)
    {
      var line := lines[i];
      EnvStep(lines, i, st);
      if StartsWith(line, OWNER_KEY) {
        newLines := newLines + [OwnerLine(st)];
        ownerSeen := true;
      } else if StartsWith(line, REPO_KEY) {
        newLines := newLines + [RepoLine(st)];
        repoSeen := true;
      } else if StartsWith(line, NUMBER_KEY) {
        newLines := newLines + [NumberLine(st)];
        numberSeen := true;
      } else {
        newLines := newLines + [line];
      }
      i := i + 1;
    }
    assert lines[..i] == lines;
    ghost var rewritten := newLines;
    ghost var owner: seq<string> := if ownerSeen then [] else ["\n" + OwnerLine(st)];
    ghost var repo: seq<string> := if repoSeen then [] else [RepoLine(st)];
    ghost var number: seq<string> := if numberSeen then [] else [NumberLine(st)];
    if !ownerSeen {
      newLines := newLines + ["\n" + OwnerLine(st)];
    }
    assert newLines == rewritten + owner;
    if !repoSeen {
      newLines := newLines + [RepoLine(st)];
    }
    assert newLines == rewritten + owner + repo;
    if !numberSeen {
      newLines := newLines + [NumberLine(st)];
    }
    assert newLines == rewritten + owner + repo + number;
    Regroup3(rewritten, owner, repo, number);
    return Some(newLines);
  }

  lemma Regroup3(w: seq<string>, x: seq<string>, y: seq<string>, z: seq<string>)
    ensures w + x + y + z == w + (x + y + z)
  {
  }

  /** What one more line of the file does to the rewritten lines and the flags. */
  lemma EnvStep(lines: seq<string>, i: int, st: Settings)
    requires 0 <= i < |lines|
    ensures RewriteLines(lines[..i + 1], st) == RewriteLines(lines[..i], st) + [RewriteLine(lines[i], st)]
    ensures Seen(lines[..i + 1], OWNER_KEY) == (Seen(lines[..i], OWNER_KEY) || StartsWith(lines[i], OWNER_KEY))
    ensures Seen(lines[..i + 1], REPO_KEY) == (Seen(lines[..i], REPO_KEY) || StartsWith(lines[i], REPO_KEY))
    ensures Seen(lines[..i + 1], NUMBER_KEY) == (Seen(lines[..i], NUMBER_KEY) || StartsWith(lines[i], NUMBER_KEY))
    ensures StartsWith(lines[i], OWNER_KEY) ==> !StartsWith(lines[i], REPO_KEY) && !StartsWith(lines[i], NUMBER_KEY)
    ensures StartsWith(lines[i], REPO_KEY) ==> !StartsWith(lines[i], NUMBER_KEY)
  {
    var line := lines[i];
    assert lines[..i + 1] == lines[..i] + [line];
    KeysExclusiveAt(line);
    RewriteLinesSnoc(lines[..i], line, st);
    SeenStep(lines[..i], line, OWNER_KEY);
    SeenStep(lines[..i], line, REPO_KEY);
    SeenStep(lines[..i], line, NUMBER_KEY);
  }

  lemma RewriteLinesSnoc(lines: seq<string>, line: string, st: Settings)
    ensures RewriteLines(lines + [line], st) == RewriteLines(lines, st) + [RewriteLine(line, st)]
  {
  }

  lemma SeenStep(lines: seq<string>, line: string, key: string)
    ensures Seen(lines + [line], key) <==> Seen(lines, key) || StartsWith(line, key)
  {
    var ls := lines + [line];
    if Seen(ls, key) && !StartsWith(line, key) {
      var i :| 0 <= i < |ls| && StartsWith(ls[i], key);
      assert i < |lines| && ls[i] == lines[i];
    }
    if Seen(lines, key) {
      var i :| 0 <= i < |lines| && StartsWith(lines[i], key);
      assert ls[i] == lines[i];
    }
    assert ls[|lines|] == line;
  }

  /** Each line of the old file keeps its place: key lines are replaced, all others copied. */
  lemma UpdatedLinesInPlace(lines: seq<string>, st: Settings)
    ensures |UpdatedLines(lines, st)| == |lines| + MissingCount(lines)
    ensures forall i :: 0 <= i < |lines| && !IsKeyLine(lines[i]) ==> UpdatedLines(lines, st)[i] == lines[i]
    ensures forall i :: 0 <= i < |lines| && StartsWith(lines[i], OWNER_KEY) ==> UpdatedLines(lines, st)[i] == OwnerLine(st)
    ensures forall i :: 0 <= i < |lines| && StartsWith(lines[i], REPO_KEY) ==> UpdatedLines(lines, st)[i] == RepoLine(st)
    ensures forall i :: 0 <= i < |lines| && StartsWith(lines[i], NUMBER_KEY) ==> UpdatedLines(lines, st)[i] == NumberLine(st)
  {
    var out := UpdatedLines(lines, st);
    forall i | 0 <= i < |lines|
      ensures out[i] == RewriteLine(lines[i], st)
    {
      assert out[i] == RewriteLines(lines, st)[i];
    }
    KeysExclusive(lines);
  }

  /** No line assigns two of the keys: they differ within the shortest one. */
  lemma KeysExclusive(lines: seq<string>)
    ensures forall i :: 0 <= i < |lines| && StartsWith(lines[i], OWNER_KEY) ==> !StartsWith(lines[i], REPO_KEY) && !StartsWith(lines[i], NUMBER_KEY)
    ensures forall i :: 0 <= i < |lines| && StartsWith(lines[i], REPO_KEY) ==> !StartsWith(lines[i], NUMBER_KEY)
  {
    forall i | 0 <= i < |lines| && StartsWith(lines[i], OWNER_KEY)
      ensures !StartsWith(lines[i], REPO_KEY) && !StartsWith(lines[i], NUMBER_KEY)
    {
      KeyAt7(lines[i]);
    }
    forall i | 0 <= i < |lines| && StartsWith(lines[i], REPO_KEY)
      ensures !StartsWith(lines[i], NUMBER_KEY)
    {
      KeyAt7(lines[i]);
    }
  }

  /** One line assigns at most one of the keys. */
  lemma KeysExclusiveAt(line: string)
    ensures StartsWith(line, OWNER_KEY) ==> !StartsWith(line, REPO_KEY) && !StartsWith(line, NUMBER_KEY)
    ensures StartsWith(line, REPO_KEY) ==> !StartsWith(line, NUMBER_KEY)
  {
    KeyAt7(line);
  }

  /** The eighth character tells the keys apart: `O`, `R` or `P`. */
  lemma KeyAt7(s: string)
    ensures StartsWith(s, OWNER_KEY) ==> s[7] == 'O'
    ensures StartsWith(s, REPO_KEY) ==> s[7] == 'R'
    ensures StartsWith(s, NUMBER_KEY) ==> s[7] == 'P'
  {
    if StartsWith(s, OWNER_KEY) { assert s[7] == s[..|OWNER_KEY|][7] == OWNER_KEY[7]; }
    if StartsWith(s, REPO_KEY) { assert s[7] == s[..|REPO_KEY|][7] == REPO_KEY[7]; }
    if StartsWith(s, NUMBER_KEY) { assert s[7] == s[..|NUMBER_KEY|][7] == NUMBER_KEY[7]; }
  }

  /** A line that starts with a key carries that key's new value. */
  predicate AssignsNew(line: string, st: Settings)
  {
    && (StartsWith(line, OWNER_KEY) ==> line == OwnerLine(st))
    && (StartsWith(line, REPO_KEY) ==> line == RepoLine(st))
    && (StartsWith(line, NUMBER_KEY) ==> line == NumberLine(st))
  }

  lemma RewrittenAssignsNew(line: string, st: Settings)
    ensures AssignsNew(RewriteLine(line, st), st)
  {
    KeyAt7(line);
    KeyAt7(OwnerLine(st));
    KeyAt7(RepoLine(st));
    KeyAt7(NumberLine(st));
    assert StartsWith(OwnerLine(st), OWNER_KEY) && StartsWith(RepoLine(st), REPO_KEY) && StartsWith(NumberLine(st), NUMBER_KEY);
  }

  lemma MissingAssignNew(lines: seq<string>, st: Settings)
    ensures forall k :: 0 <= k < |MissingLines(lines, st)| ==> AssignsNew(MissingLines(lines, st)[k], st)
  {
    KeyAt7(RepoLine(st));
    KeyAt7(NumberLine(st));
    assert StartsWith(RepoLine(st), REPO_KEY) && StartsWith(NumberLine(st), NUMBER_KEY);
    assert !StartsWith("\n" + OwnerLine(st), OWNER_KEY) && !StartsWith("\n" + OwnerLine(st), REPO_KEY) && !StartsWith("\n" + OwnerLine(st), NUMBER_KEY);
  }

  /**
   * After the update no old value survives: every line that starts with a key carries the new
   * value, and each key missing before is assigned by an appended line, in the order owner,
   * repository, project number.
   */
  lemma UpdatedLinesAssignNewValues(lines: seq<string>, st: Settings)
    ensures forall j :: 0 <= j < |UpdatedLines(lines, st)| ==> AssignsNew(UpdatedLines(lines, st)[j], st)
    ensures !Seen(lines, OWNER_KEY) ==> UpdatedLines(lines, st)[|lines|] == "\n" + OwnerLine(st)
    ensures Seen(lines, OWNER_KEY) && Seen(lines, REPO_KEY) && Seen(lines, NUMBER_KEY) ==> |UpdatedLines(lines, st)| == |lines|
  {
    var out := UpdatedLines(lines, st);
    var missing := MissingLines(lines, st);
    UpdatedLinesInPlace(lines, st);
    forall j | 0 <= j < |out|
      ensures AssignsNew(out[j], st)
    {
      if j < |lines| {
        RewrittenAssignsNew(lines[j], st);
        assert out[j] == RewriteLine(lines[j], st);
      } else {
        MissingAssignNew(lines, st);
        assert out[j] == missing[j - |lines|];
      }
    }
  }
}
