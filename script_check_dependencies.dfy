/**
 * The dependency gate of the GitHub helper scripts (scripts/github/check_dependencies.py): the
 * issue numbers listed in a ticket's `## Dependencies` section, and which of them are not closed.
 * The GitHub client is a lookup function; `Err` stands for the `GitHubAPIError` it raises.
 */
module CheckDependencies {
  import opened Wrappers
  import opened Strs

  /** The fields of a fetched issue the gate reads; `body` is `None` for an issue without a description. */
  datatype Issue = Issue(title: string, state: string, htmlUrl: string, body: Option<string>)

  /** One entry of the unmet list: `{'number', 'title', 'state', 'url'}`. */
  datatype Unmet = Unmet(number: nat, title: string, state: string, url: string)

  const HEADER: string := "## Dependencies\n"
  const NEXT_SECTION: string := "\n##"

  /** The `TypeError` of `re.search` on a body that is `None`. */
  const NO_BODY_ERROR: string := "expected string or bytes-like object, got 'NoneType'"

  // ---------------------------------------------------------------------------
  // Parsing the section

  /**
   * The text the lazy group of `## Dependencies\n(.*?)(?=\n##|\Z)` captures: from just after the
   * first header up to the first `\n##` that starts there or later, or to the end.
   */
  function Section(body: string): (r: Option<string>)
    ensures r.Some? <==> Contains(body, HEADER)
  {
    match IndexOf(body, HEADER)
    case None => None
    case Some(i) =>
      var start := i + |HEADER|;
      match IndexOfFrom(body, NEXT_SECTION, start)
      case None => Some(body[start..])
      case Some(j) => Some(body[start..j])
  }

  /** `[int(n) for n in re.findall(r'#(\d+)', s)]`: each `#` followed by digits, scanning left to right. */
  function IssueRefs(s: string): seq<nat>
    decreases |s|
  {
    if s == [] then []
    else if s[0] == '#' && |s| >= 2 && IsDigit(s[1]) then
      var digits := LeadingDigits(s[1..]);
      [DigitsValue(digits)] + IssueRefs(s[1 + |digits|..])
    else IssueRefs(s[1..])
  }

  /** `parse_dependencies`: the issue references of the section, none when there is no section. */
  function ParseDependencies(body: string): (r: seq<nat>)
    ensures !Contains(body, HEADER) ==> r == []
  {
    match Section(body)
    case None => []
    case Some(content) => IssueRefs(content)
  }

  /** A reference followed by something other than a digit is read as its number. */
  lemma IssueRefAt(n: nat, rest: string)
    requires rest == [] || !IsDigit(rest[0])
    ensures IssueRefs("#" + NatToStr(n) + rest) == [n] + IssueRefs(rest)
  {
    var digits := NatToStr(n);
    var s := "#" + digits + rest;
    assert s[1..] == digits + rest;
    LeadingDigitsOf(digits, rest);
    DigitsValueOfNatToStr(n);
    assert s[1 + |digits|..] == rest;
  }

  /** Text without a `#` holds no reference. */
  lemma {:induction false} SkipWithoutHash(p: string, rest: string)
    requires '#' !in p
    ensures IssueRefs(p + rest) == IssueRefs(rest)
    decreases |p|
  {
    if p != [] {
      assert p[0] != '#' by { assert p[0] in p; }
      assert '#' !in p[1..] by { assert forall k :: 0 <= k < |p[1..]| ==> p[1..][k] == p[k + 1]; }
      assert (p + rest)[0] == p[0];
      assert (p + rest)[1..] == p[1..] + rest;
      SkipWithoutHash(p[1..], rest);
    } else {
      assert p + rest == rest;
    }
  }

  /** The template's dependency list: one `- #n` line per number, the lines joined by line breaks. */
  function RefLines(numbers: seq<nat>): string
    decreases |numbers|
  {
    if numbers == [] then ""
    else if |numbers| == 1 then "- #" + NatToStr(numbers[0])
    else "- #" + NatToStr(numbers[0]) + "\n" + RefLines(numbers[1..])
  }

  /** Every listed number is read back, in order and with repetitions. */
  lemma {:induction false} RefLinesRoundTrip(numbers: seq<nat>)
    ensures IssueRefs(RefLines(numbers)) == numbers
    decreases |numbers|
  {
    if numbers != [] {
      var rest := if |numbers| == 1 then "" else "\n" + RefLines(numbers[1..]);
      RefLinesItem(numbers);
      SkipWithoutHash("- ", "#" + NatToStr(numbers[0]) + rest);
      IssueRefAt(numbers[0], rest);
      if |numbers| > 1 {
        SkipWithoutHash("\n", RefLines(numbers[1..]));
        RefLinesRoundTrip(numbers[1..]);
        assert numbers == [numbers[0]] + numbers[1..];
      } else {
        assert numbers == [numbers[0]];
      }
    }
  }

  /** The list starts with `- `, then the first reference and the rest. */
  lemma RefLinesItem(numbers: seq<nat>)
    requires numbers != []
    ensures RefLines(numbers)
         == "- " + ("#" + NatToStr(numbers[0]) + (if |numbers| == 1 then "" else "\n" + RefLines(numbers[1..])))
  {
    var n := NatToStr(numbers[0]);
    DashHash(n);
    if |numbers| > 1 {
      Regroup("- ", "#" + n, "\n", RefLines(numbers[1..]));
    } else {
      assert "#" + n + "" == "#" + n;
    }
  }

  lemma Regroup(p: string, x: string, q: string, r: string)
    ensures ((p + x) + q) + r == p + (x + (q + r))
  {
  }

  lemma DashHash(n: string)
    ensures "- #" + n == "- " + ("#" + n)
  {
    assert "- #" == "- " + "#";
  }

  /** Every line break is followed by the dash of the next item. */
  predicate BreaksBeforeDash(s: string)
  {
    forall j :: 0 <= j < |s| && s[j] == '\n' ==> j + 1 < |s| && s[j + 1] == '-'
  }

  lemma {:induction false} RefLinesShape(numbers: seq<nat>)
    ensures numbers != [] ==> RefLines(numbers)[0] == '-'
    ensures BreaksBeforeDash(RefLines(numbers))
    decreases |numbers|
  {
    if numbers != [] {
      var head := "- #" + NatToStr(numbers[0]);
      assert forall j :: 3 <= j < |head| ==> head[j] == NatToStr(numbers[0])[j - 3];
      assert forall j :: 0 <= j < |head| ==> head[j] != '\n';
      if |numbers| > 1 {
        var tail := RefLines(numbers[1..]);
        RefLinesShape(numbers[1..]);
        var s := head + "\n" + tail;
        assert RefLines(numbers) == s;
        assert forall j :: 0 <= j < |head| ==> s[j] == head[j];
        forall j | 0 <= j < |s| && s[j] == '\n' ensures j + 1 < |s| && s[j + 1] == '-' {
          if j > |head| {
            assert s[j] == tail[j - |head| - 1];
            assert j + 1 < |s| && s[j + 1] == tail[j - |head|];
          } else if j == |head| {
            assert s[j + 1] == tail[0];
          }
        }
      } else {
        assert RefLines(numbers) == head;
      }
    }
  }

  /** The template's list never contains the start of another section. */
  lemma RefLinesHoldNoSection(numbers: seq<nat>)
    ensures !Contains(RefLines(numbers), NEXT_SECTION)
  {
    var s := RefLines(numbers);
    RefLinesShape(numbers);
    forall j | 0 <= j <= |s| - |NEXT_SECTION| ensures !OccursAt(s, NEXT_SECTION, j) {
      assert s[j..j + 3][0] == s[j] && s[j..j + 3][1] == s[j + 1];
    }
  }

  /**
   * The section ends where the next section begins: only the references between the first
   * header and the following `\n##` (or the end) are read.
   */
  lemma SectionBetween(pre: string, content: string, tail: string)
    requires forall j :: 0 <= j < |pre| ==> !OccursAt(pre + HEADER, HEADER, j)
    requires !Contains(content, NEXT_SECTION)
    requires tail == [] || (|tail| >= 3 && tail[..3] == NEXT_SECTION)
    ensures ParseDependencies(pre + HEADER + content + tail) == IssueRefs(content)
  {
    var head := pre + HEADER;
    var s := head + content + tail;
    HeaderFound(pre, content + tail);
    assert s == pre + HEADER + (content + tail);
    SectionEnds(head, content, tail);
    if tail == [] {
      assert s[|head|..] == content;
    } else {
      assert s[|head|..|head| + |content|] == content;
    }
  }

  /** The first header is found where `pre` ends. */
  lemma HeaderFound(pre: string, rest: string)
    requires forall j :: 0 <= j < |pre| ==> !OccursAt(pre + HEADER, HEADER, j)
    ensures IndexOf(pre + HEADER + rest, HEADER) == Some(|pre|)
  {
    var s := pre + HEADER + rest;
    assert s[|pre|..|pre| + |HEADER|] == HEADER;
    forall j | 0 <= j < |pre| ensures !OccursAt(s, HEADER, j) {
      assert !OccursAt(pre + HEADER, HEADER, j);
      assert s[j..j + |HEADER|] == (pre + HEADER)[j..j + |HEADER|];
    }
    IndexOfFromFinds(s, HEADER, 0, |pre|);
  }

  /** After `head`, the next `\n##` is the one the tail opens with, if any. */
  lemma SectionEnds(head: string, content: string, tail: string)
    requires !Contains(content, NEXT_SECTION)
    requires tail == [] || (|tail| >= 3 && tail[..3] == NEXT_SECTION)
    ensures IndexOfFrom(head + content + tail, NEXT_SECTION, |head|)
            == if tail == [] then None else Some(|head| + |content|)
  {
    var s := head + content + tail;
    var start := |head|;
    var end := start + |content|;
    if tail == [] {
      forall j | start <= j ensures !OccursAt(s, NEXT_SECTION, j) {
        if j < end {
          NoNextInSection(head, content, tail, j);
        }
      }
      IndexOfFromMisses(s, NEXT_SECTION, start);
    } else {
      assert s[end..end + 3] == tail[..3];
      forall j | start <= j < end ensures !OccursAt(s, NEXT_SECTION, j) {
        NoNextInSection(head, content, tail, j);
      }
      IndexOfFromFinds(s, NEXT_SECTION, start, end);
    }
  }

  /** No `\n##` starts inside the section, even one running into the tail. */
  lemma NoNextInSection(head: string, content: string, tail: string, j: nat)
    requires !Contains(content, NEXT_SECTION)
    requires tail == [] || (|tail| >= 3 && tail[..3] == NEXT_SECTION)
    requires |head| <= j < |head| + |content|
    ensures !OccursAt(head + content + tail, NEXT_SECTION, j)
  {
    var s := head + content + tail;
    var end := |head| + |content|;
    if j + 3 <= end {
      NoNextInside(head, content, tail, j - |head|);
    } else if tail != [] {
      assert s[end] == tail[..3][0];
      NoNextAcross(s, end, j);
    }
  }

  /** No `\n##` starts just before a line break: it would need `#` where the break is. */
  lemma NoNextAcross(s: string, end: nat, j: nat)
    requires end < |s| && s[end] == '\n' && j < end < j + 3
    ensures !OccursAt(s, NEXT_SECTION, j)
  {
    if j + 3 <= |s| {
      if j == end - 1 {
        assert s[j..j + 3][1] == s[end];
      } else {
        assert s[j..j + 3][2] == s[end];
      }
    }
  }

  /** Inside the content, no `\n##` starts. */
  lemma NoNextInside(head: string, content: string, tail: string, c: nat)
    requires !Contains(content, NEXT_SECTION) && c + 3 <= |content|
    ensures !OccursAt(head + content + tail, NEXT_SECTION, |head| + c)
  {
    var s := head + content + tail;
    var j := |head| + c;
    assert !OccursAt(content, NEXT_SECTION, c);
    assert s[j] == content[c] && s[j + 1] == content[c + 1] && s[j + 2] == content[c + 2];
    assert s[j..j + 3][0] == s[j] && s[j..j + 3][1] == s[j + 1] && s[j..j + 3][2] == s[j + 2];
    assert content[c..c + 3][0] == content[c] && content[c..c + 3][1] == content[c + 1] && content[c..c + 3][2] == content[c + 2];
  }

  /** A dependency list written as the template does, after the first header, is read back exactly. */
  lemma ParseRefLines(pre: string, numbers: seq<nat>, tail: string)
    requires forall j :: 0 <= j < |pre| ==> !OccursAt(pre + HEADER, HEADER, j)
    requires tail == [] || (|tail| >= 3 && tail[..3] == NEXT_SECTION)
    ensures ParseDependencies(pre + HEADER + RefLines(numbers) + tail) == numbers
  {
    RefLinesHoldNoSection(numbers);
    SectionBetween(pre, RefLines(numbers), tail);
    RefLinesRoundTrip(numbers);
  }

  /** A ticket whose dependency list is followed by another section. */
  lemma ParseExample()
    ensures ParseDependencies("## Goal\n## Dependencies\n- #12\n- #7\n- #12\n## Notes #99")
         == [12, 7, 12]
  {
    var pre := "## Goal\n";
    var tail := "\n## Notes #99";
    ExampleBody(pre, tail);
    ExampleHeaderFirst(pre);
    ParseRefLines(pre, [12, 7, 12], tail);
  }

  lemma ExampleBody(pre: string, tail: string)
    requires pre == "## Goal\n" && tail == "\n## Notes #99"
    ensures pre + HEADER + RefLines([12, 7, 12]) + tail
         == "## Goal\n## Dependencies\n- #12\n- #7\n- #12\n## Notes #99"
    ensures tail[..3] == NEXT_SECTION
  {
    ExampleLines();
    ExampleHead();
    ExampleSection();
  }

  lemma ExampleHead()
    ensures "## Goal\n" + HEADER == "## Goal\n## Dependencies\n"
  {
  }

  lemma ExampleSection()
    ensures "## Goal\n## Dependencies\n" + "- #12\n- #7\n- #12" + "\n## Notes #99"
         == "## Goal\n## Dependencies\n- #12\n- #7\n- #12\n## Notes #99"
  {
  }

  lemma ExampleLines()
    ensures RefLines([12, 7, 12]) == "- #12\n- #7\n- #12"
  {
    assert NatToStr(12) == "12" && NatToStr(7) == "7";
    assert [12, 7, 12][1..] == [7, 12] && [7, 12][1..] == [12];
  }

  lemma ExampleHeaderFirst(pre: string)
    requires pre == "## Goal\n"
    ensures forall j :: 0 <= j < |pre| ==> !OccursAt(pre + HEADER, HEADER, j)
  {
    forall j | 0 <= j < |pre| ensures !OccursAt(pre + HEADER, HEADER, j) {
      if j + |HEADER| <= |pre + HEADER| {
        assert (pre + HEADER)[j..j + |HEADER|][3] == (pre + HEADER)[j + 3];
      }
    }
  }

  // ---------------------------------------------------------------------------
  // Checking the dependencies

  /** A dependency is unmet when it can be looked up and is not closed; failed lookups are skipped. */
  predicate IsUnmet(number: nat, getIssue: int -> Result<Issue>)
  {
    getIssue(number).Ok? && getIssue(number).value.state != "closed"
  }

  function UnmetEntry(number: nat, issue: Issue): Unmet
  {
    Unmet(number, issue.title, issue.state, issue.htmlUrl)
  }

  /** The unmet entries of the dependencies, in the order they are listed. */
  function UnmetAmong(deps: seq<nat>, getIssue: int -> Result<Issue>): seq<Unmet>
    decreases |deps|
  {
    if deps == [] then []
    else
      var last := deps[|deps| - 1];
      UnmetAmong(deps[..|deps| - 1], getIssue)
      + (if IsUnmet(last, getIssue) then [UnmetEntry(last, getIssue(last).value)] else [])
  }

  /** An entry is reported exactly when it describes a listed dependency that is unmet. */
  lemma {:induction false} UnmetAmongMembers(deps: seq<nat>, getIssue: int -> Result<Issue>, u: Unmet)
    ensures u in UnmetAmong(deps, getIssue) <==>
            exists k :: 0 <= k < |deps| && IsUnmet(deps[k], getIssue) && u == UnmetEntry(deps[k], getIssue(deps[k]).value)
    decreases |deps|
  {
    if deps != [] {
      var init := deps[..|deps| - 1];
      UnmetAmongMembers(init, getIssue, u);
      forall k | 0 <= k < |init| ensures init[k] == deps[k] { }
    }
  }

  /** Nothing is reported exactly when every dependency that can be looked up is closed. */
  lemma AllMetIff(deps: seq<nat>, getIssue: int -> Result<Issue>)
    ensures UnmetAmong(deps, getIssue) == [] <==> forall k :: 0 <= k < |deps| ==> !IsUnmet(deps[k], getIssue)
  {
    if UnmetAmong(deps, getIssue) != [] {
      UnmetAmongMembers(deps, getIssue, UnmetAmong(deps, getIssue)[0]);
    } else {
      forall k | 0 <= k < |deps| ensures !IsUnmet(deps[k], getIssue) {
        if IsUnmet(deps[k], getIssue) {
          UnmetAmongMembers(deps, getIssue, UnmetEntry(deps[k], getIssue(deps[k]).value));
        }
      }
    }
  }

  /**
   * `check_dependencies`: `(all_met, unmet)` for the issue's listed dependencies. A failed lookup
   * of the issue itself, or a body that is `None`, raises.
   */
  method Check(issueNumber: int, getIssue: int -> Result<Issue>) returns (r: Result<(bool, seq<Unmet>)>)
    ensures getIssue(issueNumber).Err? ==> r == Err(getIssue(issueNumber).error)
    ensures getIssue(issueNumber).Ok? && getIssue(issueNumber).value.body.None? ==> r == Err(NO_BODY_ERROR)
    ensures getIssue(issueNumber).Ok? && getIssue(issueNumber).value.body.Some? ==>
              var deps := ParseDependencies(getIssue(issueNumber).value.body.value);
              && r.Ok?
              && r.value.1 == UnmetAmong(deps, getIssue)
              && (r.value.0 <==> r.value.1 == [])
              && (deps == [] ==> r.value == (true, []))
  {
    var issue := getIssue(issueNumber);
    if issue.Err? {
      return Err(issue.error);
    }
    if issue.value.body.None? {
      return Err(NO_BODY_ERROR);
    }
    var deps := ParseDependencies(issue.value.body.value);
    if deps == [] {
      return Ok((true, []));
    }
    var unmet: seq<Unmet> := [];
    var i := 0;
    while i < |deps|
      invariant 0 <= i <= |deps|
      invariant unmet == UnmetAmong(deps[..i], getIssue)
    {
      var dep := getIssue(deps[i]);
      if dep.Ok? && dep.value.state != "closed" {
        unmet := unmet + [UnmetEntry(deps[i], dep.value)];
      }
      assert deps[..i + 1][..i] == deps[..i];
      i := i + 1;
    }
    assert deps[..i] == deps;
    return Ok((|unmet| == 0, unmet));
  }

  /**
   * `main`: the exit status for the command-line arguments (`argv[0]` is the script). It is 0
   * exactly when an integer issue number was given, the issue was read and no dependency is unmet.
   */
  method Run(argv: seq<string>, getIssue: int -> Result<Issue>) returns (code: int)
    ensures code == 0 || code == 1
    ensures code == 0 <==>
              && |argv| >= 2
              && PyInt(argv[1]).Some?
              && getIssue(PyInt(argv[1]).value).Ok?
              && getIssue(PyInt(argv[1]).value).value.body.Some?
              && UnmetAmong(ParseDependencies(getIssue(PyInt(argv[1]).value).value.body.value), getIssue) == []
  {
    if |argv| < 2 {
      return 1;
    }
    var number := PyInt(argv[1]);
    if number.None? {
      return 1;
    }
    var r := Check(number.value, getIssue);
    if r.Err? || !r.value.0 {
      return 1;
    }
    return 0;
  }
}
