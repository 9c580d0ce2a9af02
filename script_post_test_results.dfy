/**
 * Reporting a test run on a GitHub issue (scripts/github/post_test_results.py): the Markdown
 * comment, the order of the requests and which failures abort, and the command-line checks. The
 * GitHub client is a function from request to reply, the clock a timestamp parameter and the
 * output file a lookup from path to contents.
 */
module PostTestResults {
  import opened Wrappers
  import opened Strs
  import opened Json

  // ---------------------------------------------------------------------------
  // format_test_results

  const PASSED_HEADING: string := "## \U{2705} Test Results: PASSED"
  const FAILED_HEADING: string := "## \U{274C} Test Results: FAILED"
  const OUTPUT_OPENING: string := "### Test Output\n\n```\n"
  const OUTPUT_CLOSING: string := "\n```\n\n"
  const PASSED_STEPS: string := "### Next Steps\n- Issue moved to Done column\n- Issue closed\n"
  const FAILED_STEPS: string :=
    "### Next Steps\n- Issue moved to Test Failed column\n- Review failures and determine fix approach\n"
    + "- Move back to Ready when ready to address\n"

  function Heading(passed: bool): string
  {
    if passed then PASSED_HEADING else FAILED_HEADING
  }

  const TIMESTAMP_LABEL: string := "\n\n**Timestamp**: "
  const PASSED_SUMMARY: string := "\n\nAll tests passed successfully!\n\n"
  const FAILED_SUMMARY: string := "\n\nTests failed. Review the output below for details.\n\n"

  function Summary(passed: bool): string
  {
    if passed then PASSED_SUMMARY else FAILED_SUMMARY
  }

  /** The verdict, the timestamp and the summary sentence. */
  function Header(passed: bool, timestamp: string): string
  {
    Heading(passed) + (TIMESTAMP_LABEL + timestamp + Summary(passed))
  }

  /** `if test_output:` — the output is shown when there is some. */
  predicate HasOutput(testOutput: Option<string>)
  {
    testOutput.Some? && testOutput.value != ""
  }

  function NextSteps(passed: bool): string
  {
    if passed then PASSED_STEPS else FAILED_STEPS
  }

  /** The comment the three parts make. */
  function Comment(passed: bool, testOutput: Option<string>, timestamp: string): string
  {
    Header(passed, timestamp)
    + (if HasOutput(testOutput) then OUTPUT_OPENING + testOutput.value + OUTPUT_CLOSING else "")
    + NextSteps(passed)
  }

  /** `format_test_results`, which builds the comment by appending to it. */
  method FormatTestResults(passed: bool, testOutput: Option<string>, timestamp: string) returns (comment: string)
    ensures comment == Comment(passed, testOutput, timestamp)
  {
    if passed {
      comment := PASSED_HEADING + (TIMESTAMP_LABEL + timestamp + PASSED_SUMMARY);
      assert comment == Header(passed, timestamp);
      if testOutput.Some? && testOutput.value != "" {
        comment := comment + (OUTPUT_OPENING + testOutput.value + OUTPUT_CLOSING);
      } else {
        assert comment + "" == comment;
      }
      comment := comment + PASSED_STEPS;
    } else {
      comment := FAILED_HEADING + (TIMESTAMP_LABEL + timestamp + FAILED_SUMMARY);
      assert comment == Header(passed, timestamp);
      if testOutput.Some? && testOutput.value != "" {
        comment := comment + (OUTPUT_OPENING + testOutput.value + OUTPUT_CLOSING);
      } else {
        assert comment + "" == comment;
      }
      comment := comment + FAILED_STEPS;
    }
  }

  /** The comment opens with the verdict heading, and the two headings differ. */
  lemma CommentStatesVerdict(passed: bool, testOutput: Option<string>, timestamp: string)
    ensures var c := Comment(passed, testOutput, timestamp);
            |Heading(passed)| <= |c| && c[..|Heading(passed)|] == Heading(passed)
    ensures Heading(true) != Heading(false)
  {
    var c := Comment(passed, testOutput, timestamp);
    var h := Header(passed, timestamp);
    var block := if HasOutput(testOutput) then OUTPUT_OPENING + testOutput.value + OUTPUT_CLOSING else "";
    assert c == (h + block) + NextSteps(passed);
    PrefixOfParts(Heading(passed), h[|Heading(passed)|..], block, NextSteps(passed));
    assert h == Heading(passed) + h[|Heading(passed)|..];
    HeadingsDiffer();
  }

  lemma HeadingsDiffer()
    ensures PASSED_HEADING != FAILED_HEADING
  {
    assert PASSED_HEADING[3] == '\U{2705}' && FAILED_HEADING[3] == '\U{274C}';
  }

  /** `w` is a prefix of `((w + x) + y) + z`. */
  lemma PrefixOfParts(w: string, x: string, y: string, z: string)
    ensures |w| <= |((w + x) + y) + z| && (((w + x) + y) + z)[..|w|] == w
  {
    assert (((w + x) + y) + z)[..|w|] == (w + x)[..|w|];
  }

  /**
   * The test output appears in a fenced block right after the header exactly when there is some;
   * without it the next steps follow the header directly. Either way the comment ends with the
   * next steps for the verdict.
   */
  lemma CommentShowsOutput(passed: bool, testOutput: Option<string>, timestamp: string)
    ensures var c := Comment(passed, testOutput, timestamp);
            var at := |Header(passed, timestamp)| + |OUTPUT_OPENING|;
            HasOutput(testOutput) ==> OccursAt(c, testOutput.value, at) && OccursAt(c, OUTPUT_OPENING, at - |OUTPUT_OPENING|)
    ensures !HasOutput(testOutput) ==> Comment(passed, testOutput, timestamp) == Header(passed, timestamp) + NextSteps(passed)
    ensures var c := Comment(passed, testOutput, timestamp);
            |NextSteps(passed)| <= |c| && c[|c| - |NextSteps(passed)|..] == NextSteps(passed)
  {
    var h := Header(passed, timestamp);
    var steps := NextSteps(passed);
    if HasOutput(testOutput) {
      BlockParts(h, OUTPUT_OPENING, testOutput.value, OUTPUT_CLOSING, steps);
    } else {
      SuffixOf(h, steps);
      assert h + "" == h;
    }
  }

  /** Where the parts of `(h + ((a + o) + b)) + s` sit. */
  lemma BlockParts(h: string, a: string, o: string, b: string, s: string)
    ensures var c := (h + ((a + o) + b)) + s;
            && OccursAt(c, a, |h|) && OccursAt(c, o, |h| + |a|)
            && |s| <= |c| && c[|c| - |s|..] == s
  {
    var c := (h + ((a + o) + b)) + s;
    assert c == h + (a + (o + (b + s)));
    assert c[|h|..][..|a|] == a;
    assert c[|h| + |a|..][..|o|] == o;
  }

  lemma SuffixOf(x: string, s: string)
    ensures (x + s)[|x + s| - |s|..] == s
  {
  }

  // ---------------------------------------------------------------------------
  // post_test_results

  /** The requests the script makes of GitHub. */
  datatype Request =
    | AddComment(issue: int, body: string)
    | MoveToColumn(issue: int, column: string)
    | CloseIssue(issue: int)
    | GetIssue(issue: int)

  /**
   * The output shown: the file's text when a path is given and the file exists; a missing file
   * only warns.
   */
  function TestOutput(outputFile: Option<string>, readFile: string -> Option<string>): Option<string>
  {
    if outputFile.Some? && outputFile.value != "" then readFile(outputFile.value) else None
  }

  /** The requests after a posted comment: the column moves, and a passed run also closes the issue. */
  function FollowUps(issue: int, passed: bool): seq<Request>
  {
    if passed then [MoveToColumn(issue, "Done"), CloseIssue(issue), GetIssue(issue)]
    else [MoveToColumn(issue, "Test Failed"), GetIssue(issue)]
  }

  /** What the issue reply yields: its `html_url`, or the KeyError the lookup raises. */
  function IssueUrl(reply: Result<Json>): Result<Json>
  {
    if reply.Err? then Err(reply.error)
    else match Get(reply.value, "html_url")
      case None => Err("'html_url'")
      case Some(url) => Ok(url)
  }

  /**
   * `post_test_results`. The comment is posted first and a failure to post it aborts; moving and
   * closing the issue only warn when they fail; the issue lookup at the end raises on failure.
   */
  method Post(issue: int, passed: bool, outputFile: Option<string>, readFile: string -> Option<string>,
              timestamp: string, api: Request -> Result<Json>)
    returns (calls: seq<Request>, r: Result<Json>)
    ensures calls != [] && calls[0] == AddComment(issue, Comment(passed, TestOutput(outputFile, readFile), timestamp))
    ensures api(calls[0]).Err? ==> calls == [calls[0]] && r == Err(api(calls[0]).error)
    ensures api(calls[0]).Ok? ==> calls == [calls[0]] + FollowUps(issue, passed)
    ensures api(calls[0]).Ok? ==> r == IssueUrl(api(GetIssue(issue)))
  {
    var testOutput: Option<string> := None;
    if outputFile.Some? && outputFile.value != "" {
      testOutput := readFile(outputFile.value);
    }
    var comment := FormatTestResults(passed, testOutput, timestamp);
    var first := AddComment(issue, comment);
    calls := [first];
    var posted := api(first);
    if posted.Err? {
      return calls, Err(posted.error);
    }
    if passed {
      var moved := api(MoveToColumn(issue, "Done"));
      var closed := api(CloseIssue(issue));
      calls := calls + [MoveToColumn(issue, "Done"), CloseIssue(issue)];
    } else {
      var moved := api(MoveToColumn(issue, "Test Failed"));
      calls := calls + [MoveToColumn(issue, "Test Failed")];
    }
    calls := calls + [GetIssue(issue)];
    var reply := api(GetIssue(issue));
    if reply.Err? {
      return calls, Err(reply.error);
    }
    var url := Get(reply.value, "html_url");
    if url.None? {
      return calls, Err("'html_url'");
    }
    return calls, Ok(url.value);
  }

  /** A passed run ends in Done and closed; a failed one in Test Failed and open. */
  lemma FollowUpsByVerdict(issue: int, passed: bool)
    ensures CloseIssue(issue) in FollowUps(issue, passed) <==> passed
    ensures MoveToColumn(issue, "Done") in FollowUps(issue, passed) <==> passed
    ensures MoveToColumn(issue, "Test Failed") in FollowUps(issue, passed) <==> !passed
    ensures FollowUps(issue, passed)[|FollowUps(issue, passed)| - 1] == GetIssue(issue)
  {
    assert "Done" != "Test Failed";
  }

  // ---------------------------------------------------------------------------
  // main

  /** `sys.argv[2].lower() in ['pass', 'fail']`. */
  predicate ValidStatus(status: string)
  {
    Lower(status) == "pass" || Lower(status) == "fail"
  }

  /** The arguments are usable: an issue number and a status; a third names the output file and any further ones are ignored. */
  predicate ValidArgs(argv: seq<string>)
  {
    |argv| >= 3 && PyInt(argv[1]).Some? && ValidStatus(argv[2])
  }

  /**
   * `main`: the exit code is 0 exactly when the arguments are valid, the comment is posted and the
   * issue's URL is read back. Invalid arguments make no request at all.
   */
  method Run(argv: seq<string>, readFile: string -> Option<string>, timestamp: string, api: Request -> Result<Json>)
    returns (code: int, calls: seq<Request>)
    ensures code == 0 || code == 1
    ensures !ValidArgs(argv) ==> code == 1 && calls == []
    ensures ValidArgs(argv) ==>
              var issue := PyInt(argv[1]).value;
              var passed := Lower(argv[2]) == "pass";
              var outputFile := if |argv| > 3 then Some(argv[3]) else None;
              var first := AddComment(issue, Comment(passed, TestOutput(outputFile, readFile), timestamp));
              && calls != [] && calls[0] == first
              && (code == 0 <==> api(first).Ok? && IssueUrl(api(GetIssue(issue))).Ok?)
  {
    if |argv| < 3 {
      return 1, [];
    }
    var issue := PyInt(argv[1]);
    if issue.None? {
      return 1, [];
    }
    var status := Lower(argv[2]);
    var outputFile: Option<string> := if |argv| > 3 then Some(argv[3]) else None;
    if status != "pass" && status != "fail" {
      return 1, [];
    }
    var passed := status == "pass";
    var r;
    calls, r := Post(issue.value, passed, outputFile, readFile, timestamp, api);
    code := if r.Ok? then 0 else 1;
  }
}
