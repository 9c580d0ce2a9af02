/**
 * The grading prompt built in the browser (frontend/src/app/utils/formatGradingRequest.ts).
 * `JSON.stringify(metadata, null, 2)` is an input.
 */
module GradingRequest {
  import opened Wrappers
  import opened Json
  import opened ChatTypes
  import Strs

  const LINE_SEPARATOR: string := "\n\n"
  const TASK_TEXT: string :=
    "Please analyze this care worker training conversation and provide a comprehensive assessment following the "
    + "instructions in the system prompt. Return your response as a valid JSON object."

  /** The transcript line of one message; system and unknown roles have none. */
  function LineOf(m: ChatMessage): Option<string>
  {
    if m.role == "user" then Some("LEARNER: " + m.content)
    else if m.role == "assistant" then Some("RESIDENT: " + m.content)
    else if m.role == "scenario" then Some("[ACTION TAKEN]: " + m.content)
    else None
  }

  /** The lines of the messages that have one, in message order. */
  function TranscriptLines(messages: seq<ChatMessage>): (r: seq<string>)
    ensures |r| <= |messages|
    decreases |messages|
  {
    if messages == [] then []
    else
      var init := TranscriptLines(messages[..|messages| - 1]);
      match LineOf(messages[|messages| - 1])
      case Some(line) => init + [line]
      case None => init
  }

  /** Only learner, resident and action messages make lines, one each. */
  lemma {:induction false} TranscriptLinesCount(messages: seq<ChatMessage>)
    ensures |TranscriptLines(messages)| == |set i | 0 <= i < |messages| && LineOf(messages[i]).Some?|
    decreases |messages|
  {
    if messages != [] {
      var n := |messages| - 1;
      TranscriptLinesCount(messages[..n]);
      LineIndicesSnoc(messages);
      var before := set i | 0 <= i < n && LineOf(messages[..n][i]).Some?;
      assert n !in before;
    }
  }

  /** The indices with a line, after one more message. */
  lemma LineIndicesSnoc(messages: seq<ChatMessage>)
    requires messages != []
    ensures var n := |messages| - 1;
            (set i | 0 <= i < |messages| && LineOf(messages[i]).Some?)
            == (set i | 0 <= i < n && LineOf(messages[..n][i]).Some?) + (if LineOf(messages[n]).Some? then {n} else {})
  {
    var n := |messages| - 1;
    assert forall i :: 0 <= i < n ==> messages[..n][i] == messages[i];
  }

  /** A conversation of system messages only has an empty transcript. */
  lemma {:induction false} SystemOnlyHasNoLines(messages: seq<ChatMessage>)
    requires forall i :: 0 <= i < |messages| ==> messages[i].role == "system"
    ensures TranscriptLines(messages) == []
    decreases |messages|
  {
    if messages != [] {
      SystemOnlyHasNoLines(messages[..|messages| - 1]);
    }
  }

  const METADATA_OPEN: string := "# CHAT METADATA\n\n```json\n"
  const TRANSCRIPT_OPEN: string := "\n```\n\n# CONVERSATION TRANSCRIPT\n\n"
  const TASK_SECTION: string := "\n\n# YOUR TASK\n\n" + TASK_TEXT

  /** The prompt: metadata block, transcript, task. */
  function GradingRequestText(metadataJson: string, transcript: string): string
  {
    METADATA_OPEN + metadataJson + TRANSCRIPT_OPEN + transcript + TASK_SECTION
  }

  /** `formatGradingRequest`. */
  method FormatGradingRequest(metadata: Json, messages: seq<ChatMessage>, stringify: Json -> string)
    returns (request: string)
    ensures request == GradingRequestText(stringify(metadata), Strs.Join(TranscriptLines(messages), LINE_SEPARATOR))
  {
    var transcriptLines: seq<string> := [];
    var i := 0;
    while i < |messages|
      invariant 0 <= i <= |messages|
      invariant transcriptLines == TranscriptLines(messages[..i])
    {
      assert messages[..i + 1][..i] == messages[..i];
      var msg := messages[i];
      if msg.role == "user" {
        transcriptLines := transcriptLines + ["LEARNER: " + msg.content];
      } else if msg.role == "assistant" {
        transcriptLines := transcriptLines + ["RESIDENT: " + msg.content];
      } else if msg.role == "scenario" {
        transcriptLines := transcriptLines + ["[ACTION TAKEN]: " + msg.content];
      }
      i := i + 1;
    }
    assert messages[..|messages|] == messages;
    var transcript := Strs.Join(transcriptLines, LINE_SEPARATOR);
    request := GradingRequestText(stringify(metadata), transcript);
  }

  /** `a + b + c` splits back into its three parts. */
  lemma ThreeParts(a: string, b: string, c: string)
    ensures (a + b + c)[..|a|] == a
    ensures (a + b + c)[|a|..|a| + |b|] == b
    ensures (a + b + c)[|a| + |b|..] == c
  {
    assert (a + b + c)[..|a|] == (a + b)[..|a|];
    assert (a + b + c)[|a|..|a| + |b|] == (a + b)[|a|..];
  }

  /**
   * The prompt starts with the metadata header, and the metadata and the transcript can be read
   * back at fixed offsets, the transcript followed by the `# YOUR TASK` section to the end.
   */
  lemma SectionsInOrder(metadataJson: string, transcript: string)
    ensures var text := GradingRequestText(metadataJson, transcript);
      var t0 := |METADATA_OPEN| + |metadataJson| + |TRANSCRIPT_OPEN|;
      && text[..|METADATA_OPEN|] == METADATA_OPEN
      && text[|METADATA_OPEN|..|METADATA_OPEN| + |metadataJson|] == metadataJson
      && text[t0..t0 + |transcript|] == transcript
      && text[t0 + |transcript|..] == TASK_SECTION
  {
    var text := GradingRequestText(metadataJson, transcript);
    var head := METADATA_OPEN + metadataJson + TRANSCRIPT_OPEN;
    assert text == head + transcript + TASK_SECTION;
    ThreeParts(head, transcript, TASK_SECTION);
    ThreeParts(METADATA_OPEN, metadataJson, TRANSCRIPT_OPEN);
    assert text[..|head|] == head;
    assert text[..|METADATA_OPEN|] == head[..|METADATA_OPEN|];
    assert text[|METADATA_OPEN|..|METADATA_OPEN| + |metadataJson|] == head[|METADATA_OPEN|..|METADATA_OPEN| + |metadataJson|];
  }

  /**
   * `prepareGradingMessages`: exactly one user message carrying the prompt. The size estimate
   * only logs a warning.
   */
  method PrepareGradingMessages(metadata: Json, messages: seq<ChatMessage>, stringify: Json -> string)
    returns (r: seq<ChatMessage>)
    ensures r == [ChatMessage("user",
                              GradingRequestText(stringify(metadata), Strs.Join(TranscriptLines(messages), LINE_SEPARATOR)))]
  {
    var userPrompt := FormatGradingRequest(metadata, messages, stringify);
    var promptChars := |userPrompt|;
    var estimatedTokens := (promptChars + 3) / 4;
    if estimatedTokens > 8000 {
      // warning only
    }
    r := [ChatMessage("user", userPrompt)];
  }
}
