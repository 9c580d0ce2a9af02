/** The text sent to the help and grading models (backend/api/utils/formatting.py). */
module Formatting {
  import opened Wrappers
  import opened Json
  import opened Models
  import Strs

  /** The metadata dict: title, course data, avatar id and interaction count. */
  function Metadata(chat: Chat): (j: Json)
    ensures j.JObj? && j.fields.Keys == {"title", "course_data", "avatar_id", "interaction_count"}
    ensures j.fields["title"] == JStr(chat.title) && j.fields["course_data"] == chat.courseData
    ensures j.fields["interaction_count"] == JInt(chat.interactionCount)
    ensures chat.avatarId.Some? ==> j.fields["avatar_id"] == JStr(chat.avatarId.value)
    ensures chat.avatarId.None? ==> j.fields["avatar_id"] == JNull
  {
    JObj(map[
      "title" := JStr(chat.title),
      "course_data" := chat.courseData,
      "avatar_id" := (match chat.avatarId case Some(a) => JStr(a) case None => JNull),
      "interaction_count" := JInt(chat.interactionCount)])
  }

  /** The transcript line of one message: `User: ...` for the user, `Resident: ...` for every other role. */
  function TranscriptLine(m: Msg): (line: string)
    ensures IsRole(m, "user") ==> line == "User: " + m.content.GetOr("")
    ensures !IsRole(m, "user") ==> line == "Resident: " + m.content.GetOr("")
  {
    (if IsRole(m, "user") then "User" else "Resident") + ": " + m.content.GetOr("")
  }

  /** The transcript lines, one per message, in message order. */
  function TranscriptLines(msgs: seq<Msg>): (lines: seq<string>)
    ensures |lines| == |msgs|
  {
    seq(|msgs|, i requires 0 <= i < |msgs| => TranscriptLine(msgs[i]))
  }

  function Header(metadataText: string, transcript: string): string
  {
    "CONVERSATION METADATA:\n" + metadataText + "\n\nCONVERSATION TRANSCRIPT:\n" + transcript
  }

  /** The formatted conversation: the chosen rendering of the metadata, then the newline-joined transcript. */
  function ConversationText(chat: Chat, includeJsonMetadata: bool, dumpsJson: Json -> string, pyRepr: Json -> string): string
  {
    Header(if includeJsonMetadata then dumpsJson(Metadata(chat)) else pyRepr(Metadata(chat)),
           Strs.Join(TranscriptLines(chat.messages), "\n"))
  }

  /**
   * `format_conversation_for_llm`. The two renderings of the metadata dict
   * (`json.dumps(..., indent=2)` and `str(...)`) are supplied by the caller.
   */
  method FormatConversationForLlm(chat: Chat, includeJsonMetadata: bool, dumpsJson: Json -> string, pyRepr: Json -> string)
    returns (text: string)
    ensures text == ConversationText(chat, includeJsonMetadata, dumpsJson, pyRepr)
  {
    var transcriptLines: seq<string> := [];
    var i := 0;
    while i < |chat.messages|
      invariant 0 <= i <= |chat.messages|
      invariant |transcriptLines| == i
      invariant forall k :: 0 <= k < i ==> transcriptLines[k] == TranscriptLine(chat.messages[k])
    {
      var msg := chat.messages[i];
      var role := if msg.role == Some("user") then "User" else "Resident";
      transcriptLines := transcriptLines + [role + ": " + msg.content.GetOr("")];
      i := i + 1;
    }
    var transcript := Strs.Join(transcriptLines, "\n");
    var metadataText := if includeJsonMetadata then dumpsJson(Metadata(chat)) else pyRepr(Metadata(chat));
    assert transcriptLines == TranscriptLines(chat.messages);
    text := Header(metadataText, transcript);
  }

  /** When no content holds a line break, splitting the transcript at line breaks gives one line per message. */
  lemma TranscriptSplitsBack(msgs: seq<Msg>)
    requires |msgs| >= 1
    requires forall i :: 0 <= i < |msgs| ==> '\n' !in msgs[i].content.GetOr("")
    ensures Strs.Split(Strs.Join(TranscriptLines(msgs), "\n"), '\n') == TranscriptLines(msgs)
  {
    var lines := TranscriptLines(msgs);
    forall k | 0 <= k < |lines| ensures '\n' !in lines[k] {
      assert lines[k] == TranscriptLine(msgs[k]);
    }
    assert "\n" == ['\n'];
    Strs.SplitJoin(lines, '\n');
  }

  /** With no messages the transcript part is empty. */
  lemma EmptyConversation(meta: string)
    ensures Header(meta, Strs.Join([], "\n")) == "CONVERSATION METADATA:\n" + meta + "\n\nCONVERSATION TRANSCRIPT:\n"
  {
  }
}
