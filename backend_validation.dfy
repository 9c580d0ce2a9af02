/** Request guards shared by the chat operation views (backend/api/utils/validation.py). */
module Validation {
  import opened Wrappers
  import opened Json
  import opened Http
  import opened Models
  import Strs

  const DEFAULT_ACTION: string := "perform action on"

  /** `count_user_messages`: the number of messages whose role is 'user'. */
  function CountUserMessages(msgs: seq<Msg>): (n: nat)
    ensures n <= |msgs|
    ensures n == 0 <==> forall i :: 0 <= i < |msgs| ==> !IsRole(msgs[i], "user")
    ensures n == |msgs| <==> forall i :: 0 <= i < |msgs| ==> IsRole(msgs[i], "user")
    decreases |msgs|
  {
    if msgs == [] then 0
    else CountUserMessages(msgs[..|msgs| - 1]) + (if IsRole(msgs[|msgs| - 1], "user") then 1 else 0)
  }

  /** Appending a message adds one to the count exactly when it is a user message. */
  lemma CountUserMessagesAppend(msgs: seq<Msg>, m: Msg)
    ensures CountUserMessages(msgs + [m]) == CountUserMessages(msgs) + (if IsRole(m, "user") then 1 else 0)
  {
    assert (msgs + [m])[..|msgs|] == msgs;
  }

  /** The count over a concatenation is the sum of the counts. */
  lemma {:induction false} CountUserMessagesConcat(a: seq<Msg>, b: seq<Msg>)
    ensures CountUserMessages(a + b) == CountUserMessages(a) + CountUserMessages(b)
    decreases |b|
  {
    if b != [] {
      var b' := b[..|b| - 1];
      assert a + b == (a + b') + [b[|b| - 1]];
      CountUserMessagesAppend(a + b', b[|b| - 1]);
      CountUserMessagesAppend(b', b[|b| - 1]);
      assert b == b' + [b[|b| - 1]];
      CountUserMessagesConcat(a, b');
    } else {
      assert a + b == a;
    }
  }

  function CompletedMessage(action: string): string
  {
    "Cannot " + action + " a completed or graded chat"
  }

  /** `check_chat_not_completed`: a 400 refusal exactly for a completed or graded chat. */
  function CheckChatNotCompleted(chat: Chat, action: string): (r: Option<Response>)
    ensures r.Some? <==> chat.completed || chat.status == Complete
    ensures r.Some? ==> r.value.code == BAD_REQUEST && MessageOf(r.value) == Some(CompletedMessage(action))
  {
    if chat.completed || chat.status == Complete then Some(Fail(BAD_REQUEST, CompletedMessage(action)))
    else None
  }

  /** Python `str()` of a JSON scalar, as an f-string renders it. */
  function PyScalarStr(j: Json): string
  {
    match j
    case JInt(i) => Strs.IntToStr(i)
    case JBool(b) => if b then "True" else "False"
    case JStr(s) => s
    case _ => ""
  }

  function MaxTurnsMessage(maxTurns: Json): string
  {
    "Maximum turns (" + PyScalarStr(maxTurns) + ") reached for this chat"
  }

  /** The configured turn limit: `course_data['max_turns']` when course data is a non-empty dict. */
  function MaxTurns(chat: Chat): (r: Option<Json>)
    ensures r.Some? ==> Truthy(chat.courseData) && chat.courseData.JObj? && r == Get(chat.courseData, "max_turns") && r.value != JNull
    ensures r.None? ==> !Truthy(chat.courseData) || !chat.courseData.JObj? || Get(chat.courseData, "max_turns") in {None, Some(JNull)}
  {
    if Truthy(chat.courseData) && chat.courseData.JObj? then
      match Get(chat.courseData, "max_turns")
      case Some(JNull) => None
      case Some(v) => Some(v)
      case None => None
    else None
  }

  /**
   * `check_max_turns_not_exceeded`. A limit that Python cannot compare with an integer
   * (a string, list or dict) raises TypeError, which surfaces as a server error.
   */
  function CheckMaxTurnsNotExceeded(chat: Chat): (r: Option<Response>)
    ensures MaxTurns(chat).None? ==> r.None?
    ensures MaxTurns(chat).Some? && MaxTurns(chat).value.JInt? ==>
      (r.Some? <==> CountUserMessages(chat.messages) >= MaxTurns(chat).value.i)
    ensures r.Some? && MaxTurns(chat).value.JInt? ==>
      r.value.code == BAD_REQUEST && MessageOf(r.value) == Some(MaxTurnsMessage(MaxTurns(chat).value))
    ensures MaxTurns(chat).Some? && !(MaxTurns(chat).value.JInt? || MaxTurns(chat).value.JBool?) ==>
      r.Some? && r.value.code == SERVER_ERROR
  {
    match MaxTurns(chat)
    case None => None
    case Some(limit) =>
      var count := CountUserMessages(chat.messages);
      match limit
      case JInt(n) => if count >= n then Some(Fail(BAD_REQUEST, MaxTurnsMessage(limit))) else None
      case JBool(b) =>
        if count >= (if b then 1 else 0) then Some(Fail(BAD_REQUEST, MaxTurnsMessage(limit))) else None
      case _ => Some(Response(SERVER_ERROR, JNull))
  }

  /** Course data with an integer limit: the refusal comes once the user has used up the turns. */
  lemma MaxTurnsAfterOneMore(chat: Chat, m: Msg, n: int)
    requires MaxTurns(chat) == Some(JInt(n))
    requires CheckMaxTurnsNotExceeded(chat).None?
    requires IsRole(m, "user")
    ensures CountUserMessages(chat.messages) < n
    ensures CheckMaxTurnsNotExceeded(chat.(messages := chat.messages + [m])).Some? <==> CountUserMessages(chat.messages) + 1 == n
  {
    CountUserMessagesAppend(chat.messages, m);
  }
}
