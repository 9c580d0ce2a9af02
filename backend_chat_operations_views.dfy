/**
 * The send-message, get-help and grade endpoints (backend/api/views/chat_operations_views.py).
 * Each runs its guards in order; the first that fails decides the response and leaves the
 * tables untouched. On success the view records the new state and names the background job
 * it starts (see the BackgroundTasks module).
 */
module ChatOperationsViews {
  import opened Wrappers
  import opened Json
  import opened Http
  import opened Models
  import opened Store
  import opened Validation
  import opened OpenWebUIHelpers

  const CHAT_NOT_FOUND: string := "Chat not found"
  const MESSAGE_REQUIRED: string := "Message content is required"
  const NO_CONVERSATION_FOR_HELP: string := "No conversation to get help for"
  const HELP_ALREADY_REQUESTED: string := "Help has already been requested for this turn"
  const NO_CONVERSATION_TO_GRADE: string := "No conversation to grade"

  /** A serialized chat in a response body, represented by its key. */
  function ChatRef(pk: nat): Json
  {
    JObj(map["id" := JInt(pk)])
  }

  function Accepted(message: string, extra: map<string, Json>): Response
  {
    Response(ACCEPTED, JObj(map["status" := JStr("success"), "message" := JStr(message), "processing" := JBool(true)] + extra))
  }

  /** The background job a view starts, with the token the user's profile supplied. */
  datatype Job =
    | MessageJob(chatId: nat, userMessage: string, token: string, isAction: bool)
    | HelpJob(chatId: nat, token: string)
    | GradingJob(chatId: nat, token: string)

  // ---------------------------------------------------------------------------
  // Send message

  /** `ChatSendMessageView.post`. */
  method SendMessage(db: Database, requester: nat, pk: nat, message: Option<string>, isAction: bool, now: Instant)
    returns (r: Response, job: Option<Job>)
    requires db.Valid() && requester in db.users
    modifies db
    ensures db.Valid()
    ensures db.users == old(db.users) && db.notes == old(db.notes)
    ensures db.nextChatId == old(db.nextChatId) && db.nextNoteId == old(db.nextNoteId)
    ensures var c := old(db.chats);
      if !OwnsChat(c, pk, requester) then r == Fail(NOT_FOUND, CHAT_NOT_FOUND) && db.chats == c && job.None?
      else if CheckChatNotCompleted(c[pk], "send messages to").Some? then
        r == CheckChatNotCompleted(c[pk], "send messages to").value && db.chats == c && job.None?
      else if CheckMaxTurnsNotExceeded(c[pk]).Some? then
        r == CheckMaxTurnsNotExceeded(c[pk]).value && db.chats == c && job.None?
      else if message.None? || message.value == "" then
        r == Fail(BAD_REQUEST, MESSAGE_REQUIRED) && db.chats == c && job.None?
      else if GetOpenwebuiToken(db.users[requester]).0.None? then
        r == GetOpenwebuiToken(db.users[requester]).1.value && db.chats == c && job.None?
      else
        && db.chats == c[pk := c[pk].(status := InProgress, updatedAt := now.stamp)]
        && r.code == ACCEPTED && Get(r.body, "processing") == Some(JBool(true))
        && job == Some(MessageJob(pk, message.value, GetOpenwebuiToken(db.users[requester]).0.value, isAction))
  {
    job := None;
    if !(pk in db.chats && db.chats[pk].owner == requester) {
      return Fail(NOT_FOUND, CHAT_NOT_FOUND), None;
    }
    var chat := db.chats[pk];
    var error := CheckChatNotCompleted(chat, "send messages to");
    if error.Some? {
      return error.value, None;
    }
    error := CheckMaxTurnsNotExceeded(chat);
    if error.Some? {
      return error.value, None;
    }
    if message.None? || message.value == "" {
      return Fail(BAD_REQUEST, MESSAGE_REQUIRED), None;
    }
    var (token, tokenError) := GetOpenwebuiToken(db.users[requester]);
    if tokenError.Some? {
      return tokenError.value, None;
    }
    chat := chat.(status := InProgress, updatedAt := now.stamp);
    db.chats := db.chats[pk := chat];
    job := Some(MessageJob(pk, message.value, token.value, isAction));
    r := Accepted("Message is being processed", map["chat" := ChatRef(pk)]);
  }

  // ---------------------------------------------------------------------------
  // Get help

  /** The position of the last help entry recorded for a turn, or -1 when there is none. */
  function LastHelpIndex(entries: seq<HelpEntry>, turn: int): (k: int)
    ensures -1 <= k < |entries|
    ensures k >= 0 ==> entries[k].turn == turn
    ensures forall j :: k < j < |entries| ==> entries[j].turn != turn
    decreases |entries|
  {
    if entries == [] then -1
    else if entries[|entries| - 1].turn == turn then |entries| - 1
    else LastHelpIndex(entries[..|entries| - 1], turn)
  }

  /** The last help entry recorded for a turn (the view's `existing_help[-1]`), if any. */
  function LastHelpForTurn(entries: seq<HelpEntry>, turn: int): Option<HelpEntry>
  {
    var k := LastHelpIndex(entries, turn);
    if k >= 0 then Some(entries[k]) else None
  }

  function HelpPlaceholder(turn: int, now: Instant): HelpEntry
  {
    HelpEntry(turn, now.iso, "", "processing")
  }

  /** `ChatGetHelpView.post`. */
  method GetHelp(db: Database, requester: nat, pk: nat, now: Instant)
    returns (r: Response, job: Option<Job>)
    requires db.Valid() && requester in db.users
    modifies db
    ensures db.Valid()
    ensures db.users == old(db.users) && db.notes == old(db.notes)
    ensures db.nextChatId == old(db.nextChatId) && db.nextNoteId == old(db.nextNoteId)
    ensures var c := old(db.chats);
      if !OwnsChat(c, pk, requester) then r == Fail(NOT_FOUND, CHAT_NOT_FOUND) && db.chats == c && job.None?
      else if CheckChatNotCompleted(c[pk], "request help for").Some? then
        r == CheckChatNotCompleted(c[pk], "request help for").value && db.chats == c && job.None?
      else if CheckMaxTurnsNotExceeded(c[pk]).Some? then
        r == CheckMaxTurnsNotExceeded(c[pk]).value && db.chats == c && job.None?
      else if c[pk].messages == [] then
        r == Fail(BAD_REQUEST, NO_CONVERSATION_FOR_HELP) && db.chats == c && job.None?
      else
        var turn := CountUserMessages(c[pk].messages);
        var last := LastHelpForTurn(c[pk].helpResponses, turn);
        if last.Some? && last.value.status == "processing" then
          r.code == ACCEPTED && Get(r.body, "turn") == Some(JInt(turn)) && db.chats == c && job.None?
        else if last.Some? then
          r == Fail(BAD_REQUEST, HELP_ALREADY_REQUESTED) && db.chats == c && job.None?
        else if GetOpenwebuiToken(db.users[requester]).0.None? then
          r == GetOpenwebuiToken(db.users[requester]).1.value && db.chats == c && job.None?
        else
          && db.chats == c[pk := c[pk].(helpResponses := c[pk].helpResponses + [HelpPlaceholder(turn, now)],
                                       updatedAt := now.stamp)]
          && r.code == ACCEPTED && Get(r.body, "turn") == Some(JInt(turn))
          && job == Some(HelpJob(pk, GetOpenwebuiToken(db.users[requester]).0.value))
  {
    if !(pk in db.chats && db.chats[pk].owner == requester) {
      return Fail(NOT_FOUND, CHAT_NOT_FOUND), None;
    }
    var chat := db.chats[pk];
    var error := CheckChatNotCompleted(chat, "request help for");
    if error.Some? {
      return error.value, None;
    }
    error := CheckMaxTurnsNotExceeded(chat);
    if error.Some? {
      return error.value, None;
    }
    if chat.messages == [] {
      return Fail(BAD_REQUEST, NO_CONVERSATION_FOR_HELP), None;
    }
    var currentTurn := CountUserMessages(chat.messages);
    var existing := LastHelpForTurn(chat.helpResponses, currentTurn);
    if existing.Some? {
      if existing.value.status == "processing" {
        return Accepted("Help request is still being processed", map["turn" := JInt(currentTurn)]), None;
      }
      return Fail(BAD_REQUEST, HELP_ALREADY_REQUESTED), None;
    }
    var (token, tokenError) := GetOpenwebuiToken(db.users[requester]);
    if tokenError.Some? {
      return tokenError.value, None;
    }
    chat := chat.(helpResponses := chat.helpResponses + [HelpPlaceholder(currentTurn, now)], updatedAt := now.stamp);
    db.chats := db.chats[pk := chat];
    job := Some(HelpJob(pk, token.value));
    r := Accepted("Help request is being processed", map["turn" := JInt(currentTurn)]);
  }

  // ---------------------------------------------------------------------------
  // Grade

  /** Grading data that is set and is not a recorded failure: the chat counts as graded. */
  predicate AlreadyGraded(g: Json)
  {
    Truthy(g) && !(g.JObj? && Get(g, "status") == Some(JStr("failed"))) && !(g.JObj? && "error" in g.fields)
  }

  /** `ChatGradeView.post`. */
  method Grade(db: Database, requester: nat, pk: nat, now: Instant)
    returns (r: Response, job: Option<Job>)
    requires db.Valid() && requester in db.users
    modifies db
    ensures db.Valid()
    ensures db.users == old(db.users) && db.notes == old(db.notes)
    ensures db.nextChatId == old(db.nextChatId) && db.nextNoteId == old(db.nextNoteId)
    ensures var c := old(db.chats);
      if !OwnsChat(c, pk, requester) then r == Fail(NOT_FOUND, CHAT_NOT_FOUND) && db.chats == c && job.None?
      else if c[pk].messages == [] then
        r == Fail(BAD_REQUEST, NO_CONVERSATION_TO_GRADE) && db.chats == c && job.None?
      else if AlreadyGraded(c[pk].gradingData) then
        r.code == OK && Get(r.body, "grading") == Some(c[pk].gradingData) && db.chats == c && job.None?
      else if c[pk].status == Grading then
        r.code == ACCEPTED && db.chats == c && job.None?
      else if GetOpenwebuiToken(db.users[requester]).0.None? then
        r == GetOpenwebuiToken(db.users[requester]).1.value && db.chats == c && job.None?
      else
        && db.chats == c[pk := c[pk].(status := Grading, updatedAt := now.stamp)]
        && r.code == ACCEPTED
        && job == Some(GradingJob(pk, GetOpenwebuiToken(db.users[requester]).0.value))
  {
    if !(pk in db.chats && db.chats[pk].owner == requester) {
      return Fail(NOT_FOUND, CHAT_NOT_FOUND), None;
    }
    var chat := db.chats[pk];
    if chat.messages == [] {
      return Fail(BAD_REQUEST, NO_CONVERSATION_TO_GRADE), None;
    }
    if Truthy(chat.gradingData) {
      if chat.gradingData.JObj? && Get(chat.gradingData, "status") == Some(JStr("failed")) {
        // a failed grading may be retried
      } else if chat.gradingData.JObj? && "error" in chat.gradingData.fields {
        // so may one that recorded an error
      } else {
        return Response(OK, JObj(map[
          "status" := JStr("success"),
          "grading" := chat.gradingData,
          "message" := JStr("Chat was already graded (returning existing results)")])), None;
      }
    }
    if chat.status == Grading {
      return Accepted("Grading is still in progress", map[]), None;
    }
    var (token, tokenError) := GetOpenwebuiToken(db.users[requester]);
    if tokenError.Some? {
      return tokenError.value, None;
    }
    chat := chat.(status := Grading, updatedAt := now.stamp);
    db.chats := db.chats[pk := chat];
    job := Some(GradingJob(pk, token.value));
    r := Accepted("Grading is being processed", map[]);
  }

  /** After a successful help request the same turn cannot be requested again while it is pending. */
  lemma HelpPlaceholderBlocksRepeat(entries: seq<HelpEntry>, turn: int, now: Instant)
    ensures LastHelpForTurn(entries + [HelpPlaceholder(turn, now)], turn) == Some(HelpPlaceholder(turn, now))
  {
  }
}
