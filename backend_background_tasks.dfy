/**
 * The bodies of the three background jobs (backend/api/background_tasks.py), run to completion
 * one at a time. The model's reply is an input: a function from what is sent to the outcome of
 * the OpenWebUI client call (see the OpenWebUIClient module for how the client derives it).
 */
module BackgroundTasks {
  import opened Wrappers
  import opened Json
  import opened Models
  import opened Store
  import opened Validation
  import opened Formatting
  import opened Seqs
  import Strs
  import ChatOperationsViews

  const DEFAULT_MAX_EXCHANGES: string := "6"
  const HARD_TOKEN_LIMIT: nat := 6000
  const FALLBACK_TAIL: nat := 8

  // ---------------------------------------------------------------------------
  // The message sent to the resident model

  /** The message a send appends: a scenario entry for an action, a user message otherwise. */
  function NewMessage(userMessage: string, isAction: bool): Msg
  {
    if isAction then M("scenario", userMessage) else M("user", userMessage)
  }

  function ErrorMessage(error: string): Msg
  {
    M("system", "Error processing message: " + error)
  }

  /** The message `msg["content"]` of a scenario entry without content raises, as `str(KeyError)`. */
  const MISSING_CONTENT_ERROR: string := "'content'"

  /** How the resident model sees a scenario entry: as the user saying `[Action: ...]`. */
  function ActionAsUser(content: string): Msg
  {
    M("user", "[Action: " + content + "]")
  }

  /**
   * The history sent for an action: every scenario entry turned into a user message, everything
   * else kept. `None` when some scenario entry has no content.
   */
  function ForLlm(ms: seq<Msg>): (r: Option<seq<Msg>>)
    ensures r.None? <==> exists i :: 0 <= i < |ms| && IsRole(ms[i], "scenario") && ms[i].content.None?
    ensures r.Some? ==> |r.value| == |ms|
    ensures r.Some? ==> forall i :: 0 <= i < |ms| ==>
      r.value[i] == if IsRole(ms[i], "scenario") then ActionAsUser(ms[i].content.value) else ms[i]
    decreases |ms|
  {
    if ms == [] then Some([])
    else
      var init := ForLlm(ms[..|ms| - 1]);
      var m := ms[|ms| - 1];
      assert forall i :: 0 <= i < |ms| - 1 ==> ms[..|ms| - 1][i] == ms[i];
      if init.None? then None
      else if IsRole(m, "scenario") then
        if m.content.None? then None else Some(init.value + [ActionAsUser(m.content.value)])
      else Some(init.value + [m])
  }

  /** No scenario entry reaches the model. */
  lemma ForLlmHasNoScenario(ms: seq<Msg>)
    requires ForLlm(ms).Some?
    ensures forall i :: 0 <= i < |ms| ==> !IsRole(ForLlm(ms).value[i], "scenario")
  {
  }

  /** The system messages, in order. */
  function SystemMessages(ms: seq<Msg>): (r: seq<Msg>)
    ensures forall k :: 0 <= k < |r| ==> IsRole(r[k], "system")
    decreases |ms|
  {
    if ms == [] then []
    else SystemMessages(ms[..|ms| - 1]) + (if IsRole(ms[|ms| - 1], "system") then [ms[|ms| - 1]] else [])
  }

  /** Every other message, in order. */
  function OtherMessages(ms: seq<Msg>): (r: seq<Msg>)
    ensures forall k :: 0 <= k < |r| ==> !IsRole(r[k], "system")
    decreases |ms|
  {
    if ms == [] then []
    else OtherMessages(ms[..|ms| - 1]) + (if IsRole(ms[|ms| - 1], "system") then [] else [ms[|ms| - 1]])
  }

  /** Between them the two lists hold every message exactly once. */
  lemma {:induction false} SplitPartitions(ms: seq<Msg>)
    ensures multiset(SystemMessages(ms)) + multiset(OtherMessages(ms)) == multiset(ms)
    decreases |ms|
  {
    if ms != [] {
      var init, last := ms[..|ms| - 1], ms[|ms| - 1];
      assert init + [last] == ms;
      SplitPartitions(init);
      SplitStep(ms);
      MultisetSnoc(init, last);
    }
  }

  /** So the two lists are as long as the history together. */
  lemma SplitLengths(ms: seq<Msg>)
    ensures |SystemMessages(ms)| + |OtherMessages(ms)| == |ms|
  {
    SplitPartitions(ms);
    assert |multiset(SystemMessages(ms)) + multiset(OtherMessages(ms))| == |multiset(ms)|;
  }

  lemma MultisetSnoc(init: seq<Msg>, last: Msg)
    ensures multiset(init + [last]) == multiset(init) + multiset{last}
  {
  }

  lemma MultisetShift(a: seq<Msg>, b: seq<Msg>, x: Msg)
    ensures multiset(a + [x]) + multiset(b) == multiset(a) + multiset(b) + multiset{x}
    ensures multiset(b) + multiset(a + [x]) == multiset(b) + multiset(a) + multiset{x}
  {
    MultisetSnoc(a, x);
  }

  /** The last message lands in exactly one of the two lists. */
  lemma SplitStep(ms: seq<Msg>)
    requires ms != []
    ensures multiset(SystemMessages(ms)) + multiset(OtherMessages(ms))
         == multiset(SystemMessages(ms[..|ms| - 1])) + multiset(OtherMessages(ms[..|ms| - 1])) + multiset{ms[|ms| - 1]}
  {
    var init, last := ms[..|ms| - 1], ms[|ms| - 1];
    if IsRole(last, "system") {
      assert SystemMessages(ms) == SystemMessages(init) + [last];
      assert OtherMessages(ms) == OtherMessages(init);
      MultisetShift(SystemMessages(init), OtherMessages(init), last);
    } else {
      assert SystemMessages(ms) == SystemMessages(init);
      assert OtherMessages(ms) == OtherMessages(init) + [last];
      MultisetShift(OtherMessages(init), SystemMessages(init), last);
    }
  }

  /** The system messages, then the last `2n` others when there are more than that, else all of them. */
  function TrimHistory(ms: seq<Msg>, n: int): seq<Msg>
  {
    var others := OtherMessages(ms);
    SystemMessages(ms) + (if |others| > 2 * n then PySliceFrom(others, -(2 * n)) else others)
  }

  /** With at least one exchange allowed, the trimmed history is the system messages and the latest `2n` others. */
  lemma TrimHistoryKeepsRecent(ms: seq<Msg>, n: int)
    requires n >= 1
    ensures var others := OtherMessages(ms);
      var keep := if |others| > 2 * n then 2 * n else |others|;
      TrimHistory(ms, n) == SystemMessages(ms) + others[|others| - keep..]
      && |TrimHistory(ms, n)| <= |SystemMessages(ms)| + 2 * n
  {
    var others := OtherMessages(ms);
    var keep := if |others| > 2 * n then 2 * n else |others|;
    if |others| > 2 * n {
      LastK(others, 2 * n);
      assert TrimHistory(ms, n) == SystemMessages(ms) + others[|others| - keep..];
    } else {
      assert others[|others| - keep..] == others;
      assert TrimHistory(ms, n) == SystemMessages(ms) + others;
    }
  }

  /** `MAX_CONVERSATION_EXCHANGES=0` keeps everything, since `others[-0:]` is the whole list. */
  lemma TrimHistoryZero(ms: seq<Msg>)
    ensures TrimHistory(ms, 0) == SystemMessages(ms) + OtherMessages(ms)
  {
  }

  /** The history actually sent: the trimmed one, or the system messages and the last 8 others when it is too long. */
  function LimitHistory(ms: seq<Msg>, n: int): seq<Msg>
  {
    var trimmed := TrimHistory(ms, n);
    if ContentChars(trimmed) / 4 > HARD_TOKEN_LIMIT then SystemMessages(ms) + PySliceFrom(OtherMessages(ms), -(FALLBACK_TAIL as int))
    else trimmed
  }

  /** Whatever happens, all system messages go first and then some recent suffix of the others. */
  lemma LimitHistoryShape(ms: seq<Msg>, n: int)
    requires n >= 1
    ensures exists k :: 0 <= k <= |OtherMessages(ms)| && LimitHistory(ms, n) == SystemMessages(ms) + OtherMessages(ms)[k..]
  {
    var others := OtherMessages(ms);
    var k;
    LimitHistoryCases(ms, n);
    if LimitHistory(ms, n) == SystemMessages(ms) + PySliceFrom(others, -(FALLBACK_TAIL as int)) {
      k := SliceBound(-(FALLBACK_TAIL as int), |others|);
    } else {
      TrimHistoryKeepsRecent(ms, n);
      k := |others| - (if |others| > 2 * n then 2 * n else |others|);
    }
    assert LimitHistory(ms, n) == SystemMessages(ms) + others[k..];
  }

  /** The history sent is either the fallback or the trimmed one. */
  lemma LimitHistoryCases(ms: seq<Msg>, n: int)
    ensures LimitHistory(ms, n) == SystemMessages(ms) + PySliceFrom(OtherMessages(ms), -(FALLBACK_TAIL as int))
         || LimitHistory(ms, n) == TrimHistory(ms, n)
  {
  }

  /** `process_chat_message_async`'s task. */
  method ProcessChatMessage(db: Database, chatId: nat, userMessage: string, isAction: bool,
                            maxExchangesEnv: Option<string>, llm: seq<Msg> -> Result<string>, now: Instant)
    returns (sent: Option<seq<Msg>>)
    requires db.Valid()
    modifies db
    ensures db.Valid()
    ensures db.users == old(db.users) && db.notes == old(db.notes)
    ensures db.nextChatId == old(db.nextChatId) && db.nextNoteId == old(db.nextNoteId)
    ensures chatId !in old(db.chats) ==> db.chats == old(db.chats) && sent.None?
    ensures chatId in old(db.chats) ==>
      var c := old(db.chats)[chatId];
      var stored := c.messages + [NewMessage(userMessage, isAction)];
      var history := if isAction then ForLlm(stored) else Some(stored);
      var saved := c.(status := Thinking, messages := stored, updatedAt := now.stamp);
      var n := Strs.PyInt(maxExchangesEnv.GetOr(DEFAULT_MAX_EXCHANGES));
      if history.None? then
        && sent.None?
        && db.chats == old(db.chats)[chatId := c.(status := Ready, messages := c.messages + [ErrorMessage(MISSING_CONTENT_ERROR)],
                                                  updatedAt := now.stamp)]
      else if n.None? then
        && sent.None?
        && db.chats == old(db.chats)[chatId := saved.(status := Ready,
             messages := stored + [ErrorMessage(Strs.PyIntError(maxExchangesEnv.GetOr(DEFAULT_MAX_EXCHANGES)))])]
      else
        && sent == Some(LimitHistory(history.value, n.value))
        && match llm(sent.value)
           case Ok(reply) =>
             var final := stored + [M("assistant", reply)];
             db.chats == old(db.chats)[chatId := saved.(status := Ready, messages := final,
                                                        interactionCount := CountUserMessages(final))]
           case Err(e) =>
             db.chats == old(db.chats)[chatId := saved.(status := Ready, messages := stored + [ErrorMessage(e)])]
  {
    if chatId !in db.chats {
      return None;
    }
    var chat := db.chats[chatId];
    var messages := chat.messages + [NewMessage(userMessage, isAction)];
    var messagesForLlm := messages;
    if isAction {
      var converted := ConvertActions(messages);
      if converted.None? {
        // `msg["content"]` raised before anything was saved
        chat := chat.(status := Ready, messages := chat.messages + [ErrorMessage(MISSING_CONTENT_ERROR)], updatedAt := now.stamp);
        db.SaveChat(chatId, chat);
        return None;
      }
      messagesForLlm := converted.value;
    }
    chat := chat.(status := Thinking, messages := messages, updatedAt := now.stamp);
    db.SaveChat(chatId, chat);
    ghost var before := old(db.chats);
    sent := AnswerSavedMessage(db, chatId, messagesForLlm, maxExchangesEnv, llm, now);
    OverwriteTwice(before, chatId, chat, db.chats[chatId]);
  }

  /**
   * The rest of the job, once the chat is saved as thinking: read the exchange limit, send the
   * limited history and save the reply or the error.
   */
  method AnswerSavedMessage(db: Database, chatId: nat, messagesForLlm: seq<Msg>, maxExchangesEnv: Option<string>,
                            llm: seq<Msg> -> Result<string>, now: Instant)
    returns (sent: Option<seq<Msg>>)
    requires db.Valid() && chatId in db.chats
    modifies db
    ensures db.Valid()
    ensures db.users == old(db.users) && db.notes == old(db.notes)
    ensures db.nextChatId == old(db.nextChatId) && db.nextNoteId == old(db.nextNoteId)
    ensures var c := old(db.chats)[chatId];
      var n := Strs.PyInt(maxExchangesEnv.GetOr(DEFAULT_MAX_EXCHANGES));
      if n.None? then
        && sent.None?
        && db.chats == old(db.chats)[chatId := c.(status := Ready,
             messages := c.messages + [ErrorMessage(Strs.PyIntError(maxExchangesEnv.GetOr(DEFAULT_MAX_EXCHANGES)))],
             updatedAt := now.stamp)]
      else
        && sent == Some(LimitHistory(messagesForLlm, n.value))
        && match llm(sent.value)
           case Ok(reply) =>
             var final := c.messages + [M("assistant", reply)];
             db.chats == old(db.chats)[chatId := c.(status := Ready, messages := final,
                                                    interactionCount := CountUserMessages(final), updatedAt := now.stamp)]
           case Err(e) =>
             db.chats == old(db.chats)[chatId := c.(status := Ready, messages := c.messages + [ErrorMessage(e)], updatedAt := now.stamp)]
  {
    var chat := db.chats[chatId];
    var envText := maxExchangesEnv.GetOr(DEFAULT_MAX_EXCHANGES);
    var parsed := Strs.PyInt(envText);
    if parsed.None? {
      chat := chat.(status := Ready, messages := chat.messages + [ErrorMessage(Strs.PyIntError(envText))], updatedAt := now.stamp);
      db.SaveChat(chatId, chat);
      return None;
    }
    var limited := LimitedHistory(messagesForLlm, parsed.value);
    sent := Some(limited);

    var reply := llm(limited);
    if reply.Ok? {
      var messages := chat.messages + [M("assistant", reply.value)];
      chat := chat.(messages := messages, interactionCount := CountUserMessages(messages), status := Ready, updatedAt := now.stamp);
      db.SaveChat(chatId, chat);
    } else {
      // the handler fetches the chat again: it holds what was saved before the call
      chat := db.chats[chatId];
      chat := chat.(status := Ready, messages := chat.messages + [ErrorMessage(reply.error)], updatedAt := now.stamp);
      db.SaveChat(chatId, chat);
    }
  }

  lemma OverwriteTwice(m: map<nat, Chat>, k: nat, first: Chat, second: Chat)
    ensures m[k := first][k := second] == m[k := second]
  {
  }

  /** The conversion loop of the action path: stops at the first scenario entry without content. */
  method ConvertActions(messages: seq<Msg>) returns (r: Option<seq<Msg>>)
    ensures r == ForLlm(messages)
  {
    var messagesForLlm: seq<Msg> := [];
    var i := 0;
    while i < |messages|
      invariant 0 <= i <= |messages|
      invariant ForLlm(messages[..i]) == Some(messagesForLlm)
    {
      assert messages[..i + 1][..i] == messages[..i];
      var msg := messages[i];
      if msg.role == Some("scenario") {
        if msg.content.None? {
          assert ForLlm(messages[..i + 1]).None?;
          ForLlmPrefixNone(messages, i + 1);
          return None;
        }
        messagesForLlm := messagesForLlm + [ActionAsUser(msg.content.value)];
      } else {
        messagesForLlm := messagesForLlm + [msg];
      }
      i := i + 1;
    }
    assert messages[..|messages|] == messages;
    return Some(messagesForLlm);
  }

  /** The job's first loop: the system messages and the others, each in order. */
  method SplitByRole(ms: seq<Msg>) returns (systemMessages: seq<Msg>, otherMessages: seq<Msg>)
    ensures systemMessages == SystemMessages(ms) && otherMessages == OtherMessages(ms)
  {
    systemMessages, otherMessages := [], [];
    var j := 0;
    while j < |ms|
      invariant 0 <= j <= |ms|
      invariant systemMessages == SystemMessages(ms[..j])
      invariant otherMessages == OtherMessages(ms[..j])
    {
      assert ms[..j + 1][..j] == ms[..j];
      if ms[j].role == Some("system") {
        systemMessages := systemMessages + [ms[j]];
      } else {
        otherMessages := otherMessages + [ms[j]];
      }
      j := j + 1;
    }
    assert ms[..|ms|] == ms;
  }

  /** The job's character count over the trimmed history. */
  method CountContentChars(ms: seq<Msg>) returns (totalChars: nat)
    ensures totalChars == ContentChars(ms)
  {
    totalChars := 0;
    var k := 0;
    while k < |ms|
      invariant 0 <= k <= |ms|
      invariant totalChars == ContentChars(ms[..k])
    {
      assert ms[..k + 1][..k] == ms[..k];
      totalChars := totalChars + |ms[k].content.GetOr("")|;
      k := k + 1;
    }
    assert ms[..|ms|] == ms;
  }

  /** Trimming to the exchange limit and the token fallback, as the job does them. */
  method LimitedHistory(messagesForLlm: seq<Msg>, maxExchanges: int) returns (limited: seq<Msg>)
    ensures limited == LimitHistory(messagesForLlm, maxExchanges)
  {
    var systemMessages, otherMessages := SplitByRole(messagesForLlm);
    limited := systemMessages;
    if |otherMessages| > maxExchanges * 2 {
      limited := limited + PySliceFrom(otherMessages, -(maxExchanges * 2));
    } else {
      limited := limited + otherMessages;
    }
    assert limited == TrimHistory(messagesForLlm, maxExchanges);
    var totalChars := CountContentChars(limited);
    var estimatedTokens := totalChars / 4;
    if estimatedTokens > 4000 {
      // only logged
      if estimatedTokens > 6000 {
        limited := systemMessages + PySliceFrom(otherMessages, -8);
      }
    }
  }

  lemma {:induction false} ForLlmPrefixNone(ms: seq<Msg>, i: nat)
    requires i <= |ms| && ForLlm(ms[..i]).None?
    ensures ForLlm(ms).None?
  {
    var w :| 0 <= w < i && IsRole(ms[..i][w], "scenario") && ms[..i][w].content.None?;
    assert ms[w] == ms[..i][w];
  }

  // ---------------------------------------------------------------------------
  // Help

  /** Help entries that still mark the turn as being processed. */
  predicate PendingFor(h: HelpEntry, turn: int)
  {
    h.status == "processing" && h.turn == turn
  }

  /** The ledger without the turn's pending entries, in order. */
  function DropPending(entries: seq<HelpEntry>, turn: int): (r: seq<HelpEntry>)
    ensures |r| <= |entries|
    ensures forall h :: h in r <==> h in entries && !PendingFor(h, turn)
    decreases |entries|
  {
    if entries == [] then []
    else
      DropPending(entries[..|entries| - 1], turn)
      + (if PendingFor(entries[|entries| - 1], turn) then [] else [entries[|entries| - 1]])
  }

  /** After the job, no entry is pending for the turn, and the job's own entry is the last one. */
  lemma HelpLedgerSettled(entries: seq<HelpEntry>, turn: int, entry: HelpEntry)
    requires entry.status != "processing"
    ensures var r := DropPending(entries, turn) + [entry];
      && (forall h :: h in r ==> !PendingFor(h, turn))
      && r[|r| - 1] == entry
      && (forall h :: h in entries && !PendingFor(h, turn) ==> h in r)
  {
  }

  function HelpOutcomeEntry(turn: int, outcome: Result<string>, now: Instant): HelpEntry
  {
    match outcome
    case Ok(text) => HelpEntry(turn, now.iso, text, "completed")
    case Err(e) => HelpEntry(turn, now.iso, "Error getting help: " + e, "error")
  }

  /** `process_help_request_async`'s task; `dumpsJson` renders the conversation metadata. */
  method ProcessHelpRequest(db: Database, chatId: nat, dumpsJson: Json -> string, llm: string -> Result<string>, now: Instant)
    returns (asked: Option<string>)
    requires db.Valid()
    modifies db
    ensures db.Valid()
    ensures db.users == old(db.users) && db.notes == old(db.notes)
    ensures db.nextChatId == old(db.nextChatId) && db.nextNoteId == old(db.nextNoteId)
    ensures chatId !in old(db.chats) ==> db.chats == old(db.chats) && asked.None?
    ensures chatId in old(db.chats) ==>
      var c := old(db.chats)[chatId];
      var turn := CountUserMessages(c.messages);
      var withPlaceholder := c.helpResponses + [HelpEntry(turn, now.iso, "", "processing")];
      && asked == Some(ConversationText(c.(status := GettingHelp, helpResponses := withPlaceholder, updatedAt := now.stamp),
                                        true, dumpsJson, dumpsJson))
      && db.chats == old(db.chats)[chatId := c.(
           status := Ready,
           helpResponses := DropPending(withPlaceholder, turn) + [HelpOutcomeEntry(turn, llm(asked.value), now)],
           updatedAt := now.stamp)]
  {
    if chatId !in db.chats {
      return None;
    }
    var chat := db.chats[chatId];
    chat := chat.(status := GettingHelp);
    var currentTurn := CountUserMessages(chat.messages);
    chat := chat.(helpResponses := chat.helpResponses + [HelpEntry(currentTurn, now.iso, "", "processing")], updatedAt := now.stamp);
    db.SaveChat(chatId, chat);

    var conversationText := FormatConversationForLlm(chat, true, dumpsJson, dumpsJson);
    asked := Some(conversationText);
    var outcome := llm(conversationText);

    // both the success and the failure handler fetch the chat again and settle the ledger
    chat := db.chats[chatId];
    var helpResponses := DropPending(chat.helpResponses, currentTurn);
    helpResponses := helpResponses + [HelpOutcomeEntry(currentTurn, outcome, now)];
    chat := chat.(helpResponses := helpResponses, status := Ready, updatedAt := now.stamp);
    db.SaveChat(chatId, chat);
  }

  // ---------------------------------------------------------------------------
  // Grading

  function NoGet(j: Json): Raised
  {
    Raised("AttributeError", NoGetMessage(j))
  }

  /**
   * `grading_data.get('score', {}).get('percentage', 0)` as the score column stores it.
   * `pyRepr` renders a value the column refuses.
   */
  function ScoreOf(g: Json, pyRepr: Json -> string): (r: Outcome<Option<int>>)
    ensures g.JObj? && "score" !in g.fields ==> r == Value(Some(0))
    ensures !g.JObj? ==> r == Failure(NoGet(g))
  {
    if !g.JObj? then Failure(NoGet(g))
    else
      var score := if "score" in g.fields then g.fields["score"] else JObj(map[]);
      if !score.JObj? then Failure(NoGet(score))
      else
        var percentage := if "percentage" in score.fields then score.fields["percentage"] else JInt(0);
        match percentage
        case JInt(i) => Value(Some(i))
        case JNull => Value(None)
        case JBool(b) => Value(Some(if b then 1 else 0))
        case JStr(s) =>
          if Strs.PyInt(s).Some? then Value(Some(Strs.PyInt(s).value))
          else Failure(Raised("ValueError", "Field 'score' expected a number but got " + pyRepr(percentage) + "."))
        case _ => Failure(Raised("TypeError", "Field 'score' expected a number but got " + pyRepr(percentage) + "."))
  }

  /** The grading data a failure leaves behind. */
  function FailedGrading(raised: Raised): Json
  {
    JObj(map["error" := JStr(raised.message), "status" := JStr("failed"), "error_type" := JStr(raised.typeName)])
  }

  /** A failed grading leaves the chat ungraded, so the grade view starts a new job. */
  lemma FailedGradingAllowsRetry(raised: Raised)
    ensures !ChatOperationsViews.AlreadyGraded(FailedGrading(raised))
  {
    assert "error" in FailedGrading(raised).fields;
  }

  /** A reply with a numeric percentage stores that percentage as the score. */
  lemma ScoreOfPercentage(p: int, pyRepr: Json -> string)
    ensures ScoreOf(JObj(map["score" := JObj(map["percentage" := JInt(p)])]), pyRepr) == Value(Some(p))
  {
  }

  /** `process_grading_async`'s task; `llm` is what `get_grading_response` returns or raises. */
  method ProcessGrading(db: Database, chatId: nat, dumpsJson: Json -> string, pyRepr: Json -> string,
                        llm: string -> Outcome<Json>, now: Instant)
    returns (asked: Option<string>)
    requires db.Valid()
    modifies db
    ensures db.Valid()
    ensures db.users == old(db.users) && db.notes == old(db.notes)
    ensures db.nextChatId == old(db.nextChatId) && db.nextNoteId == old(db.nextNoteId)
    ensures chatId !in old(db.chats) ==> db.chats == old(db.chats) && asked.None?
    ensures chatId in old(db.chats) ==>
      var c := old(db.chats)[chatId];
      && asked == Some(ConversationText(c, true, dumpsJson, pyRepr))
      && match llm(asked.value)
         case Failure(raised) =>
           db.chats == old(db.chats)[chatId := c.(status := ReadyForGrading, gradingData := FailedGrading(raised),
                                                  updatedAt := now.stamp)]
         case Value(g) =>
           match ScoreOf(g, pyRepr)
           case Value(score) =>
             db.chats == old(db.chats)[chatId := c.(gradingData := g, score := score, completed := true, status := Complete,
                                                    updatedAt := now.stamp)]
           case Failure(raised) =>
             db.chats == old(db.chats)[chatId := c.(status := ReadyForGrading, gradingData := FailedGrading(raised),
                                                    updatedAt := now.stamp)]
  {
    if chatId !in db.chats {
      return None;
    }
    var chat := db.chats[chatId];
    var conversationText := FormatConversationForLlm(chat, true, dumpsJson, pyRepr);
    asked := Some(conversationText);
    var outcome := llm(conversationText);
    var failure: Option<Raised> := None;
    if outcome.Failure? {
      failure := Some(outcome.raised);
    } else {
      var score := ScoreOf(outcome.value, pyRepr);
      if score.Failure? {
        failure := Some(score.raised);
      } else {
        chat := chat.(gradingData := outcome.value, score := score.value, completed := true, status := Complete, updatedAt := now.stamp);
        db.SaveChat(chatId, chat);
      }
    }
    if failure.Some? {
      // nothing was saved: the fetched chat is the stored one
      chat := db.chats[chatId];
      chat := chat.(status := ReadyForGrading, gradingData := FailedGrading(failure.value), updatedAt := now.stamp);
      db.SaveChat(chatId, chat);
    }
  }
}
