/**
 * The conversation page (frontend/src/app/pages/chat/ChatPage.tsx): what it derives from the
 * fetched chat, the fetched-data effect, the send and action handlers and the transcript export.
 * The fetch, the send mutation, the clock and JavaScript's string conversion of a JSON value are
 * inputs.
 */
module ChatPage {
  import opened Wrappers
  import opened Json
  import opened ChatTypes
  import Strs
  import ErrorUtils

  const POLLING_INTERVAL_MS: nat := 2000
  const SEND_FAILED: string := "Failed to send message"
  const ACTION_FAILED: string := "Failed to send action"
  const GENERIC_FAILURE: string := "An error occurred"
  const UNTITLED: string := "Untitled Chat"
  const DEFAULT_RESIDENT_NAME: string := "AI Tutor"
  const RULE_WIDTH: nat := 60

  /** `maxTurns`: a number, or `Infinity` when the metadata has none. */
  datatype TurnLimit = Unlimited | AtMost(n: int)

  datatype Action = Action(title: string, prompt: string)

  /** The resident block of the chat metadata; a missing or empty field is not shown. */
  datatype Resident = Resident(name: Option<string>, preferredName: Option<string>, initialState: Option<string>,
                               goals: Option<string>, mustDisclose: Option<string>, refusals: Option<string>)

  /** The part of the chat's `course_data` the page reads. */
  datatype ChatMetadata = ChatMetadata(maxTurns: Option<int>, actions: Option<seq<Action>>, resident: Option<Resident>)

  datatype HelpEntry = HelpEntry(status: string, helpText: string)

  /** The chat as the polling query returns it. */
  datatype FetchedChat = FetchedChat(title: string, status: string, completed: bool, messages: seq<ChatMessage>,
                                     gradingData: Json, helpResponses: seq<HelpEntry>)

  /** The awaited send mutation: success, an `error` member, or a throw. */
  datatype SendReply = Sent | SendError(error: Json) | SendThrew(error: Json)

  /** What the handler passes to the send mutation. */
  datatype SendRequest = SendRequest(chatId: int, message: string, isAction: bool)

  // ---------------------------------------------------------------------------
  // Derived values

  predicate IsProcessing(status: Option<string>)
  {
    status.Some? && status.value in {"thinking", "in_progress", "grading", "getting_help"}
  }

  /** The polling query refreshes every two seconds only while the chat is being processed. */
  function PollingInterval(status: Option<string>): (ms: nat)
    ensures ms == POLLING_INTERVAL_MS <==> IsProcessing(status)
    ensures ms == 0 <==> !IsProcessing(status)
  {
    if IsProcessing(status) then POLLING_INTERVAL_MS else 0
  }

  /** `chatData?.max_turns ?? Infinity`: only a missing value means no limit; 0 stays 0. */
  function MaxTurns(chatData: Option<ChatMetadata>): TurnLimit
  {
    if chatData.Some? && chatData.value.maxTurns.Some? then AtMost(chatData.value.maxTurns.value) else Unlimited
  }

  /** `maxTurns - turnCount`; `Infinity` minus a count stays `Infinity`. */
  function TurnsRemaining(limit: TurnLimit, turnCount: int): TurnLimit
  {
    match limit
    case Unlimited => Unlimited
    case AtMost(n) => AtMost(n - turnCount)
  }

  predicate MaxTurnsReached(limit: TurnLimit, turnCount: int)
  {
    limit.AtMost? && turnCount >= limit.n
  }

  /** The limit is reached exactly when no turn remains; without a limit it is never reached. */
  lemma ReachedIffNoneRemaining(limit: TurnLimit, turnCount: int)
    ensures MaxTurnsReached(limit, turnCount) <==> TurnsRemaining(limit, turnCount).AtMost? && TurnsRemaining(limit, turnCount).n <= 0
    ensures limit.Unlimited? ==> !MaxTurnsReached(limit, turnCount)
  {
  }

  predicate IsComplete(completed: bool, status: string)
  {
    completed || status == "complete"
  }

  /** Grading data is a result when it is truthy and not an error record. */
  predicate IsGraded(gradingData: Json)
  {
    JsTruthy(gradingData) && !HasKey(gradingData, "error")
  }

  /** `actions.findIndex(a => a.prompt === content)`: the first matching index, or -1. */
  function FindIndex(actions: seq<Action>, content: string): (r: int)
    ensures -1 <= r < |actions|
    ensures r >= 0 ==> actions[r].prompt == content && forall j :: 0 <= j < r ==> actions[j].prompt != content
    ensures r == -1 ==> forall j :: 0 <= j < |actions| ==> actions[j].prompt != content
    decreases |actions|
  {
    if actions == [] then -1
    else if actions[0].prompt == content then 0
    else
      var k := FindIndex(actions[1..], content);
      if k == -1 then -1 else k + 1
  }

  /** The action indices the scenario messages account for. */
  function UsedIndices(messages: seq<ChatMessage>, actions: seq<Action>): set<int>
    decreases |messages|
  {
    if messages == [] then {}
    else
      var last := messages[|messages| - 1];
      var before := UsedIndices(messages[..|messages| - 1], actions);
      if last.role == "scenario" && FindIndex(actions, last.content) != -1 then before + {FindIndex(actions, last.content)}
      else before
  }

  /**
   * An index is used exactly when some scenario message carries its prompt and no earlier action
   * has the same prompt.
   */
  lemma {:induction false} UsedIndicesMembers(messages: seq<ChatMessage>, actions: seq<Action>, i: int)
    ensures i in UsedIndices(messages, actions) <==>
      && 0 <= i < |actions|
      && (forall j :: 0 <= j < i ==> actions[j].prompt != actions[i].prompt)
      && exists k :: 0 <= k < |messages| && messages[k].role == "scenario" && messages[k].content == actions[i].prompt
    decreases |messages|
  {
    if messages != [] {
      var n := |messages| - 1;
      var init := messages[..n];
      UsedIndicesMembers(init, actions, i);
      var last := messages[n];
      if 0 <= i < |actions| && (forall j :: 0 <= j < i ==> actions[j].prompt != actions[i].prompt) {
        if last.role == "scenario" && last.content == actions[i].prompt {
          assert FindIndex(actions, last.content) == i;
        }
        if exists k :: 0 <= k < |messages| && messages[k].role == "scenario" && messages[k].content == actions[i].prompt {
          var k :| 0 <= k < |messages| && messages[k].role == "scenario" && messages[k].content == actions[i].prompt;
          if k < n {
            assert init[k] == messages[k];
          }
        }
        if exists k :: 0 <= k < n && init[k].role == "scenario" && init[k].content == actions[i].prompt {
          var k :| 0 <= k < n && init[k].role == "scenario" && init[k].content == actions[i].prompt;
          assert messages[k] == init[k];
        }
      }
    }
  }

  /** The number of learner messages, which is the turn count of a fetched chat. */
  function UserCount(messages: seq<ChatMessage>): (n: nat)
    ensures n <= |messages|
    decreases |messages|
  {
    if messages == [] then 0
    else UserCount(messages[..|messages| - 1]) + (if messages[|messages| - 1].role == "user" then 1 else 0)
  }

  /** A `label: value \n` line for a present, non-empty field, nothing otherwise; `caption` ends in `: `. */
  function Line(caption: string, value: Option<string>): string
  {
    if value.Some? && value.value != "" then caption + value.value + " \n" else ""
  }

  /**
   * The text of the system message a chat without messages starts with: the present resident
   * fields, in the order name, preferred name, setting, goals, must-disclose, refusals.
   */
  function SystemMessageText(chatData: Option<ChatMetadata>): string
  {
    if chatData.Some? && chatData.value.resident.Some? then
      var r := chatData.value.resident.value;
      Line("Name: ", r.name) + Line("Preferred Name: ", r.preferredName) + Line("Setting: ", r.initialState)
      + Line("Goals: ", r.goals) + Line("Must Disclose: ", r.mustDisclose) + Line("Refusals: ", r.refusals)
    else ""
  }

  /** No metadata, no resident or no present field give an empty system message. */
  lemma EmptyResidentNoLines(chatData: Option<ChatMetadata>)
    requires chatData.Some? && chatData.value.resident.Some? ==>
      var r := chatData.value.resident.value;
      r.name.None? && r.preferredName.None? && r.initialState.None? && r.goals.None? && r.mustDisclose.None?
      && r.refusals.None?
    ensures SystemMessageText(chatData) == ""
  {
  }

  /** With every field present the message lists them all, name first and refusals last. */
  lemma FullResident(name: string, preferred: string, state: string, goals: string, disclose: string, refusals: string)
    requires name != "" && preferred != "" && state != "" && goals != "" && disclose != "" && refusals != ""
    ensures SystemMessageText(Some(ChatMetadata(None, None, Some(Resident(Some(name), Some(preferred), Some(state),
                                                                          Some(goals), Some(disclose), Some(refusals))))))
      == ("Name: " + name + " \n") + ("Preferred Name: " + preferred + " \n") + ("Setting: " + state + " \n")
         + ("Goals: " + goals + " \n") + ("Must Disclose: " + disclose + " \n") + ("Refusals: " + refusals + " \n")
  {
    LinePresent("Name: ", name);
    LinePresent("Preferred Name: ", preferred);
    LinePresent("Setting: ", state);
    LinePresent("Goals: ", goals);
    LinePresent("Must Disclose: ", disclose);
    LinePresent("Refusals: ", refusals);
  }

  lemma LinePresent(caption: string, value: string)
    requires value != ""
    ensures Line(caption, Some(value)) == caption + value + " \n"
  {
  }

  // ---------------------------------------------------------------------------
  // Transcript export

  /** `role.charAt(0).toUpperCase() + role.slice(1)`. */
  function Capitalize(s: string): (r: string)
    ensures |r| == |s| && (s != [] ==> r[0] == Strs.UpperChar(s[0]) && r[1..] == s[1..])
  {
    if s == [] then [] else [Strs.UpperChar(s[0])] + s[1..]
  }

  /** The speaker label of an exported message. */
  function ExportRole(role: string, residentName: string): string
  {
    if role == "user" then "Student"
    else if role == "assistant" then residentName
    else if role == "scenario" then "Scenario"
    else Capitalize(role)
  }

  lemma ExportLabels(residentName: string)
    ensures ExportRole("user", residentName) == "Student"
    ensures ExportRole("assistant", residentName) == residentName
    ensures ExportRole("scenario", residentName) == "Scenario"
    ensures ExportRole("system", residentName) == "System"
  {
  }

  /** `chatData?.resident?.name || 'AI Tutor'`. */
  function ResidentName(chatData: Option<ChatMetadata>): string
  {
    if chatData.Some? && chatData.value.resident.Some? && chatData.value.resident.value.name.Some?
       && chatData.value.resident.value.name.value != ""
    then chatData.value.resident.value.name.value
    else DEFAULT_RESIDENT_NAME
  }

  /** The score line: 'Incomplete' before grading, the overall score after it, 'N/A' when it has none. */
  function ScoreText(gradingData: Json, jsString: Json -> string): string
  {
    if !IsGraded(gradingData) then "Incomplete"
    else
      var quality := Get(gradingData, "communication_quality");
      var score := if quality.Some? then Get(quality.value, "overall_score") else None;
      if score.Some? && score.value != JNull && jsString(score.value) != "" then jsString(score.value) else "N/A"
  }

  function Repeat(c: char, n: nat): (r: string)
    ensures |r| == n && forall k :: 0 <= k < n ==> r[k] == c
  {
    seq(n, _ => c)
  }

  function ExportHeader(title: string, timestamp: string, messageCount: nat, turnCount: int, score: string): string
  {
    "Chat Transcript: " + (if title != "" then title else UNTITLED) + "\n"
    + "Exported: " + timestamp + "\n"
    + "Total Messages: " + Strs.NatToStr(messageCount) + "\n"
    + "Turn Count: " + Strs.IntToStr(turnCount) + "\n"
    + "Score: " + score + "\n"
    + "\n" + Repeat('=', RULE_WIDTH) + "\n\n"
  }

  /** The entry of the message at position `index`, numbered from 1. */
  function ExportEntry(index: nat, m: ChatMessage, residentName: string): string
  {
    "[" + Strs.NatToStr(index + 1) + "] " + ExportRole(m.role, residentName) + ":\n" + m.content + "\n\n"
  }

  function ExportEntries(messages: seq<ChatMessage>, residentName: string): string
    decreases |messages|
  {
    if messages == [] then ""
    else
      var n := |messages| - 1;
      ExportEntries(messages[..n], residentName) + ExportEntry(n, messages[n], residentName)
  }

  /** One more message adds its entry at the end. */
  lemma ExportEntriesSnoc(messages: seq<ChatMessage>, i: nat, residentName: string)
    requires i < |messages|
    ensures ExportEntries(messages[..i + 1], residentName)
            == ExportEntries(messages[..i], residentName) + ExportEntry(i, messages[i], residentName)
  {
    assert messages[..i + 1][..i] == messages[..i];
  }

  lemma AppendAssoc(a: string, b: string, c: string)
    ensures (a + b) + c == a + (b + c)
  {
  }

  // ---------------------------------------------------------------------------
  // The welcome dialog of a chat

  /** `parseInt` on a route id: the value of the leading digits, `None` (NaN) when there are none. */
  function ParseLeadingInt(s: string): Option<int>
  {
    var t := Strs.JsTrimStart(s);
    var negative := t != [] && t[0] == '-';
    var body := if t != [] && (t[0] == '-' || t[0] == '+') then t[1..] else t;
    var digits := Strs.LeadingDigits(body);
    if digits == [] then None
    else if negative then Some(-(Strs.DigitsValue(digits) as int))
    else Some(Strs.DigitsValue(digits))
  }

  /** `'chat-intro-' + djangoChatId`: the number as JavaScript prints it, `null` or `NaN`. */
  function WelcomeKeyRead(id: Option<string>): string
  {
    "chat-intro-" +
    match id
    case None => "null"
    case Some(s) =>
      if s == "" then "null"
      else match ParseLeadingInt(s)
        case None => "NaN"
        case Some(n) => Strs.IntToStr(n)
  }

  /** As written, closing the dialog stores the flag under `'chat-intro-' + id`, the raw route text. */
  function WelcomeKeyWrittenAsIs(id: string): string
  {
    "chat-intro-" + id
  }

  /** The corrected close handler stores the flag under the key the page reads. */
  function WelcomeKeyWritten(id: string): string
  {
    WelcomeKeyRead(Some(id))
  }

  /** `hasSeenDialog`: `!!seenDialogs[key]`. */
  predicate HasSeen(seen: map<string, bool>, key: string)
  {
    key in seen && seen[key]
  }

  predicate WelcomeOpen(seen: map<string, bool>, id: string)
  {
    !HasSeen(seen, WelcomeKeyRead(Some(id)))
  }

  /** As written, a route id with a leading zero keeps the dialog open after it is closed. */
  lemma WelcomeReopensForPaddedId()
    ensures var seen := map[];
      WelcomeOpen(seen[WelcomeKeyWrittenAsIs("07") := true], "07")
  {
    PaddedIdKey();
    assert WelcomeKeyWrittenAsIs("07") != "chat-intro-7" by {
      assert |WelcomeKeyWrittenAsIs("07")| != |"chat-intro-7"|;
    }
  }

  /** The page reads the flag for route id `07` under `chat-intro-7`. */
  lemma PaddedIdKey()
    ensures WelcomeKeyRead(Some("07")) == "chat-intro-7"
  {
    PaddedIdParses();
    assert Strs.IntToStr(7) == "7";
  }

  /** `parseInt` reads the leading run of digits and stops at the first other character. */
  lemma ParseLeadingIntReadsDigits(d: string, rest: string)
    requires d != [] && Strs.AllDigits(d) && (rest == [] || !Strs.IsDigit(rest[0]))
    ensures ParseLeadingInt(d + rest) == Some(Strs.DigitsValue(d))
  {
    var t := d + rest;
    assert t[0] == d[0];
    Strs.LeadingDigitsOf(d, rest);
    DigitStart(t);
    ReadsBody(t, t, false);
  }

  /** After a minus sign the digits are read the same way and negated. */
  lemma ParseLeadingIntReadsNegative(d: string, rest: string)
    requires d != [] && Strs.AllDigits(d) && (rest == [] || !Strs.IsDigit(rest[0]))
    ensures ParseLeadingInt("-" + (d + rest)) == Some(-(Strs.DigitsValue(d) as int))
  {
    Strs.LeadingDigitsOf(d, rest);
    ReadsMinus(d + rest, d);
  }

  /** After a leading minus sign, the digits read are those that follow it. */
  lemma ReadsMinus(t: string, d: string)
    requires d != [] && Strs.LeadingDigits(t) == d
    ensures Strs.AllDigits(d) && ParseLeadingInt("-" + t) == Some(-(Strs.DigitsValue(d) as int))
  {
    MinusStart(t);
    ReadsBody("-" + t, t, true);
  }

  lemma MinusStart(t: string)
    ensures Strs.JsLeadingSpaces("-" + t) == 0
  {
    assert ("-" + t)[0] == '-';
  }

  lemma DigitStart(t: string)
    requires t != [] && Strs.IsDigit(t[0])
    ensures Strs.JsLeadingSpaces(t) == 0 && t[0] != '-' && t[0] != '+'
  {
  }

  /** With no leading space, the digits read are those of the text after its sign. */
  lemma ReadsBody(s: string, body: string, negative: bool)
    requires Strs.JsLeadingSpaces(s) == 0
    requires if negative then s == "-" + body else s == body && (body == [] || (body[0] != '-' && body[0] != '+'))
    ensures var digits := Strs.LeadingDigits(body);
            ParseLeadingInt(s) ==
              if digits == [] then None
              else if negative then Some(-(Strs.DigitsValue(digits) as int))
              else Some(Strs.DigitsValue(digits))
  {
    assert Strs.JsTrimStart(s) == s;
    if negative {
      assert s[0] == '-' && s[1..] == body;
    }
  }

  lemma NoLeadingSpace(s: string)
    requires s != [] && !Strs.IsJsSpace(s[0])
    ensures Strs.JsLeadingSpaces(s) == 0
  {
  }

  /** A text starting with anything but a space, a sign or a digit is `NaN`. */
  lemma ParseLeadingIntNaN(s: string)
    requires s != [] && !Strs.IsJsSpace(s[0]) && !Strs.IsDigit(s[0]) && s[0] != '-' && s[0] != '+'
    ensures ParseLeadingInt(s).None?
  {
    NoLeadingSpace(s);
  }

  lemma PaddedIdParses()
    ensures ParseLeadingInt("07") == Some(7)
  {
    assert Strs.LeadingDigits("07") == "07" by {
      assert Strs.LeadingDigits("7") == "7";
    }
    Strs.DigitsValueOfNatToStr(7);
    assert Strs.NatToStr(7) == "7";
    assert Strs.DigitsValue("07") == 7 by {
      assert "07"[..1] == "0";
    }
  }

  /** With the corrected key, closing the dialog keeps it closed, whatever the id. */
  lemma ClosingDismissesWelcome(seen: map<string, bool>, id: string)
    ensures !WelcomeOpen(seen[WelcomeKeyWritten(id) := true], id)
  {
  }

  // ---------------------------------------------------------------------------
  // Page state

  /** Nothing but whitespace. */
  predicate Blank(s: string)
  {
    forall i :: 0 <= i < |s| ==> Strs.IsJsSpace(s[i])
  }

  /** `!input.trim()` holds exactly for blank input. */
  lemma BlankIffTrimmedEmpty(s: string)
    ensures Blank(s) <==> Strs.JsTrim(s) == ""
  {
    Strs.JsTrimEmptyIffAllSpace(s);
  }

  /** `!djangoChatId`: no id, `NaN` or zero. */
  predicate HasChatId(chatId: Option<int>)
  {
    chatId.Some? && chatId.value != 0
  }

  /** The error message a failed send shows. */
  function SendErrorMessage(reply: SendReply, failure: string): Json
  {
    match reply
    case Sent => JNull
    case SendError(e) => ErrorUtils.ExtractErrorMessage(e, failure)
    case SendThrew(e) => ErrorUtils.ExtractErrorMessage(e, GENERIC_FAILURE)
  }

  /** A truthy `grading_data` picked up while ungraded that carries an `error` key. */
  predicate GradingFailed(fetched: FetchedChat, gradingData: Option<Json>)
  {
    JsTruthy(fetched.gradingData) && gradingData.None? && HasKey(fetched.gradingData, "error")
  }

  /** A truthy `grading_data` picked up while ungraded, without `error`, with a truthy `communication_quality`. */
  predicate GradingArrived(fetched: FetchedChat, gradingData: Option<Json>)
  {
    var g := fetched.gradingData;
    JsTruthy(g) && gradingData.None? && !HasKey(g, "error")
    && HasKey(g, "communication_quality") && JsTruthy(g.fields["communication_quality"])
  }

  /** The last help entry of an ungraded fetch; help is only looked at then. */
  predicate HelpConsidered(fetched: FetchedChat)
  {
    fetched.helpResponses != [] && !JsTruthy(fetched.gradingData)
  }

  function LatestHelp(fetched: FetchedChat): HelpEntry
    requires fetched.helpResponses != []
  {
    fetched.helpResponses[|fetched.helpResponses| - 1]
  }

  /** A completed, non-empty latest help entry while no help text is shown. */
  predicate HelpArrived(fetched: FetchedChat, helpText: Option<string>)
  {
    HelpConsidered(fetched) && LatestHelp(fetched).status == "completed" && LatestHelp(fetched).helpText != ""
    && (helpText.None? || helpText == Some(""))
  }

  /** A latest help entry with status `error`. */
  predicate HelpFailed(fetched: FetchedChat)
  {
    HelpConsidered(fetched) && LatestHelp(fetched).status == "error"
  }

  class PageState {
    var messages: seq<ChatMessage>
    var input: string
    var isSubmitting: bool
    var usedActionIndices: set<int>
    var turnCount: int
    var gradingData: Option<Json>
    var showGradingModal: bool
    var helpText: Option<string>
    var showHelpModal: bool
    var errorMessage: Json

    constructor ()
      ensures messages == [] && input == "" && !isSubmitting && usedActionIndices == {} && turnCount == 0
      ensures gradingData.None? && !showGradingModal && helpText.None? && !showHelpModal && errorMessage == JStr("")
    {
      messages := [];
      input := "";
      isSubmitting := false;
      usedActionIndices := {};
      turnCount := 0;
      gradingData := None;
      showGradingModal := false;
      helpText := None;
      showHelpModal := false;
      errorMessage := JStr("");
    }

    /** The `forEach` over the fetched messages that collects the used action indices. */
    static method CollectUsedIndices(messages: seq<ChatMessage>, actions: seq<Action>) returns (used: set<int>)
      ensures used == UsedIndices(messages, actions)
    {
      used := {};
      var i := 0;
      while i < |messages|
        invariant 0 <= i <= |messages|
        invariant used == UsedIndices(messages[..i], actions)
      {
        assert messages[..i + 1][..i] == messages[..i];
        var msg := messages[i];
        if msg.role == "scenario" {
          var actionIndex := FindIndex(actions, msg.content);
          if actionIndex != -1 {
            used := used + {actionIndex};
          }
        }
        i := i + 1;
      }
      assert messages[..|messages|] == messages;
    }

    /** The straight-line `+=` of the resident fields. */
    static method BuildSystemMessage(chatData: Option<ChatMetadata>) returns (systemMessage: string)
      ensures systemMessage == SystemMessageText(chatData)
    {
      systemMessage := "";
      if chatData.Some? && chatData.value.resident.Some? {
        var r := chatData.value.resident.value;
        if r.name.Some? && r.name.value != "" { systemMessage := systemMessage + Line("Name: ", r.name); }
        assert systemMessage == Line("Name: ", r.name);
        if r.preferredName.Some? && r.preferredName.value != "" {
          systemMessage := systemMessage + Line("Preferred Name: ", r.preferredName);
        }
        assert systemMessage == Line("Name: ", r.name) + Line("Preferred Name: ", r.preferredName);
        if r.initialState.Some? && r.initialState.value != "" {
          systemMessage := systemMessage + Line("Setting: ", r.initialState);
        }
        ghost var three := systemMessage;
        assert three == Line("Name: ", r.name) + Line("Preferred Name: ", r.preferredName) + Line("Setting: ", r.initialState);
        if r.goals.Some? && r.goals.value != "" { systemMessage := systemMessage + Line("Goals: ", r.goals); }
        assert systemMessage == three + Line("Goals: ", r.goals);
        ghost var four := systemMessage;
        if r.mustDisclose.Some? && r.mustDisclose.value != "" {
          systemMessage := systemMessage + Line("Must Disclose: ", r.mustDisclose);
        }
        assert systemMessage == four + Line("Must Disclose: ", r.mustDisclose);
        ghost var five := systemMessage;
        if r.refusals.Some? && r.refusals.value != "" {
          systemMessage := systemMessage + Line("Refusals: ", r.refusals);
        }
        assert systemMessage == five + Line("Refusals: ", r.refusals);
      }
    }

    /** The messages, turn count and used actions the fetched-data effect derives. */
    method ApplyFetchedMessages(fetched: FetchedChat, chatData: Option<ChatMetadata>)
      modifies this
      ensures fetched.messages != [] ==>
        && messages == fetched.messages && turnCount == UserCount(fetched.messages)
        && usedActionIndices == (if chatData.Some? && chatData.value.actions.Some?
                                 then UsedIndices(fetched.messages, chatData.value.actions.value)
                                 else old(usedActionIndices))
      ensures fetched.messages == [] ==>
        messages == [ChatMessage("system", SystemMessageText(chatData))] && turnCount == 0 && usedActionIndices == {}
      ensures input == old(input) && isSubmitting == old(isSubmitting) && gradingData == old(gradingData)
      ensures showGradingModal == old(showGradingModal) && helpText == old(helpText)
      ensures showHelpModal == old(showHelpModal) && errorMessage == old(errorMessage)
    {
      if |fetched.messages| > 0 {
        messages := fetched.messages;
        turnCount := CountUsers(fetched.messages);
        if chatData.Some? && chatData.value.actions.Some? {
          usedActionIndices := CollectUsedIndices(fetched.messages, chatData.value.actions.value);
        }
      } else {
        var systemMessage := BuildSystemMessage(chatData);
        messages := [ChatMessage("system", systemMessage)];
        turnCount := 0;
        usedActionIndices := {};
      }
    }

    /** `filter(m => m.role === 'user').length`. */
    static method CountUsers(messages: seq<ChatMessage>) returns (n: nat)
      ensures n == UserCount(messages)
    {
      n := 0;
      var i := 0;
      while i < |messages|
        invariant 0 <= i <= |messages|
        invariant n == UserCount(messages[..i])
      {
        assert messages[..i + 1][..i] == messages[..i];
        if messages[i].role == "user" {
          n := n + 1;
        }
        i := i + 1;
      }
      assert messages[..|messages|] == messages;
    }

    /**
     * The grading and help pick-up of the fetched-data effect: a grading error or a new result,
     * otherwise, while ungraded, the latest help entry. Every other case leaves the state as it was.
     */
    method PickUpResults(fetched: FetchedChat, jsString: Json -> string)
      modifies this
      ensures gradingData == (if GradingArrived(fetched, old(gradingData)) then Some(fetched.gradingData) else old(gradingData))
      ensures showGradingModal == (GradingArrived(fetched, old(gradingData)) || old(showGradingModal))
      ensures helpText == (if HelpArrived(fetched, old(helpText)) then Some(LatestHelp(fetched).helpText) else old(helpText))
      ensures showHelpModal == (HelpArrived(fetched, old(helpText)) || old(showHelpModal))
      ensures errorMessage ==
        if GradingFailed(fetched, old(gradingData)) then
          JStr("Grading failed: " + jsString(fetched.gradingData.fields["error"]))
        else if HelpFailed(fetched) then JStr("Help request failed: " + LatestHelp(fetched).helpText)
        else old(errorMessage)
      ensures messages == old(messages) && input == old(input) && isSubmitting == old(isSubmitting)
      ensures usedActionIndices == old(usedActionIndices) && turnCount == old(turnCount)
    {
      var g := fetched.gradingData;
      if JsTruthy(g) && gradingData.None? {
        if HasKey(g, "error") {
          errorMessage := JStr("Grading failed: " + jsString(g.fields["error"]));
        } else if HasKey(g, "communication_quality") && JsTruthy(g.fields["communication_quality"]) {
          gradingData := Some(g);
          showGradingModal := true;
        }
      }
      var hs := fetched.helpResponses;
      if |hs| > 0 && !JsTruthy(g) {
        var latestHelp := hs[|hs| - 1];
        if latestHelp.status == "completed" && latestHelp.helpText != "" && (helpText.None? || helpText == Some("")) {
          helpText := Some(latestHelp.helpText);
          showHelpModal := true;
        } else if latestHelp.status == "error" {
          errorMessage := JStr("Help request failed: " + latestHelp.helpText);
        }
      }
    }

    /**
     * `handleSend`: nothing happens for blank input, a reached limit or a missing id; otherwise one
     * turn is counted, the input is cleared and the text is sent once.
     */
    method HandleSend(limit: TurnLimit, chatId: Option<int>, send: SendRequest -> SendReply)
      returns (sent: Option<SendRequest>)
      modifies this
      ensures Blank(old(input)) || MaxTurnsReached(limit, old(turnCount)) || !HasChatId(chatId) ==>
        sent.None? && unchanged(this)
      ensures !(Blank(old(input)) || MaxTurnsReached(limit, old(turnCount)) || !HasChatId(chatId)) ==>
        && sent == Some(SendRequest(chatId.value, old(input), false))
        && turnCount == old(turnCount) + 1 && input == "" && !isSubmitting
        && errorMessage == (if send(sent.value).Sent? then old(errorMessage) else SendErrorMessage(send(sent.value), SEND_FAILED))
        && messages == old(messages) && usedActionIndices == old(usedActionIndices)
        && gradingData == old(gradingData) && helpText == old(helpText)
        && showGradingModal == old(showGradingModal) && showHelpModal == old(showHelpModal)
    {
      if Blank(input) || MaxTurnsReached(limit, turnCount) || !HasChatId(chatId) {
        return None;
      }
      isSubmitting := true;
      turnCount := turnCount + 1;
      var userMessageText := input;
      input := "";
      var request := SendRequest(chatId.value, userMessageText, false);
      var reply := send(request);
      if !reply.Sent? {
        errorMessage := SendErrorMessage(reply, SEND_FAILED);
      }
      isSubmitting := false;
      sent := Some(request);
    }

    /** `handleActionClick`: a used index, a reached limit or a missing id does nothing. */
    method HandleActionClick(action: Action, actionIndex: int, limit: TurnLimit, chatId: Option<int>,
                             send: SendRequest -> SendReply)
      returns (sent: Option<SendRequest>)
      modifies this
      ensures actionIndex in old(usedActionIndices) || MaxTurnsReached(limit, old(turnCount)) || !HasChatId(chatId) ==>
        sent.None? && unchanged(this)
      ensures !(actionIndex in old(usedActionIndices) || MaxTurnsReached(limit, old(turnCount)) || !HasChatId(chatId)) ==>
        && sent == Some(SendRequest(chatId.value, action.prompt, true))
        && turnCount == old(turnCount) + 1 && usedActionIndices == old(usedActionIndices) + {actionIndex}
        && !isSubmitting && input == old(input)
        && errorMessage == (if send(sent.value).Sent? then old(errorMessage) else SendErrorMessage(send(sent.value), ACTION_FAILED))
        && messages == old(messages) && gradingData == old(gradingData) && helpText == old(helpText)
        && showGradingModal == old(showGradingModal) && showHelpModal == old(showHelpModal)
    {
      if actionIndex in usedActionIndices || MaxTurnsReached(limit, turnCount) || !HasChatId(chatId) {
        return None;
      }
      isSubmitting := true;
      turnCount := turnCount + 1;
      usedActionIndices := usedActionIndices + {actionIndex};
      var request := SendRequest(chatId.value, action.prompt, true);
      var reply := send(request);
      if !reply.Sent? {
        errorMessage := SendErrorMessage(reply, ACTION_FAILED);
      }
      isSubmitting := false;
      sent := Some(request);
    }

    /** The transcript `handleExportChat` downloads: the header, then one entry per message. */
    method ExportTranscript(fetched: FetchedChat, chatData: Option<ChatMetadata>, timestamp: string,
                            jsString: Json -> string)
      returns (transcript: string)
      ensures transcript == ExportHeader(fetched.title, timestamp, |messages|, turnCount,
                                         ScoreText(fetched.gradingData, jsString))
                            + ExportEntries(messages, ResidentName(chatData))
    {
      var residentName := ResidentName(chatData);
      var scoreText := ScoreText(fetched.gradingData, jsString);
      var header := ExportHeader(fetched.title, timestamp, |messages|, turnCount, scoreText);
      transcript := AppendEntries(header, messages, residentName);
    }

    /** The `forEach` that appends the numbered entries to the transcript. */
    static method AppendEntries(header: string, messages: seq<ChatMessage>, residentName: string)
      returns (transcript: string)
      ensures transcript == header + ExportEntries(messages, residentName)
    {
      transcript := header;
      var i := 0;
      while i < |messages|
        invariant 0 <= i <= |messages|
        invariant transcript == header + ExportEntries(messages[..i], residentName)
      {
        var entry := ExportEntry(i, messages[i], residentName);
        ExportEntriesSnoc(messages, i, residentName);
        AppendAssoc(header, ExportEntries(messages[..i], residentName), entry);
        transcript := transcript + entry;
        i := i + 1;
      }
      assert messages[..|messages|] == messages;
    }
  }
}
