/**
 * Conversion between the frontend's role/content messages and OpenWebUI's linked history
 * (frontend/src/app/utils/openWebUiMessageConverter.ts). `Date.now()` is an input.
 */
module MessageConverter {
  import opened Wrappers
  import opened ChatTypes
  import Strs

  /** The fields spread in by role: an assistant's model details, or the model list of any other role. */
  datatype ModelFields =
    | AssistantFields(model: string, modelName: string, modelIdx: int, done: bool)  // `userContext: null` too
    | OtherFields(models: seq<string>)

  datatype OpenWebUIMessage = OpenWebUIMessage(
    id: string,
    parentId: Option<string>,
    childrenIds: seq<string>,
    role: string,
    content: string,
    timestamp: int,
    modelFields: ModelFields)

  datatype OpenWebUIFormat = OpenWebUIFormat(
    messages: map<string, OpenWebUIMessage>,
    currentId: Option<string>,
    messageArray: seq<OpenWebUIMessage>)

  /** `msg-<base>-<index>`. */
  function MessageId(base: nat, index: nat): string
  {
    "msg-" + Strs.NatToStr(base) + "-" + Strs.NatToStr(index)
  }

  lemma CommonPrefix(p: string, x: string, y: string)
    requires p + x == p + y
    ensures x == y
  {
    assert x == (p + x)[|p|..];
    assert y == (p + y)[|p|..];
  }

  /** Distinct positions get distinct ids. */
  lemma MessageIdInjective(base: nat, i: nat, j: nat)
    ensures MessageId(base, i) == MessageId(base, j) ==> i == j
  {
    if MessageId(base, i) == MessageId(base, j) {
      var p := "msg-" + Strs.NatToStr(base) + "-";
      assert MessageId(base, i) == p + Strs.NatToStr(i);
      assert MessageId(base, j) == p + Strs.NatToStr(j);
      CommonPrefix(p, Strs.NatToStr(i), Strs.NatToStr(j));
      Strs.NatToStrInjective(i, j);
    }
  }

  /** What the conversion makes of the message at position `i`. */
  function Converted(messages: seq<ChatMessage>, modelName: string, base: nat, i: nat): OpenWebUIMessage
    requires i < |messages|
  {
    OpenWebUIMessage(
      MessageId(base, i),
      if i == 0 then None else Some(MessageId(base, i - 1)),
      if i + 1 < |messages| then [MessageId(base, i + 1)] else [],
      messages[i].role,
      messages[i].content,
      base / 1000,
      if messages[i].role == "assistant" then AssistantFields(modelName, modelName, 0, true) else OtherFields([modelName]))
  }

  /** The ids of the first `n` positions. */
  function IdsBelow(base: nat, n: nat): set<string>
  {
    if n == 0 then {} else IdsBelow(base, n - 1) + {MessageId(base, n - 1)}
  }

  /** The record's keys are exactly the ids of the array's positions. */
  lemma {:induction false} IdsBelowMembers(base: nat, n: nat, id: string)
    ensures id in IdsBelow(base, n) <==> exists i :: 0 <= i < n && id == MessageId(base, i)
  {
    if n > 0 {
      IdsBelowMembers(base, n - 1, id);
      if id == MessageId(base, n - 1) {
        assert exists i :: 0 <= i < n && id == MessageId(base, i);
      }
    }
  }

  /** The first `index` messages are converted: in the built, and in the record under their ids. */
  predicate Built(messages: seq<ChatMessage>, modelName: string, base: nat, index: nat,
                  built: seq<OpenWebUIMessage>, history: map<string, OpenWebUIMessage>)
    requires index <= |messages|
  {
    && |built| == index
    && (forall i :: 0 <= i < index ==> built[i] == Converted(messages, modelName, base, i))
    && history.Keys == IdsBelow(base, index)
    && (forall i :: 0 <= i < index ==> MessageId(base, i) in history && history[MessageId(base, i)] == built[i])
  }

  /** One more step of the conversion keeps `Built`. */
  lemma BuiltStep(messages: seq<ChatMessage>, modelName: string, base: nat, index: nat,
                  built: seq<OpenWebUIMessage>, history: map<string, OpenWebUIMessage>)
    requires index < |messages| && Built(messages, modelName, base, index, built, history)
    ensures var m := Converted(messages, modelName, base, index);
      Built(messages, modelName, base, index + 1, built + [m], history[MessageId(base, index) := m])
  {
    var m := Converted(messages, modelName, base, index);
    BuiltArrayStep(messages, modelName, base, index, built);
    BuiltKeysStep(base, index, history, m);
    BuiltHistoryStep(messages, modelName, base, index, built, history);
  }

  lemma BuiltArrayStep(messages: seq<ChatMessage>, modelName: string, base: nat, index: nat, built: seq<OpenWebUIMessage>)
    requires index < |messages| && |built| == index
    requires forall i :: 0 <= i < index ==> built[i] == Converted(messages, modelName, base, i)
    ensures var built' := built + [Converted(messages, modelName, base, index)];
      forall i :: 0 <= i < index + 1 ==> built'[i] == Converted(messages, modelName, base, i)
  {
  }

  lemma BuiltKeysStep(base: nat, index: nat, history: map<string, OpenWebUIMessage>, m: OpenWebUIMessage)
    requires history.Keys == IdsBelow(base, index)
    ensures history[MessageId(base, index) := m].Keys == IdsBelow(base, index + 1)
  {
  }

  lemma BuiltHistoryStep(messages: seq<ChatMessage>, modelName: string, base: nat, index: nat,
                         built: seq<OpenWebUIMessage>, history: map<string, OpenWebUIMessage>)
    requires index < |messages| && |built| == index
    requires forall i :: 0 <= i < index ==> MessageId(base, i) in history && history[MessageId(base, i)] == built[i]
    ensures var m := Converted(messages, modelName, base, index);
      var built', history' := built + [m], history[MessageId(base, index) := m];
      forall i :: 0 <= i < index + 1 ==> MessageId(base, i) in history' && history'[MessageId(base, i)] == built'[i]
  {
    var m := Converted(messages, modelName, base, index);
    var messageId := MessageId(base, index);
    var built', history' := built + [m], history[messageId := m];
    forall i | 0 <= i < index + 1
      ensures MessageId(base, i) in history' && history'[MessageId(base, i)] == built'[i]
    {
      if i < index {
        MessageIdInjective(base, i, index);
        assert built'[i] == built[i];
      }
    }
  }

  /** `convertMessagesToOpenWebUIFormat`. */
  method ConvertMessagesToOpenWebUIFormat(messages: seq<ChatMessage>, modelName: string, baseTimestamp: nat)
    returns (r: OpenWebUIFormat)
    ensures |r.messageArray| == |messages|
    ensures forall i :: 0 <= i < |messages| ==> r.messageArray[i] == Converted(messages, modelName, baseTimestamp, i)
    ensures r.messages.Keys == IdsBelow(baseTimestamp, |messages|)
    ensures forall i :: 0 <= i < |messages| ==>
      MessageId(baseTimestamp, i) in r.messages && r.messages[MessageId(baseTimestamp, i)] == r.messageArray[i]
    ensures r.currentId == if messages == [] then None else Some(MessageId(baseTimestamp, |messages| - 1))
  {
    var historyMessages: map<string, OpenWebUIMessage> := map[];
    var messageArray: seq<OpenWebUIMessage> := [];
    var previousId: Option<string> := None;
    var index := 0;
    while index < |messages|
      invariant 0 <= index <= |messages|
      invariant Built(messages, modelName, baseTimestamp, index, messageArray, historyMessages)
      invariant previousId == if index == 0 then None else Some(MessageId(baseTimestamp, index - 1))
    {
      var msg := messages[index];
      var messageId := MessageId(baseTimestamp, index);
      var timestamp := baseTimestamp / 1000;
      var nextIndex := index + 1;
      var nextId := if nextIndex < |messages| then Some(MessageId(baseTimestamp, nextIndex)) else None;
      var openWebUIMessage := OpenWebUIMessage(
        messageId, previousId, if nextId.Some? then [nextId.value] else [], msg.role, msg.content, timestamp,
        if msg.role == "assistant" then AssistantFields(modelName, modelName, 0, true) else OtherFields([modelName]));
      assert openWebUIMessage == Converted(messages, modelName, baseTimestamp, index);
      BuiltStep(messages, modelName, baseTimestamp, index, messageArray, historyMessages);
      historyMessages := historyMessages[messageId := openWebUIMessage];
      messageArray := messageArray + [openWebUIMessage];
      previousId := Some(messageId);
      index := index + 1;
    }
    r := OpenWebUIFormat(historyMessages, previousId, messageArray);
  }

  /** Neighbours are linked both ways, the first has no parent and the last no children. */
  lemma ConvertedIsLinked(messages: seq<ChatMessage>, modelName: string, base: nat)
    requires messages != []
    ensures Converted(messages, modelName, base, 0).parentId.None?
    ensures Converted(messages, modelName, base, |messages| - 1).childrenIds == []
    ensures forall i :: 0 <= i < |messages| - 1 ==>
      && Converted(messages, modelName, base, i).childrenIds == [Converted(messages, modelName, base, i + 1).id]
      && Converted(messages, modelName, base, i + 1).parentId == Some(Converted(messages, modelName, base, i).id)
  {
  }

  /** `convertOpenWebUIMessagesToSimple`. */
  function ToSimple(history: seq<OpenWebUIMessage>): (r: seq<ChatMessage>)
    ensures |r| == |history|
    ensures forall i :: 0 <= i < |history| ==> r[i] == ChatMessage(history[i].role, history[i].content)
  {
    seq(|history|, i requires 0 <= i < |history| => ChatMessage(history[i].role, history[i].content))
  }

  /** Converting to OpenWebUI and back gives the original messages. */
  lemma RoundTrip(messages: seq<ChatMessage>, modelName: string, base: nat, r: OpenWebUIFormat)
    requires |r.messageArray| == |messages|
    requires forall i :: 0 <= i < |messages| ==> r.messageArray[i] == Converted(messages, modelName, base, i)
    ensures ToSimple(r.messageArray) == messages
  {
    assert forall i :: 0 <= i < |messages| ==> ToSimple(r.messageArray)[i] == messages[i];
  }
}
