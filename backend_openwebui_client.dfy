/**
 * The OpenWebUI client (backend/api/openwebui_client.py): the token it sends, the request it
 * builds, how it turns the server's reply into a value or an exception, and the response shapes
 * each of its three callers accepts. The HTTP exchange is an input: a function from the request
 * to what came back.
 */
module OpenWebUIClient {
  import opened Wrappers
  import opened Json
  import opened Models
  import Strs

  const DEFAULT_BASE_URL: string := "http://localhost:8080"
  const COMPLETIONS_PATH: string := "/api/chat/completions"
  const DEFAULT_TIMEOUT: nat := 180
  const GRADING_TIMEOUT: nat := 300
  const RESIDENT_MODEL: string := "slc-resident"
  const HELPER_MODEL: string := "slc-conversation-helper"
  const EVALUATOR_MODEL: string := "slc-tutor-evaluator"
  const HELPER_TEMPERATURE: real := 0.7
  const EVALUATOR_TEMPERATURE: real := 0.3

  const NO_LOGIN_TOKEN: string := "No token returned from OpenWebUI login"
  const EXPIRED_NO_USER: string := "OpenWebUI token expired and no user available for re-authentication"
  const EXPIRED_LOG_IN_AGAIN: string := "OpenWebUI token expired - user needs to log in again"
  const EXPIRED_NO_PROFILE: string := "OpenWebUI token expired and no profile found for user"

  predicate TruthyStr(s: Option<string>)
  {
    s.Some? && s.value != ""
  }

  /** The token a new client holds: an explicit non-empty token, else the user's profile token. */
  function InitialToken(user: Option<User>, userToken: Option<string>): (t: Option<string>)
    ensures TruthyStr(userToken) ==> t == userToken
    ensures user.None? ==> t == userToken
    ensures user.Some? && !TruthyStr(userToken) ==>
      t == (if user.value.profile.Some? then user.value.profile.value.openwebuiToken else None)
  {
    if user.Some? && !TruthyStr(userToken) then
      // a user without a profile raises `RelatedObjectDoesNotExist`, caught as no token
      if user.value.profile.Some? then user.value.profile.value.openwebuiToken else None
    else userToken
  }

  /** One value of the request's JSON payload. */
  datatype Field = FStr(s: string) | FMessages(messages: seq<Msg>) | FReal(x: real) | FInt(i: int)

  /** What the client sends: the URL, the headers, the JSON payload and the timeout in seconds. */
  datatype Request = Request(url: string, headers: map<string, string>, payload: map<string, Field>, timeout: nat)

  /**
   * What came back: a timeout, a transport failure with `str(e)`, or a reply with its status,
   * its body parsed as JSON (`None` when it is not JSON), its text, and the `str()` of the
   * exception `raise_for_status()` or `.json()` raises on it.
   */
  datatype HttpOutcome =
    | TimedOut
    | NoResponse(error: string)
    | Replied(status: nat, json: Option<Json>, text: string, error: string)

  /** `str(value)` in an f-string: a string is itself, anything else its rendering. */
  function Render(j: Json, pyStr: Json -> string): string
  {
    if j.JStr? then j.s else pyStr(j)
  }

  /** The member's value when the object has it and it is truthy. */
  predicate TruthyMember(j: Json, key: string)
  {
    Get(j, key).Some? && Truthy(Get(j, key).value)
  }

  /**
   * The error detail put into the raised message: for a JSON object the first truthy of
   * `detail`, `error` and `message`, else the object's rendering, a nested object reduced to its
   * truthy `message`; any other JSON value rendered; a body that is not JSON gives its text, or
   * the exception's text when the body is empty.
   */
  function ErrorDetail(json: Option<Json>, text: string, error: string, pyStr: Json -> string): (d: string)
    ensures json.None? ==> d == (if text != "" then text else error)
    ensures json.Some? && json.value.JObj? && TruthyMember(json.value, "detail") && Get(json.value, "detail").value.JStr? ==>
      d == Get(json.value, "detail").value.s
    ensures json.Some? && json.value.JObj? && TruthyMember(json.value, "detail") ==>
      d == Reduced(Get(json.value, "detail").value, pyStr)
    ensures (json.Some? && json.value.JObj? && !TruthyMember(json.value, "detail")
             && TruthyMember(json.value, "error")) ==>
      d == Reduced(Get(json.value, "error").value, pyStr)
    ensures (json.Some? && json.value.JObj? && !TruthyMember(json.value, "detail")
             && !TruthyMember(json.value, "error") && TruthyMember(json.value, "message")) ==>
      d == Reduced(Get(json.value, "message").value, pyStr)
    ensures (json.Some? && json.value.JObj? && !TruthyMember(json.value, "detail")
             && !TruthyMember(json.value, "error") && !TruthyMember(json.value, "message")) ==>
      d == pyStr(json.value)
    ensures json.Some? && !json.value.JObj? ==> d == pyStr(json.value)
  {
    if json.None? then (if text != "" then text else error)
    else
      var j := json.value;
      if !j.JObj? then pyStr(j)
      else
        var detail :=
          if TruthyMember(j, "detail") then Get(j, "detail").value
          else if TruthyMember(j, "error") then Get(j, "error").value
          else if TruthyMember(j, "message") then Get(j, "message").value
          else JStr(pyStr(j));
        Reduced(detail, pyStr)
  }

  /** The chosen detail as the message shows it: a dict is reduced to its truthy `message`, else rendered. */
  function Reduced(detail: Json, pyStr: Json -> string): string
  {
    if detail.JObj? then
      (if TruthyMember(detail, "message") then Render(Get(detail, "message").value, pyStr) else pyStr(detail))
    else Render(detail, pyStr)
  }

  /** A dict detail reports its truthy `message` as `str()` writes it, and otherwise its own rendering. */
  lemma ReducedObject(fields: map<string, Json>, pyStr: Json -> string)
    ensures "message" in fields && Truthy(fields["message"]) ==>
      Reduced(JObj(fields), pyStr) == Render(fields["message"], pyStr)
    ensures !("message" in fields && Truthy(fields["message"])) ==> Reduced(JObj(fields), pyStr) == pyStr(JObj(fields))
  {
  }

  /** `{'error': {'message': m}}` reports `m`. */
  lemma NestedErrorMessage(m: string, pyStr: Json -> string)
    requires m != ""
    ensures ErrorDetail(Some(JObj(map["error" := JObj(map["message" := JStr(m)])])), "", "", pyStr) == m
  {
    var j := JObj(map["error" := JObj(map["message" := JStr(m)])]);
    var inner := JObj(map["message" := JStr(m)]);
    assert "message" in inner.fields;
    assert Get(j, "error") == Some(inner);
    assert !TruthyMember(j, "detail");
    assert TruthyMember(j, "error");
    assert TruthyMember(inner, "message");
  }

  /** An object without any truthy detail, error or message is reported by its rendering. */
  lemma ErrorDetailFallsBack(fields: map<string, Json>, pyStr: Json -> string)
    requires forall k :: k in {"detail", "error", "message"} && k in fields ==> !Truthy(fields[k])
    ensures ErrorDetail(Some(JObj(fields)), "", "", pyStr) == pyStr(JObj(fields))
  {
    assert !TruthyMember(JObj(fields), "detail");
    assert !TruthyMember(JObj(fields), "error");
    assert !TruthyMember(JObj(fields), "message");
  }

  /** `raise_for_status()` raises for client and server errors only. */
  predicate IsHttpError(status: nat)
  {
    400 <= status < 600
  }

  function Raise(message: string): Raised
  {
    Raised("Exception", message)
  }

  function ApiError(status: string, detail: string): Raised
  {
    Raise("OpenWebUI API error: " + status + ": " + detail)
  }

  class Client {
    var baseUrl: string
    var user: Option<User>
    var userToken: Option<string>

    /** `OpenWebUIClient(user, user_token)`; `baseUrlEnv` is `OPENWEBUI_BASE_URL`. */
    constructor (baseUrlEnv: Option<string>, user: Option<User>, userToken: Option<string>)
      ensures baseUrl == baseUrlEnv.GetOr(DEFAULT_BASE_URL)
      ensures this.user == user
      ensures this.userToken == InitialToken(user, userToken)
    {
      baseUrl := baseUrlEnv.GetOr(DEFAULT_BASE_URL);
      this.user := user;
      this.userToken := userToken;
      if user.Some? && !TruthyStr(userToken) {
        if user.value.profile.Some? {
          this.userToken := user.value.profile.value.openwebuiToken;
        } else {
          this.userToken := None;
        }
      }
    }

    /** `_get_headers`: always the JSON content type, and a bearer token exactly when one is held. */
    function Headers(): (h: map<string, string>)
      reads this
      ensures h.Keys <= {"Content-Type", "Authorization"}
      ensures "Content-Type" in h && h["Content-Type"] == "application/json"
      ensures "Authorization" in h <==> TruthyStr(userToken)
      ensures "Authorization" in h ==> h["Authorization"] == "Bearer " + userToken.value
    {
      var headers := map["Content-Type" := "application/json"];
      if TruthyStr(userToken) then headers["Authorization" := "Bearer " + userToken.value] else headers
    }

    /**
     * `login` once the sign-in reply is parsed: a falsy `token` raises, any other token is kept.
     * A token that is not a string is kept as its rendering.
     */
    method Login(data: Json, pyStr: Json -> string) returns (r: Outcome<string>)
      modifies this
      ensures baseUrl == old(baseUrl) && user == old(user)
      ensures !data.JObj? ==> r == Failure(Raised("AttributeError", NoGetMessage(data))) && userToken == old(userToken)
      ensures data.JObj? && !TruthyMember(data, "token") ==> r == Failure(Raised("ValueError", NO_LOGIN_TOKEN))
                                                             && userToken == old(userToken)
      ensures TruthyMember(data, "token") ==>
        var token := Render(Get(data, "token").value, pyStr);
        r == Value(token) && userToken == Some(token)
    {
      if !data.JObj? {
        return Failure(Raised("AttributeError", NoGetMessage(data)));
      }
      var token := Get(data, "token");
      if !(token.Some? && Truthy(token.value)) {
        return Failure(Raised("ValueError", NO_LOGIN_TOKEN));
      }
      var text := Render(token.value, pyStr);
      userToken := Some(text);
      r := Value(text);
    }

    /** The request `chat_completion` sends. */
    function RequestFor(model: string, messages: seq<Msg>, temperature: Option<real>, maxTokens: Option<int>,
                        timeout: Option<nat>): (q: Request)
      reads this
      ensures q.url == baseUrl + COMPLETIONS_PATH && q.headers == Headers()
      ensures q.timeout == timeout.GetOr(DEFAULT_TIMEOUT)
      ensures q.payload.Keys == {"model", "messages"} + (if temperature.Some? then {"temperature"} else {})
                                + (if maxTokens.Some? then {"max_tokens"} else {})
      ensures q.payload["model"] == FStr(model) && q.payload["messages"] == FMessages(messages)
      ensures temperature.Some? ==> q.payload["temperature"] == FReal(temperature.value)
      ensures maxTokens.Some? ==> q.payload["max_tokens"] == FInt(maxTokens.value)
    {
      var payload := map["model" := FStr(model), "messages" := FMessages(messages)];
      var payload := if temperature.Some? then payload["temperature" := FReal(temperature.value)] else payload;
      var payload := if maxTokens.Some? then payload["max_tokens" := FInt(maxTokens.value)] else payload;
      Request(baseUrl + COMPLETIONS_PATH, Headers(), payload, timeout.GetOr(DEFAULT_TIMEOUT))
    }

    /** What `chat_completion` returns or raises for what came back from the server. */
    function Completion(outcome: HttpOutcome, timeout: nat, pyStr: Json -> string): (r: Outcome<Json>)
      reads this
      ensures r.Value? <==> outcome.Replied? && !IsHttpError(outcome.status) && outcome.json.Some?
      ensures r.Value? ==> r.value == outcome.json.value
      ensures r.Failure? ==> r.raised.typeName == "Exception"
      ensures outcome.Replied? && outcome.status == 401 ==>
        r == Failure(Raise(if user.None? then EXPIRED_NO_USER
                           else if user.value.profile.Some? then EXPIRED_LOG_IN_AGAIN
                           else EXPIRED_NO_PROFILE))
    {
      match outcome
      case TimedOut => Failure(Raise("OpenWebUI request timed out after " + Strs.NatToStr(timeout) + " seconds"))
      case NoResponse(error) => Failure(ApiError("None", error))
      case Replied(status, json, text, error) =>
        if status == 401 then
          if user.None? then Failure(Raise(EXPIRED_NO_USER))
          else if user.value.profile.Some? then Failure(Raise(EXPIRED_LOG_IN_AGAIN))
          else Failure(Raise(EXPIRED_NO_PROFILE))
        else if IsHttpError(status) then Failure(ApiError(Strs.NatToStr(status), ErrorDetail(json, text, error, pyStr)))
        // `.json()` on a body that is not JSON raises a request exception without a response
        else if json.None? then Failure(ApiError("None", error))
        else Value(json.value)
    }

    /** `get_conversation_response`: forwards the valid messages and extracts the first choice's content. */
    method GetConversationResponse(model: string, messages: seq<Msg>, server: Request -> HttpOutcome, pyStr: Json -> string)
      returns (sent: Request, r: Outcome<Json>)
      ensures sent == RequestFor(model, ValidMessages(messages), None, None, None)
      ensures r == match Completion(server(sent), DEFAULT_TIMEOUT, pyStr)
                   case Failure(raised) => Failure(raised)
                   case Value(response) => ConversationContent(response, pyStr)
    {
      var validated, totalChars := ValidateMessages(messages);
      sent := RequestFor(model, validated, None, None, None);
      var response := Completion(server(sent), DEFAULT_TIMEOUT, pyStr);
      if response.Failure? {
        return sent, Failure(response.raised);
      }
      r := ConversationContent(response.value, pyStr);
    }

    /**
     * `get_help_response`: the helper model at temperature 0.7 with the default timeout; the help
     * text is the first choice's message content.
     */
    method HelpResponse(messages: seq<Msg>, server: Request -> HttpOutcome, pyStr: Json -> string)
      returns (sent: Request, r: Outcome<Json>)
      ensures sent.url == baseUrl + COMPLETIONS_PATH && sent.headers == Headers() && sent.timeout == DEFAULT_TIMEOUT
      ensures sent.payload == map["model" := FStr(HELPER_MODEL), "messages" := FMessages(messages),
                                  "temperature" := FReal(HELPER_TEMPERATURE)]
      ensures var c := Completion(server(sent), sent.timeout, pyStr);
        && (c.Failure? ==> r == c)
        && (c.Value? ==> (r.Value? <==> HasFirstContent(c.value)))
        && (r.Value? ==> c.Value? && r.value == FirstContentOf(c.value))
    {
      sent := RequestFor(HELPER_MODEL, messages, Some(HELPER_TEMPERATURE), None, None);
      var response := Completion(server(sent), DEFAULT_TIMEOUT, pyStr);
      if response.Failure? {
        return sent, response;
      }
      r := HelpContent(response.value, pyStr);
    }

    /**
     * `get_grading_response`: the evaluator model at temperature 0.3 with a 300-second timeout;
     * the grading data is the first choice's content parsed as JSON.
     */
    method GradingResponse(messages: seq<Msg>, server: Request -> HttpOutcome, pyStr: Json -> string,
                           parse: string -> Result<Json>)
      returns (sent: Request, r: Outcome<Json>)
      ensures sent.url == baseUrl + COMPLETIONS_PATH && sent.headers == Headers() && sent.timeout == GRADING_TIMEOUT
      ensures sent.payload == map["model" := FStr(EVALUATOR_MODEL), "messages" := FMessages(messages),
                                  "temperature" := FReal(EVALUATOR_TEMPERATURE)]
      ensures var c := Completion(server(sent), sent.timeout, pyStr);
        && (c.Failure? ==> r == c)
        && (c.Value? ==> (r.Value? <==> HasFirstContent(c.value) && FirstContentOf(c.value).JStr?
                                         && parse(FirstContentOf(c.value).s).Ok?))
        && (r.Value? ==> c.Value? && r.value == parse(FirstContentOf(c.value).s).value)
    {
      sent := RequestFor(EVALUATOR_MODEL, messages, Some(EVALUATOR_TEMPERATURE), None, Some(GRADING_TIMEOUT));
      var response := Completion(server(sent), GRADING_TIMEOUT, pyStr);
      if response.Failure? {
        return sent, response;
      }
      r := GradingContent(response.value, pyStr, parse);
    }
  }

  // ---------------------------------------------------------------------------
  // Messages forwarded to the resident model

  /** A message with a truthy role and a truthy content. */
  predicate IsValidMessage(m: Msg)
  {
    TruthyStr(m.role) && TruthyStr(m.content)
  }

  /** The valid messages, in order, carrying only their role and content. */
  function ValidMessages(ms: seq<Msg>): (r: seq<Msg>)
    ensures |r| <= |ms|
    ensures forall k :: 0 <= k < |r| ==> IsValidMessage(r[k])
    decreases |ms|
  {
    if ms == [] then []
    else ValidMessages(ms[..|ms| - 1]) + (if IsValidMessage(ms[|ms| - 1]) then [ms[|ms| - 1]] else [])
  }

  /** Exactly the valid messages are forwarded. */
  lemma {:induction false} ValidMessagesMembers(ms: seq<Msg>)
    ensures forall m :: m in ValidMessages(ms) <==> m in ms && IsValidMessage(m)
    decreases |ms|
  {
    if ms != [] {
      var init, last := ms[..|ms| - 1], ms[|ms| - 1];
      ValidMessagesMembers(init);
      ValidMessagesStep(ms);
      assert ms == init + [last];
    }
  }

  /** Valid messages pass through unchanged and in order. */
  lemma {:induction false} ValidMessagesKeepsValid(ms: seq<Msg>)
    requires forall k :: 0 <= k < |ms| ==> IsValidMessage(ms[k])
    ensures ValidMessages(ms) == ms
    decreases |ms|
  {
    if ms != [] {
      var init, last := ms[..|ms| - 1], ms[|ms| - 1];
      assert forall k :: 0 <= k < |init| ==> init[k] == ms[k];
      ValidMessagesKeepsValid(init);
      ValidMessagesStep(ms);
      assert ms == init + [last];
    }
  }

  /** One more message is forwarded exactly when it is valid. */
  lemma ValidMessagesStep(ms: seq<Msg>)
    requires ms != []
    ensures ValidMessages(ms) == ValidMessages(ms[..|ms| - 1]) + (if IsValidMessage(ms[|ms| - 1]) then [ms[|ms| - 1]] else [])
  {
  }

  /** The filter over one more message of the list. */
  lemma ValidPrefixStep(ms: seq<Msg>, i: nat)
    requires i < |ms|
    ensures ValidMessages(ms[..i + 1]) == ValidMessages(ms[..i]) + (if IsValidMessage(ms[i]) then [ms[i]] else [])
  {
    assert ms[..i + 1][..i] == ms[..i];
    ValidMessagesStep(ms[..i + 1]);
  }

  lemma ContentCharsAppend(ms: seq<Msg>, m: Msg)
    ensures ContentChars(ms + [m]) == ContentChars(ms) + |m.content.GetOr("")|
  {
    assert (ms + [m])[..|ms|] == ms;
  }

  /** The validation loop of `get_conversation_response`, with its character count. */
  method ValidateMessages(messages: seq<Msg>) returns (validated: seq<Msg>, totalChars: nat)
    ensures validated == ValidMessages(messages)
    ensures totalChars == ContentChars(validated)
  {
    validated := [];
    totalChars := 0;
    var i := 0;
    while i < |messages|
      invariant 0 <= i <= |messages|
      invariant validated == ValidMessages(messages[..i])
      invariant totalChars == ContentChars(validated)
    {
      var msg := messages[i];
      ValidPrefixStep(messages, i);
      if IsValidMessage(msg) {
        // `str()` of a string content is the content itself
        var content := msg.content.value;
        assert M(msg.role.value, content) == msg;
        ContentCharsAppend(validated, msg);
        totalChars := totalChars + |content|;
        validated := validated + [M(msg.role.value, content)];
      }
      i := i + 1;
    }
    assert messages[..|messages|] == messages;
  }

  // ---------------------------------------------------------------------------
  // Response shapes

  /** A subscript: `[n]` or `['name']`. */
  datatype Key = Index(n: nat) | Name(name: string)

  /** `str()` of the `KeyError` a missing key raises: the key's `repr`. */
  function KeyErrorText(k: Key): string
  {
    match k
    case Index(n) => Strs.NatToStr(n)
    case Name(name) => "'" + name + "'"
  }

  /** The value `x[k]` evaluates to, or the type and text of the exception it raises. */
  datatype Sub = Got(value: Json) | SubError(typeName: string, message: string)

  /** Python's `x[k]` on a decoded JSON value. */
  function Subscript(x: Json, k: Key): (r: Sub)
    ensures r.Got? <==> (x.JObj? && k.Name? && k.name in x.fields) || (x.JArr? && k.Index? && k.n < |x.items|)
                        || (x.JStr? && k.Index? && k.n < |x.s|)
    ensures r.Got? && x.JObj? ==> r.value == x.fields[k.name]
    ensures r.Got? && x.JArr? ==> r.value == x.items[k.n]
    ensures x.JObj? && r.SubError? ==> r == SubError("KeyError", KeyErrorText(k))
    ensures r.SubError? ==> r.typeName in {"KeyError", "IndexError", "TypeError"}
    ensures k.Name? && !x.JObj? ==> r.SubError? && r.typeName == "TypeError"
  {
    match x
    case JObj(fields) =>
      if k.Name? && k.name in fields then Got(fields[k.name]) else SubError("KeyError", KeyErrorText(k))
    case JArr(items) =>
      if k.Name? then SubError("TypeError", "list indices must be integers or slices, not str")
      else if k.n < |items| then Got(items[k.n])
      else SubError("IndexError", "list index out of range")
    case JStr(s) =>
      if k.Name? then SubError("TypeError", "string indices must be integers, not 'str'")
      else if k.n < |s| then Got(JStr([s[k.n]]))
      else SubError("IndexError", "string index out of range")
    case _ => SubError("TypeError", "'" + TypeName(x) + "' object is not subscriptable")
  }

  /** Where `response['choices'][0]['message']['content']` leads. */
  datatype Lookup =
    | NoChoices                // `'choices' not in response`
    | EmptyChoices             // the choices are falsy
    | Caught(text: string)     // a `KeyError` or `IndexError` the callers catch, with `str()` of it
    | Uncaught(raised: Raised) // a `TypeError`, which no caller catches
    | Found(content: Json)

  function NotIterable(j: Json): string
  {
    "argument of type '" + TypeName(j) + "' is not iterable"
  }

  /** The exception from a failed subscript, as the callers' `except (KeyError, IndexError)` sorts it. */
  function Failed(typeName: string, message: string): Lookup
  {
    if typeName == "TypeError" then Uncaught(Raised(typeName, message)) else Caught(message)
  }

  /** `'choices' in response` for a value that supports `in`: a key, a list member or a substring. */
  predicate MentionsChoices(response: Json)
  {
    match response
    case JObj(fields) => "choices" in fields
    case JArr(items) => JStr("choices") in items
    case JStr(s) => Strs.Contains(s, "choices")
    case _ => false
  }

  /** The response has a first choice whose message is a dict holding `content`. */
  predicate HasFirstContent(response: Json)
  {
    && response.JObj? && "choices" in response.fields
    && response.fields["choices"].JArr? && |response.fields["choices"].items| > 0
    && response.fields["choices"].items[0].JObj? && "message" in response.fields["choices"].items[0].fields
    && response.fields["choices"].items[0].fields["message"].JObj?
    && "content" in response.fields["choices"].items[0].fields["message"].fields
  }

  /** The first choice's message content. */
  function FirstContentOf(response: Json): Json
    requires HasFirstContent(response)
  {
    response.fields["choices"].items[0].fields["message"].fields["content"]
  }

  /**
   * The first choice's message content, or how looking it up fails. `lenCheck` is the extra
   * `len(response['choices']) == 0` test of `get_conversation_response`, which raises on a truthy
   * number.
   */
  function FirstChoiceContent(response: Json, lenCheck: bool): (l: Lookup)
    ensures l.Found? <==> HasFirstContent(response)
    ensures l.Found? ==> l.content == FirstContentOf(response)
    ensures response.JObj? && "choices" !in response.fields ==> l == NoChoices
    ensures response.JObj? && "choices" in response.fields && !Truthy(response.fields["choices"]) ==> l == EmptyChoices
    ensures (response.JObj? && "choices" in response.fields && response.fields["choices"].JObj?
             && Truthy(response.fields["choices"])) ==> l == Caught("0")
    ensures l.Caught? ==> l.text in {"0", "'message'", "'content'"}
    ensures l.Uncaught? ==> l.raised.typeName == "TypeError"
  {
    assert KeyErrorText(Name("message")) == "'message'" && KeyErrorText(Name("content")) == "'content'";
    if response.JNull? || response.JBool? || response.JInt? then Uncaught(Raised("TypeError", NotIterable(response)))
    else if !MentionsChoices(response) then NoChoices
    else match Subscript(response, Name("choices"))
      case SubError(t, m) => Failed(t, m)
      case Got(choices) =>
        if !Truthy(choices) then EmptyChoices
        else if lenCheck && (choices.JBool? || choices.JInt?) then
          Uncaught(Raised("TypeError", "object of type '" + TypeName(choices) + "' has no len()"))
        else match Subscript(choices, Index(0))
          case SubError(t, m) => Failed(t, m)
          case Got(first) =>
            match Subscript(first, Name("message"))
            case SubError(t, m) => Failed(t, m)
            case Got(message) =>
              match Subscript(message, Name("content"))
              case SubError(t, m) => Failed(t, m)
              case Got(content) => Found(content)
  }

  /** The shape checks of `get_conversation_response`. */
  function ConversationContent(response: Json, pyStr: Json -> string): (r: Outcome<Json>)
    ensures FirstChoiceContent(response, true) == NoChoices ==>
      r == Failure(Raise("Invalid response format: missing 'choices' field. Response: " + pyStr(response)))
    ensures FirstChoiceContent(response, true) == EmptyChoices ==> r == Failure(Raise("No choices returned in response"))
    ensures FirstChoiceContent(response, true).Caught? ==>
      r == Failure(Raise("Invalid response structure: " + FirstChoiceContent(response, true).text + ". Response: " + pyStr(response)))
    ensures FirstChoiceContent(response, true).Uncaught? ==> r == Failure(FirstChoiceContent(response, true).raised)
    ensures r.Value? <==> HasFirstContent(response)
    ensures r.Value? ==> r.value == FirstContentOf(response)
  {
    match FirstChoiceContent(response, true)
    case NoChoices => Failure(Raise("Invalid response format: missing 'choices' field. Response: " + pyStr(response)))
    case EmptyChoices => Failure(Raise("No choices returned in response"))
    case Caught(text) => Failure(Raise("Invalid response structure: " + text + ". Response: " + pyStr(response)))
    case Uncaught(raised) => Failure(raised)
    case Found(content) => Value(content)
  }

  /** A truthy dict of choices has no key `0`: the `KeyError(0)` is reported as the structure error. */
  lemma DictChoicesReportKeyZero(fields: map<string, Json>, pyStr: Json -> string)
    requires "choices" in fields && fields["choices"].JObj? && fields["choices"].fields != map[]
    ensures ConversationContent(JObj(fields), pyStr)
            == Failure(Raise("Invalid response structure: 0. Response: " + pyStr(JObj(fields))))
  {
    assert Truthy(fields["choices"]);
    var x := pyStr(JObj(fields));
    assert FirstChoiceContent(JObj(fields), true) == Caught("0");
    assert "Invalid response structure: " + "0" + ". Response: " + x
           == "Invalid response structure: 0. Response: " + x by {
      assert "Invalid response structure: " + "0" + ". Response: " == "Invalid response structure: 0. Response: ";
    }
  }

  /** The shape checks of `get_help_response`. */
  function HelpContent(response: Json, pyStr: Json -> string): (r: Outcome<Json>)
    ensures FirstChoiceContent(response, false) in {NoChoices, EmptyChoices} ==>
      r == Failure(Raise("Invalid response format from help model. Response: " + pyStr(response)))
    ensures FirstChoiceContent(response, false).Caught? ==>
      r == Failure(Raise("Invalid help response structure: " + FirstChoiceContent(response, false).text))
    ensures FirstChoiceContent(response, false).Uncaught? ==> r == Failure(FirstChoiceContent(response, false).raised)
    ensures r.Value? <==> HasFirstContent(response)
    ensures r.Value? ==> r.value == FirstContentOf(response)
  {
    match FirstChoiceContent(response, false)
    case NoChoices => Failure(Raise("Invalid response format from help model. Response: " + pyStr(response)))
    case EmptyChoices => Failure(Raise("Invalid response format from help model. Response: " + pyStr(response)))
    case Caught(text) => Failure(Raise("Invalid help response structure: " + text))
    case Uncaught(raised) => Failure(raised)
    case Found(content) => Value(content)
  }

  /** The shape checks of `get_grading_response`, then `json.loads` of the content. */
  function GradingContent(response: Json, pyStr: Json -> string, parse: string -> Result<Json>): (r: Outcome<Json>)
    ensures FirstChoiceContent(response, false) in {NoChoices, EmptyChoices} ==>
      r == Failure(Raise("Invalid response format from grading model. Response: " + pyStr(response)))
    ensures FirstChoiceContent(response, false).Caught? ==>
      r == Failure(Raise("Invalid grading response structure: " + FirstChoiceContent(response, false).text))
    ensures FirstChoiceContent(response, false).Uncaught? ==> r == Failure(FirstChoiceContent(response, false).raised)
    ensures r.Value? <==> HasFirstContent(response) && FirstContentOf(response).JStr? && parse(FirstContentOf(response).s).Ok?
    ensures r.Value? ==> r.value == parse(FirstContentOf(response).s).value
    ensures HasFirstContent(response) && FirstContentOf(response).JStr? && parse(FirstContentOf(response).s).Err? ==>
      r == Failure(Raise("Failed to parse grading response as JSON: " + parse(FirstContentOf(response).s).error))
  {
    match FirstChoiceContent(response, false)
    case NoChoices => Failure(Raise("Invalid response format from grading model. Response: " + pyStr(response)))
    case EmptyChoices => Failure(Raise("Invalid response format from grading model. Response: " + pyStr(response)))
    case Caught(text) => Failure(Raise("Invalid grading response structure: " + text))
    case Uncaught(raised) => Failure(raised)
    case Found(content) =>
      if !content.JStr? then Failure(Raised("TypeError", "the JSON object must be str, bytes or bytearray, not " + TypeName(content)))
      else match parse(content.s)
        case Ok(data) => Value(data)
        case Err(e) => Failure(Raise("Failed to parse grading response as JSON: " + e))
  }
}
