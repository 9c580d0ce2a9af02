/** Field rules and the message-list check of backend/api/serializers.py. */
module Serializers {
  import opened Wrappers
  import opened Json
  import opened Models

  const MESSAGES_NOT_LIST: string := "Messages must be a list"
  const MESSAGE_NOT_OBJECT: string := "Each message must be an object"
  const MESSAGE_MISSING_KEYS: string := "Each message must have 'role' and 'content'"

  /** A list element that passes: a dict with both keys present, whatever their values. */
  predicate WellFormedMessage(j: Json)
  {
    j.JObj? && "role" in j.fields && "content" in j.fields
  }

  /** The refusal one bad element earns: not a dict, or a dict lacking a key. */
  function ElementError(j: Json): string
  {
    if !j.JObj? then MESSAGE_NOT_OBJECT else MESSAGE_MISSING_KEYS
  }

  /** The error for the first bad element, scanning from the front. */
  function FirstMessageError(items: seq<Json>): (e: Option<string>)
    ensures e.None? <==> forall i :: 0 <= i < |items| ==> WellFormedMessage(items[i])
    ensures e.Some? ==> exists k :: 0 <= k < |items| && !WellFormedMessage(items[k])
                                    && (forall i :: 0 <= i < k ==> WellFormedMessage(items[i]))
                                    && e.value == ElementError(items[k])
    decreases |items|
  {
    if items == [] then None
    else if !items[0].JObj? then Some(MESSAGE_NOT_OBJECT)
    else if !("role" in items[0].fields && "content" in items[0].fields) then Some(MESSAGE_MISSING_KEYS)
    else
      var rest := FirstMessageError(items[1..]);
      assert rest.None? ==> forall i :: 0 <= i < |items| ==> WellFormedMessage(items[i]) by {
        if rest.None? {
          forall i | 0 <= i < |items| ensures WellFormedMessage(items[i]) {
            if i > 0 { assert items[i] == items[1..][i - 1]; }
          }
        }
      }
      assert rest.Some? ==> exists k :: 0 <= k < |items| && !WellFormedMessage(items[k])
                                       && (forall i :: 0 <= i < k ==> WellFormedMessage(items[i]))
                                       && rest.value == ElementError(items[k]) by {
        if rest.Some? {
          var k :| 0 <= k < |items[1..]| && !WellFormedMessage(items[1..][k])
                   && (forall i :: 0 <= i < k ==> WellFormedMessage(items[1..][i]))
                   && rest.value == ElementError(items[1..][k]);
          assert items[k + 1] == items[1..][k];
          forall i | 0 <= i < k + 1 ensures WellFormedMessage(items[i]) {
            if i > 0 { assert items[i] == items[1..][i - 1]; }
          }
        }
      }
      rest
  }

  /** `ChatCreateUpdateSerializer.validate_messages`: the value comes back unchanged or is refused. */
  function ValidateMessages(value: Json): (r: Result<Json>)
    ensures r.Ok? <==> value.JArr? && forall i :: 0 <= i < |value.items| ==> WellFormedMessage(value.items[i])
    ensures r.Ok? ==> r.value == value
    ensures !value.JArr? ==> r == Err(MESSAGES_NOT_LIST)
    ensures value.JArr? && r.Err? ==>
              exists k :: 0 <= k < |value.items| && !WellFormedMessage(value.items[k])
                          && (forall i :: 0 <= i < k ==> WellFormedMessage(value.items[i]))
                          && r.error == ElementError(value.items[k])
  {
    if !value.JArr? then Err(MESSAGES_NOT_LIST)
    else
      match FirstMessageError(value.items)
      case Some(e) => Err(e)
      case None => Ok(value)
  }

  /** A message list as the JSON the request carries. */
  function MsgToJson(m: Msg): Json
  {
    JObj((if m.role.Some? then map["role" := JStr(m.role.value)] else map[])
      + (if m.content.Some? then map["content" := JStr(m.content.value)] else map[]))
  }

  function MessagesToJson(ms: seq<Msg>): (j: Json)
    ensures j.JArr? && |j.items| == |ms|
  {
    JArr(seq(|ms|, i requires 0 <= i < |ms| => MsgToJson(ms[i])))
  }

  /** A list of messages passes exactly when every message carries both a role and a content. */
  lemma ValidateMessageList(ms: seq<Msg>)
    ensures ValidateMessages(MessagesToJson(ms)).Ok? <==>
      forall i :: 0 <= i < |ms| ==> ms[i].role.Some? && ms[i].content.Some?
  {
    var j := MessagesToJson(ms);
    forall i | 0 <= i < |ms|
      ensures WellFormedMessage(j.items[i]) <==> ms[i].role.Some? && ms[i].content.Some?
    {
      assert j.items[i] == MsgToJson(ms[i]);
    }
  }

  // Field sets

  /** `ChatCreateUpdateSerializer.Meta.fields`. */
  const CHAT_CREATE_UPDATE_FIELDS: set<string> :=
    {"id", "title", "course_data", "avatar_id", "messages", "score", "interaction_count", "completed", "openwebui_chat_id"}
  const CHAT_CREATE_UPDATE_READ_ONLY: set<string> := {"id"}

  /** The fields a create or update request can set. */
  function ChatWritableFields(): (w: set<string>)
    ensures w <= CHAT_CREATE_UPDATE_FIELDS && w !! CHAT_CREATE_UPDATE_READ_ONLY
    ensures forall f :: f in CHAT_CREATE_UPDATE_FIELDS && f !in CHAT_CREATE_UPDATE_READ_ONLY ==> f in w
  {
    CHAT_CREATE_UPDATE_FIELDS - CHAT_CREATE_UPDATE_READ_ONLY
  }

  /** The lifecycle fields are out of a client's reach. */
  lemma LifecycleFieldsNotWritable()
    ensures forall f :: f in {"status", "grading_data", "help_responses", "user", "id"} ==> f !in ChatWritableFields()
  {
  }

  /** `UserSerializer.Meta.fields` with its write-only and read-only members; `id` is read-only as a primary key. */
  const USER_FIELDS: set<string> :=
    {"id", "username", "password", "first_name", "last_name", "email", "is_staff", "chat_count"}
  const USER_WRITE_ONLY: set<string> := {"password"}
  const USER_READ_ONLY: set<string> := {"id", "is_staff", "chat_count"}

  /** The fields a serialized user shows. */
  function UserReadableFields(): (r: set<string>)
    ensures "password" !in r && "is_staff" in r && "chat_count" in r
    ensures r == USER_FIELDS - USER_WRITE_ONLY
  {
    USER_FIELDS - USER_WRITE_ONLY
  }

  /** The fields a registration can set. */
  function UserWritableFields(): (w: set<string>)
    ensures "password" in w && "is_staff" !in w && "chat_count" !in w
    ensures w == USER_FIELDS - USER_READ_ONLY
  {
    USER_FIELDS - USER_READ_ONLY
  }

  /** Validated registration data. */
  datatype UserData = UserData(username: string, password: string, firstName: string, lastName: string, email: string)

  /**
   * `UserSerializer.create`, which hands the data to `User.objects.create_user`:
   * the new user is never staff and has no profile yet. Password hashing is not modelled.
   */
  function CreateUser(data: UserData): (u: User)
    ensures !u.isStaff && u.profile.None?
    ensures u.username == data.username && u.email == data.email
    ensures u.firstName == data.firstName && u.lastName == data.lastName
  {
    User(data.username, data.email, data.firstName, data.lastName, false, None)
  }
}
