/** Chat listing, creation and the detail endpoints (backend/api/views/chat_views.py). */
module ChatViews {
  import opened Wrappers
  import opened Json
  import opened Http
  import opened Models
  import opened Store
  import opened Pagination
  import opened Ordering
  import opened Validation
  import opened Serializers
  import opened ChatOperationsViews
  import Seqs

  const ONLY_STAFF: string := "Only staff users can access this endpoint"
  const USER_NOT_FOUND: string := "User not found"
  const ONLY_OWN_UPDATE: string := "You can only update your own chats"
  const ONLY_OWN_DELETE: string := "You can only delete your own chats"

  /**
   * The writable fields a request body carries (`ChatCreateUpdateSerializer`); `None` is a field
   * the body leaves out. Keys outside the field list never reach the record.
   */
  datatype ChatInput = ChatInput(
    title: Option<string>,
    courseData: Option<Json>,
    avatarId: Option<Option<string>>,
    messages: Option<seq<Msg>>,
    score: Option<Option<int>>,
    interactionCount: Option<int>,
    completed: Option<bool>,
    openwebuiChatId: Option<Option<string>>)

  /**
   * Whether the serializer accepts a body. `fieldsValid` is the verdict of the field types and
   * lengths; a full update and a creation also need the required title.
   */
  predicate InputValid(input: ChatInput, fieldsValid: bool, partial: bool)
  {
    && fieldsValid
    && (partial || input.title.Some?)
    && (input.messages.Some? ==> ValidateMessages(MessagesToJson(input.messages.value)).Ok?)
  }

  /** `serializer.save()`: every field the body carries replaces the stored one; the rest stay. */
  function Apply(chat: Chat, input: ChatInput): (c: Chat)
    ensures c.owner == chat.owner && c.status == chat.status && c.gradingData == chat.gradingData
    ensures c.helpResponses == chat.helpResponses && c.updatedAt == chat.updatedAt
    ensures c.title == input.title.GetOr(chat.title)
    ensures c.courseData == input.courseData.GetOr(chat.courseData)
    ensures c.avatarId == input.avatarId.GetOr(chat.avatarId)
    ensures c.messages == input.messages.GetOr(chat.messages)
    ensures c.score == input.score.GetOr(chat.score)
    ensures c.interactionCount == input.interactionCount.GetOr(chat.interactionCount)
    ensures c.completed == input.completed.GetOr(chat.completed)
    ensures c.openwebuiChatId == input.openwebuiChatId.GetOr(chat.openwebuiChatId)
  {
    chat.(
      title := input.title.GetOr(chat.title),
      courseData := input.courseData.GetOr(chat.courseData),
      avatarId := input.avatarId.GetOr(chat.avatarId),
      messages := input.messages.GetOr(chat.messages),
      score := input.score.GetOr(chat.score),
      interactionCount := input.interactionCount.GetOr(chat.interactionCount),
      completed := input.completed.GetOr(chat.completed),
      openwebuiChatId := input.openwebuiChatId.GetOr(chat.openwebuiChatId))
  }

  /** A new chat with the model's defaults. */
  function NewChat(owner: nat, now: Instant): Chat
  {
    Chat(owner, "", Ready, JNull, None, [], None, JNull, [], 0, false, now.stamp, None)
  }

  /** The `updated_at` ordering key of a chat id. */
  function UpdatedAtKey(chats: map<nat, Chat>): nat -> int
  {
    id => if id in chats then chats[id].updatedAt else 0
  }

  /**
   * `Chat.objects.filter(user=owner).order_by('-updated_at')` and the page of it the list
   * endpoints return. Chats with the same `updated_at` come in key order.
   */
  method ListChatsOf(db: Database, owner: nat, page: Param, pageSize: Param)
    returns (all: seq<nat>, p: PaginationData, items: seq<nat>)
    requires db.Valid()
    ensures forall id: nat :: multiset(all)[id] == if OwnsChat(db.chats, id, owner) then 1 else 0
    ensures SortedDesc(all, UpdatedAtKey(db.chats))
    ensures p == GetPaginationData(page, pageSize, |all|)
    ensures items == PageOf(all, p)
  {
    var owned: seq<nat> := [];
    var i := 0;
    while i < db.nextChatId
      invariant 0 <= i <= db.nextChatId
      invariant forall id: nat :: multiset(owned)[id] == if id < i && OwnsChat(db.chats, id, owner) then 1 else 0
    {
      if i in db.chats && db.chats[i].owner == owner {
        owned := owned + [i];
      }
      i := i + 1;
    }
    all := SortDesc(owned, UpdatedAtKey(db.chats));
    p := GetPaginationData(page, pageSize, |all|);
    items := Seqs.PySlice(all, p.startIndex, p.endIndex);
  }

  /** `Chats.get`: the requester's own chats, newest first, one page of them. */
  method ListChats(db: Database, requester: nat, page: Param, pageSize: Param)
    returns (r: Response, all: seq<nat>, p: PaginationData, items: seq<nat>)
    requires db.Valid()
    ensures forall id :: id in items ==> OwnsChat(db.chats, id, requester)
    ensures forall id: nat :: multiset(all)[id] == if OwnsChat(db.chats, id, requester) then 1 else 0
    ensures SortedDesc(all, UpdatedAtKey(db.chats))
    ensures p == GetPaginationData(page, pageSize, |all|) && items == PageOf(all, p)
    ensures r.code == OK
  {
    all, p, items := ListChatsOf(db, requester, page, pageSize);
    forall id | id in items ensures OwnsChat(db.chats, id, requester) {
      assert id in all;
      assert multiset(all)[id] > 0;
    }
    r := Response(OK, JObj(map["status" := JStr("success")]));
  }

  /** `UserChats.get`: staff only, and only for an existing user. */
  method ListUserChats(db: Database, requester: nat, target: nat, page: Param, pageSize: Param)
    returns (r: Response, all: seq<nat>, p: PaginationData, items: seq<nat>)
    requires db.Valid() && requester in db.users
    ensures !db.users[requester].isStaff ==> r == Fail(FORBIDDEN, ONLY_STAFF) && items == []
    ensures db.users[requester].isStaff && target !in db.users ==> r == Fail(NOT_FOUND, USER_NOT_FOUND) && items == []
    ensures db.users[requester].isStaff && target in db.users ==>
      && r.code == OK
      && (forall id: nat :: multiset(all)[id] == if OwnsChat(db.chats, id, target) then 1 else 0)
      && SortedDesc(all, UpdatedAtKey(db.chats))
      && p == GetPaginationData(page, pageSize, |all|) && items == PageOf(all, p)
  {
    p := GetPaginationData(Absent, Absent, 0);
    if !db.users[requester].isStaff {
      return Fail(FORBIDDEN, ONLY_STAFF), [], p, [];
    }
    if target !in db.users {
      return Fail(NOT_FOUND, USER_NOT_FOUND), [], p, [];
    }
    all, p, items := ListChatsOf(db, target, page, pageSize);
    r := Response(OK, JObj(map["status" := JStr("success")]));
  }

  /** `Chats.post`: a valid body becomes a new chat owned by the requester. */
  method CreateChat(db: Database, requester: nat, input: ChatInput, fieldsValid: bool, now: Instant)
    returns (r: Response, id: Option<nat>)
    requires db.Valid()
    modifies db
    ensures db.Valid()
    ensures db.users == old(db.users) && db.notes == old(db.notes) && db.nextNoteId == old(db.nextNoteId)
    ensures !InputValid(input, fieldsValid, false) ==>
      r.code == BAD_REQUEST && id.None? && db.chats == old(db.chats) && db.nextChatId == old(db.nextChatId)
    ensures InputValid(input, fieldsValid, false) ==>
      && r.code == CREATED
      && id == Some(old(db.nextChatId))
      && old(db.nextChatId) !in old(db.chats)
      && db.chats == old(db.chats)[old(db.nextChatId) := Apply(NewChat(requester, now), input)]
      && db.nextChatId == old(db.nextChatId) + 1
  {
    if !InputValid(input, fieldsValid, false) {
      return Response(BAD_REQUEST, JObj(map["status" := JStr("fail"), "message" := JStr("Chat creation failed")])), None;
    }
    var pk := db.nextChatId;
    db.chats := db.chats[pk := Apply(NewChat(requester, now), input)];
    db.nextChatId := pk + 1;
    id := Some(pk);
    r := Response(CREATED, JObj(map["status" := JStr("success"), "message" := JStr("Chat created successfully"), "chat" := ChatRef(pk)]));
  }

  /** `ChatDetail.get_chat`: staff reach every chat, everyone else only their own. */
  predicate Visible(db: map<nat, Chat>, users: map<nat, User>, requester: nat, pk: nat)
    requires requester in users
  {
    pk in db && (users[requester].isStaff || db[pk].owner == requester)
  }

  /** `ChatDetail.get`. */
  method GetChat(db: Database, requester: nat, pk: nat) returns (r: Response)
    requires requester in db.users
    ensures Visible(db.chats, db.users, requester, pk) <==> r.code == OK
    ensures !Visible(db.chats, db.users, requester, pk) ==> r == Fail(NOT_FOUND, CHAT_NOT_FOUND)
  {
    if pk in db.chats && (db.users[requester].isStaff || db.chats[pk].owner == requester) {
      return Response(OK, JObj(map["status" := JStr("success"), "chat" := ChatRef(pk)]));
    }
    return Fail(NOT_FOUND, CHAT_NOT_FOUND);
  }

  /**
   * `ChatDetail.put` (`partial` false) and `ChatDetail.patch` (`partial` true). Only the owner may
   * change a chat, staff included. A full update always recounts the user messages; a partial one
   * only when the body carries messages.
   */
  method UpdateChat(db: Database, requester: nat, pk: nat, input: ChatInput, fieldsValid: bool, partial: bool, now: Instant)
    returns (r: Response)
    requires db.Valid() && requester in db.users
    modifies db
    ensures db.Valid()
    ensures db.users == old(db.users) && db.notes == old(db.notes)
    ensures db.nextChatId == old(db.nextChatId) && db.nextNoteId == old(db.nextNoteId)
    ensures var c := old(db.chats);
      if !Visible(c, db.users, requester, pk) then r == Fail(NOT_FOUND, CHAT_NOT_FOUND) && db.chats == c
      else if c[pk].owner != requester then r == Fail(FORBIDDEN, ONLY_OWN_UPDATE) && db.chats == c
      else if !InputValid(input, fieldsValid, partial) then r.code == BAD_REQUEST && db.chats == c
      else
        var saved := Apply(c[pk], input).(updatedAt := now.stamp);
        && r.code == OK
        && db.chats == c[pk := if !partial || input.messages.Some?
                              then saved.(interactionCount := CountUserMessages(saved.messages))
                              else saved]
  {
    if !(pk in db.chats && (db.users[requester].isStaff || db.chats[pk].owner == requester)) {
      return Fail(NOT_FOUND, CHAT_NOT_FOUND);
    }
    var chat := db.chats[pk];
    if chat.owner != requester {
      return Fail(FORBIDDEN, ONLY_OWN_UPDATE);
    }
    if !InputValid(input, fieldsValid, partial) {
      return Response(BAD_REQUEST, JObj(map["status" := JStr("fail"), "message" := JStr("Chat update failed")]));
    }
    chat := Apply(chat, input).(updatedAt := now.stamp);
    db.chats := db.chats[pk := chat];
    if !partial || input.messages.Some? {
      chat := chat.(interactionCount := CountUserMessages(chat.messages));
      db.chats := db.chats[pk := chat];
    }
    r := Response(OK, JObj(map["status" := JStr("success"), "message" := JStr("Chat updated successfully"), "chat" := ChatRef(pk)]));
  }

  /** `ChatDetail.delete`: the owner removes exactly that chat. */
  method DeleteChat(db: Database, requester: nat, pk: nat) returns (r: Response)
    requires db.Valid() && requester in db.users
    modifies db
    ensures db.Valid()
    ensures db.users == old(db.users) && db.notes == old(db.notes)
    ensures db.nextChatId == old(db.nextChatId) && db.nextNoteId == old(db.nextNoteId)
    ensures var c := old(db.chats);
      if !Visible(c, db.users, requester, pk) then r == Fail(NOT_FOUND, CHAT_NOT_FOUND) && db.chats == c
      else if c[pk].owner != requester then r == Fail(FORBIDDEN, ONLY_OWN_DELETE) && db.chats == c
      else r.code == NO_CONTENT && db.chats == c - {pk}
  {
    if !(pk in db.chats && (db.users[requester].isStaff || db.chats[pk].owner == requester)) {
      return Fail(NOT_FOUND, CHAT_NOT_FOUND);
    }
    if db.chats[pk].owner != requester {
      return Fail(FORBIDDEN, ONLY_OWN_DELETE);
    }
    db.chats := db.chats - {pk};
    r := Response(NO_CONTENT, JObj(map["status" := JStr("success"), "message" := JStr("Chat deleted successfully")]));
  }

  /** Once deleted, a chat is not found by anyone. */
  lemma DeletedChatNotVisible(chats: map<nat, Chat>, users: map<nat, User>, requester: nat, viewer: nat, pk: nat)
    requires viewer in users
    ensures !Visible(chats - {pk}, users, viewer, pk)
  {
  }
}
