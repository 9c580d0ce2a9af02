/** The database tables the views and background tasks read and write, keyed by primary key. */
module Store {
  import opened Models

  class Database {
    var users: map<nat, User>
    var chats: map<nat, Chat>
    var notes: map<nat, Note>
    var nextChatId: nat
    var nextNoteId: nat

    /** Every stored key was handed out by the table's counter. */
    ghost predicate Valid()
      reads this
    {
      && (forall id :: id in chats ==> id < nextChatId)
      && (forall id :: id in notes ==> id < nextNoteId)
    }

    constructor (users: map<nat, User>)
      ensures Valid()
      ensures this.users == users && chats == map[] && notes == map[]
      ensures nextChatId == 0 && nextNoteId == 0
    {
      this.users := users;
      chats := map[];
      notes := map[];
      nextChatId := 0;
      nextNoteId := 0;
    }

    /** `chat.save()` on a chat read earlier: the row is overwritten and nothing else changes. */
    method SaveChat(id: nat, chat: Chat)
      requires Valid() && id in chats
      modifies this
      ensures Valid()
      ensures chats == old(chats)[id := chat]
      ensures users == old(users) && notes == old(notes)
      ensures nextChatId == old(nextChatId) && nextNoteId == old(nextNoteId)
    {
      chats := chats[id := chat];
    }
  }

  /** `Chat.objects.get(pk=pk, user=requester)` finds the chat. */
  predicate OwnsChat(chats: map<nat, Chat>, pk: nat, requester: nat)
  {
    pk in chats && chats[pk].owner == requester
  }

  /** `Note.objects.filter(author=requester).get(pk=pk)` finds the note. */
  predicate OwnsNote(notes: map<nat, Note>, pk: nat, requester: nat)
  {
    pk in notes && notes[pk].author == requester
  }
}
