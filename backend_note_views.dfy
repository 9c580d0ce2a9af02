/** Note listing, creation and the author-scoped detail endpoints (backend/api/views/note_views.py). */
module NoteViews {
  import opened Wrappers
  import opened Json
  import opened Http
  import opened Models
  import opened Store
  import opened Pagination
  import Seqs

  const NOTE_NOT_FOUND: string := "Note not found"

  /** The fields a note body carries; `None` is a field the body leaves out. */
  datatype NoteInput = NoteInput(title: Option<string>, content: Option<string>)

  /** `NoteSerializer.is_valid()` for a full body: both fields present and `fieldsValid` (lengths, types). */
  predicate NoteInputValid(input: NoteInput, fieldsValid: bool)
  {
    fieldsValid && input.title.Some? && input.content.Some?
  }

  function NoteRef(pk: nat): Json
  {
    JObj(map["id" := JInt(pk)])
  }

  /** `Note.objects.filter(author=requester).order_by('-id')` and the requested page of it. */
  method ListNotes(db: Database, requester: nat, page: Param, pageSize: Param)
    returns (r: Response, all: seq<nat>, p: PaginationData, items: seq<nat>)
    requires db.Valid()
    ensures forall id :: id in all <==> OwnsNote(db.notes, id, requester)
    ensures forall i, j :: 0 <= i < j < |all| ==> all[i] > all[j]
    ensures p == GetPaginationData(page, pageSize, |all|) && items == PageOf(all, p)
    ensures forall id :: id in items ==> OwnsNote(db.notes, id, requester)
    ensures r.code == OK
  {
    all := [];
    var i := db.nextNoteId;
    while i > 0
      invariant 0 <= i <= db.nextNoteId
      invariant forall id :: id in all <==> i <= id && OwnsNote(db.notes, id, requester)
      invariant forall k :: 0 <= k < |all| ==> all[k] >= i
      invariant forall a, b :: 0 <= a < b < |all| ==> all[a] > all[b]
    {
      i := i - 1;
      if i in db.notes && db.notes[i].author == requester {
        all := all + [i];
      }
    }
    p := GetPaginationData(page, pageSize, |all|);
    items := Seqs.PySlice(all, p.startIndex, p.endIndex);
    assert forall id :: id in items ==> id in all;
    r := Response(OK, JObj(map["status" := JStr("success")]));
  }

  /** `Notes.post`: a valid body becomes a note written by the requester; an invalid one creates nothing. */
  method CreateNote(db: Database, requester: nat, input: NoteInput, fieldsValid: bool)
    returns (r: Response, id: Option<nat>)
    requires db.Valid()
    modifies db
    ensures db.Valid()
    ensures db.users == old(db.users) && db.chats == old(db.chats) && db.nextChatId == old(db.nextChatId)
    ensures !NoteInputValid(input, fieldsValid) ==>
      r.code == BAD_REQUEST && id.None? && db.notes == old(db.notes) && db.nextNoteId == old(db.nextNoteId)
    ensures NoteInputValid(input, fieldsValid) ==>
      && r.code == CREATED && id == Some(old(db.nextNoteId))
      && old(db.nextNoteId) !in old(db.notes)
      && db.notes == old(db.notes)[old(db.nextNoteId) := Note(input.title.value, input.content.value, requester)]
      && db.nextNoteId == old(db.nextNoteId) + 1
  {
    if !NoteInputValid(input, fieldsValid) {
      return Response(BAD_REQUEST, JObj(map["status" := JStr("fail"), "message" := JStr("Note creation failed")])), None;
    }
    var pk := db.nextNoteId;
    db.notes := db.notes[pk := Note(input.title.value, input.content.value, requester)];
    db.nextNoteId := pk + 1;
    id := Some(pk);
    r := Response(CREATED, JObj(map["status" := JStr("success"), "message" := JStr("Note created successfully"), "note" := NoteRef(pk)]));
  }

  /** `NoteDetail.get`: only the author finds the note. */
  method GetNote(db: Database, requester: nat, pk: nat) returns (r: Response)
    ensures OwnsNote(db.notes, pk, requester) <==> r.code == OK
    ensures !OwnsNote(db.notes, pk, requester) ==> r == Fail(NOT_FOUND, NOTE_NOT_FOUND)
  {
    if pk in db.notes && db.notes[pk].author == requester {
      return Response(OK, JObj(map["status" := JStr("success"), "note" := NoteRef(pk)]));
    }
    return Fail(NOT_FOUND, NOTE_NOT_FOUND);
  }

  /** `NoteDetail.put`: the author replaces title and content. */
  method UpdateNote(db: Database, requester: nat, pk: nat, input: NoteInput, fieldsValid: bool) returns (r: Response)
    requires db.Valid()
    modifies db
    ensures db.Valid()
    ensures db.users == old(db.users) && db.chats == old(db.chats)
    ensures db.nextChatId == old(db.nextChatId) && db.nextNoteId == old(db.nextNoteId)
    ensures var n := old(db.notes);
      if !OwnsNote(n, pk, requester) then r == Fail(NOT_FOUND, NOTE_NOT_FOUND) && db.notes == n
      else if !NoteInputValid(input, fieldsValid) then r.code == BAD_REQUEST && db.notes == n
      else r.code == OK && db.notes == n[pk := n[pk].(title := input.title.value, content := input.content.value)]
  {
    if !(pk in db.notes && db.notes[pk].author == requester) {
      return Fail(NOT_FOUND, NOTE_NOT_FOUND);
    }
    if !NoteInputValid(input, fieldsValid) {
      return Response(BAD_REQUEST, JObj(map["status" := JStr("fail"), "message" := JStr("Note update failed")]));
    }
    db.notes := db.notes[pk := db.notes[pk].(title := input.title.value, content := input.content.value)];
    r := Response(OK, JObj(map["status" := JStr("success"), "message" := JStr("Note updated successfully"), "note" := NoteRef(pk)]));
  }

  /** `NoteDetail.delete`: the author removes exactly that note. */
  method DeleteNote(db: Database, requester: nat, pk: nat) returns (r: Response)
    requires db.Valid()
    modifies db
    ensures db.Valid()
    ensures db.users == old(db.users) && db.chats == old(db.chats)
    ensures db.nextChatId == old(db.nextChatId) && db.nextNoteId == old(db.nextNoteId)
    ensures var n := old(db.notes);
      if !OwnsNote(n, pk, requester) then r == Fail(NOT_FOUND, NOTE_NOT_FOUND) && db.notes == n
      else r.code == NO_CONTENT && db.notes == n - {pk}
  {
    if !(pk in db.notes && db.notes[pk].author == requester) {
      return Fail(NOT_FOUND, NOTE_NOT_FOUND);
    }
    db.notes := db.notes - {pk};
    r := Response(NO_CONTENT, JObj(map["status" := JStr("success"), "message" := JStr("Note deleted successfully")]));
  }
}
