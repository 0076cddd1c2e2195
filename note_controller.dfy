/** NoteController: notes are open to every authenticated caller. No handler
    checks the note's guardian or patient, neither for ownership nor for
    existence: only the note itself is looked up. */
module NoteApi {
  import opened Common
  import opened Models
  import opened Repositories

  const ReadRoute := "readNote"
  const NoteMissingMessage := "Note does not exist."

  /** The primary key of a stored Note. */
  function IdOf(note: Note): Guid
  {
    note.id
  }

  class NoteController {
    const notes: Repository<Guid, Note>

    constructor (notes: Repository<Guid, Note>)
      ensures this.notes == notes
    {
      this.notes := notes;
    }

    /** GET notes: every note, unfiltered. */
    function GetAll(userId: Option<UserId>): (r: ActionResult<map<Guid, Note>>)
      reads notes
      ensures userId.None? ==> r == Unauthorized
      ensures userId.Some? ==> r.Ok? && r.value.Keys == notes.rows.Keys
      ensures userId.Some? ==> forall k :: k in r.value ==> r.value[k] == notes.rows[k]
    {
      match userId
      case None => Unauthorized
      case Some(_) => Ok(notes.ReadAll())
    }

    /** GET notes/{id}: the stored note, whoever wrote it. */
    function Get(userId: Option<UserId>, noteId: Guid): (r: ActionResult<Note>)
      reads notes
      ensures userId.None? ==> r == Unauthorized
      ensures userId.Some? && noteId !in notes.rows ==> r == NotFound(NoteMissingMessage)
      ensures userId.Some? && noteId in notes.rows ==> r == Ok(notes.rows[noteId])
    {
      match userId
      case None => Unauthorized
      case Some(_) =>
        match notes.Read(noteId)
        case None => NotFound(NoteMissingMessage)
        case Some(note) => Ok(note)
    }

    /** POST notes: stores the body as given once the caller is authenticated. */
    method Add(userId: Option<UserId>, newNote: Note) returns (r: ActionResult<Note>)
      requires userId.Some? ==> newNote.id !in notes.rows
      modifies notes
      ensures userId.None? ==> r == Unauthorized && notes.rows == old(notes.rows)
      ensures userId.Some? ==>
        r == Created(ReadRoute, ById(newNote.id), newNote) && notes.rows == old(notes.rows)[newNote.id := newNote]
      ensures KeysMatchIds(old(notes.rows), IdOf) ==> KeysMatchIds(notes.rows, IdOf)
    {
      if userId.None? {
        return Unauthorized;
      }
      var note := notes.Insert(newNote.id, newNote);
      r := Created(ReadRoute, ById(note.id), note);
    }

    /** PUT notes/{id}: replaces an existing note by the body, with Id forced
        to the route id. */
    method Update(userId: Option<UserId>, noteId: Guid, updatedNote: Note) returns (r: ActionResult<Note>)
      modifies notes
      ensures userId.None? ==> r == Unauthorized && notes.rows == old(notes.rows)
      ensures userId.Some? && noteId !in old(notes.rows) ==>
        r == NotFound(NoteMissingMessage) && notes.rows == old(notes.rows)
      ensures userId.Some? && noteId in old(notes.rows) ==>
        r == Ok(updatedNote.(id := noteId)) && notes.rows == old(notes.rows)[noteId := updatedNote.(id := noteId)]
      ensures KeysMatchIds(old(notes.rows), IdOf) ==> KeysMatchIds(notes.rows, IdOf)
    {
      if userId.None? {
        return Unauthorized;
      }
      var note := notes.Read(noteId);
      if note.None? {
        return NotFound(NoteMissingMessage);
      }
      var stored := updatedNote.(id := noteId);
      notes.Update(noteId, stored);
      r := Ok(stored);
    }

    /** DELETE notes/{id}: removes an existing note and answers Ok. */
    method Delete(userId: Option<UserId>, noteId: Guid) returns (r: ActionResult<Note>)
      modifies notes
      ensures userId.None? ==> r == Unauthorized && notes.rows == old(notes.rows)
      ensures userId.Some? && noteId !in old(notes.rows) ==>
        r == NotFound(NoteMissingMessage) && notes.rows == old(notes.rows)
      ensures userId.Some? && noteId in old(notes.rows) ==>
        r == OkEmpty && notes.rows == old(notes.rows) - {noteId}
      ensures KeysMatchIds(old(notes.rows), IdOf) ==> KeysMatchIds(notes.rows, IdOf)
    {
      if userId.None? {
        return Unauthorized;
      }
      var note := notes.Read(noteId);
      if note.None? {
        return NotFound(NoteMissingMessage);
      }
      notes.Delete(noteId);
      r := OkEmpty;
    }
  }

  /** Any authenticated account can read and delete a note another account
      added. */
  method NoteOpenToEveryAccount(author: UserId, other: UserId, note: Note)
    returns (read: ActionResult<Note>, deleted: ActionResult<Note>, remaining: map<Guid, Note>)
    ensures read == Ok(note)
    ensures deleted == OkEmpty
    ensures remaining == map[]
  {
    var table := new Repository<Guid, Note>(map[]);
    var controller := new NoteController(table);
    var created := controller.Add(Some(author), note);
    read := controller.Get(Some(other), note.id);
    deleted := controller.Delete(Some(other), note.id);
    remaining := table.ReadAll();
  }
}
