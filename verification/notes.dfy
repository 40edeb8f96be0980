/** The notes view of one video: one free-text draft, backed by a list of
    notes from the backend of which only the first is read. A non-empty list
    means "a note exists". */
module Notes {
  import opened Common
  import opened Api

  class NotesView {
    var videoId: string
    var notes: seq<Note>
    var currentNote: string
    var saving: bool
    /** The API calls this view has made, oldest first. */
    var sent: seq<Request>

    /** Mounting: empty state, and the mount effect's fetch of the notes. */
    constructor (videoId: string)
      ensures this.videoId == videoId && notes == [] && currentNote == "" && !saving
      ensures sent == [GetNotes(videoId)]
      ensures !HasNote() && LastUpdated() == None
    {
      this.videoId := videoId;
      notes, currentNote, saving := [], "", false;
      sent := [GetNotes(videoId)];
    }

    /** A new `videoId` prop: the effect fetches again only when it differs
        from the previous one; local state is kept. */
    method ChangeVideoId(v: string)
      modifies this`videoId, this`sent
      ensures videoId == v
      ensures sent == if v == old(videoId) then old(sent) else old(sent) + [GetNotes(v)]
    {
      if v != videoId {
        videoId := v;
        FetchNotes();
      }
    }

    /** Whether a note exists: the Delete button and the "last updated" line
        are rendered exactly when this holds. */
    predicate HasNote()
      reads this
    {
      |notes| > 0
    }

    /** The "last updated" line: the first note's timestamp, shown only when a
        note exists. */
    function LastUpdated(): Option<string>
      reads this
    {
      if |notes| > 0 then Some(notes[0].updatedAt) else None
    }

    /** `fetchNotes`, up to the await: one GET of this video's notes. */
    method FetchNotes()
      modifies this`sent
      ensures sent == old(sent) + [GetNotes(videoId)]
    {
      sent := sent + [GetNotes(videoId)];
    }

    /** `fetchNotes`, after the await. A non-empty list seeds the draft with
        its first note and replaces the local list; an empty list and a
        failed fetch both leave the draft and the list as they were. */
    method ReceiveNotes(outcome: Outcome<seq<Note>>)
      modifies this`notes, this`currentNote
      ensures outcome.Success? && |outcome.data| > 0 ==>
                currentNote == outcome.data[0].note && notes == outcome.data && HasNote()
      ensures outcome.Success? && |outcome.data| > 0 ==>
                LastUpdated() == Some(outcome.data[0].updatedAt)
      ensures outcome.Failure? || |outcome.data| == 0 ==>
                currentNote == old(currentNote) && notes == old(notes)
    {
      if outcome.Success? {
        var data := outcome.data;
        if |data| > 0 {
          currentNote := data[0].note;
          notes := data;
        }
      }
    }

    /** Typing in the note box. */
    method EditNote(s: string)
      modifies this`currentNote
      ensures currentNote == s
    {
      currentNote := s;
    }

    /** The Save button is enabled when nothing is being saved and the draft
        is not blank. */
    predicate CanSave()
      reads this
    {
      !saving && !IsBlank(currentNote)
    }

    /** `saveNote`, up to the await. A blank draft stops it with no call;
        otherwise `saving` is raised for the duration of the call and the
        draft is sent as typed. */
    method BeginSaveNote() returns (issued: bool)
      modifies this`saving, this`sent
      ensures issued == !IsBlank(currentNote)
      ensures !issued ==> saving == old(saving) && sent == old(sent)
      ensures issued ==> saving && !CanSave() && sent == old(sent) + [AddOrUpdateNote(videoId, currentNote)]
    {
      TrimEmptyIffBlank(currentNote);
      if Trim(currentNote) == [] {
        return false;
      }
      saving := true;
      sent := sent + [AddOrUpdateNote(videoId, currentNote)];
      issued := true;
    }

    /** `saveNote`, after the await. Success refetches the notes; failure
        does not. `saving` drops either way; the draft and the list are not
        touched until the refetch settles. */
    method CompleteSaveNote(outcome: Outcome<()>)
      modifies this`saving, this`sent
      ensures !saving
      ensures notes == old(notes) && currentNote == old(currentNote)
      ensures sent == if outcome.Success? then old(sent) + [GetNotes(videoId)] else old(sent)
    {
      if outcome.Success? {
        FetchNotes();
      }
      saving := false;
    }

    /** `deleteNote`, up to the await. Declining the confirmation makes no
        call; confirming sends one DELETE for this video's note. */
    method BeginDeleteNote(confirmed: bool) returns (issued: bool)
      modifies this`sent
      ensures issued == confirmed
      ensures sent == if confirmed then old(sent) + [DeleteNote(videoId)] else old(sent)
    {
      issued := confirmed;
      if confirmed {
        sent := sent + [DeleteNote(videoId)];
      }
    }

    /** `deleteNote`, after the await. Success clears the draft and the list
        locally, with no refetch; failure leaves both as they were. */
    method CompleteDeleteNote(outcome: Outcome<()>)
      modifies this`notes, this`currentNote
      ensures outcome.Success? ==> currentNote == "" && notes == [] && !HasNote()
      ensures outcome.Success? ==> LastUpdated() == None
      ensures outcome.Failure? ==> currentNote == old(currentNote) && notes == old(notes)
    {
      if outcome.Success? {
        currentNote := "";
        notes := [];
      }
    }
  }
}
