/**
 * The note store (store/slices/noteSlice.ts): a list of notes keyed by the job id of the
 * server-side transcription job, updated by an optimistic insert on upload, by poll results
 * merged into the matching note, by a client-side "failed" mark, and by a full fetch.
 */
module NoteSlice {
  import opened Js
  import Lists

  const PROCESSING: string := "PROCESSING"
  const COMPLETED: string := "COMPLETED"
  const FAILED: string := "FAILED"
  const AUDIO: string := "AUDIO"
  const FETCH_FAILED: string := "Failed to fetch notes"
  const UPLOAD_FAILED: string := "Failed to upload audio note"

  /**
   * A note as the store holds it. `status` and `noteType` are whatever string the mapping
   * produced (the TypeScript enum types are casts, not checks); the other text fields may be
   * missing or null, as the server's JSON allows.
   */
  datatype Note = Note(
    noteId: Field,
    noteType: string,
    stt: Field,
    jobId: Field,
    status: string,
    noteback: Field,
    createdAt: string)

  function JobOf(n: Note): Field { n.jobId }

  /** One element of the note query response, in either of the two spellings the mapping accepts. */
  datatype RawNote = RawNote(
    note_id: Field, noteId: Field,
    note_type: Field, noteType: Field,
    stt: Field,
    job_id: Field, jobId: Field,
    status: Field,
    noteback: Field,
    created_at: Field, createdAt: Field)

  /** The upload endpoint's JSON body. */
  datatype UploadResponse = UploadResponse(job_id: Field, jobId: Field)

  /** The poll endpoint's JSON body (its `error_message` is never read). */
  datatype PollResponse = PollResponse(status: Field, stt: Field, noteback: Field, noteId: Field)

  // ---------------------------------------------------------------------------------------
  // Mapping the fetched items (the `data.map` in fetchNotes)

  /** One fetched item as a note; `now` is the clock reading used when the item has no date. */
  function MapItem(item: RawNote, now: string): (n: Note)
    ensures n.noteId == (if Truthy(item.note_id) then item.note_id else item.noteId)
    ensures n.jobId == (if Truthy(item.job_id) then item.job_id else item.jobId)
    ensures n.noteType != ""
    ensures Truthy(item.note_type) ==> n.noteType == item.note_type.s
    ensures !Truthy(item.note_type) && Truthy(item.noteType) ==> n.noteType == item.noteType.s
    ensures !Truthy(item.note_type) && !Truthy(item.noteType) ==> n.noteType == AUDIO
    ensures n.status != "" && IsUpper(n.status)
    ensures item.status.Val? && item.status.s != "" ==> n.status == ToUpper(item.status.s)
    ensures !(item.status.Val? && item.status.s != "") ==> n.status == PROCESSING
    ensures n.stt == item.stt && n.noteback == item.noteback
    ensures Truthy(item.created_at) ==> n.createdAt == item.created_at.s
    ensures !Truthy(item.created_at) && Truthy(item.createdAt) ==> n.createdAt == item.createdAt.s
    ensures !Truthy(item.created_at) && !Truthy(item.createdAt) ==> n.createdAt == now
  {
    Note(
      Or(item.note_id, item.noteId),
      OrDefault(Or(item.note_type, item.noteType), AUDIO),
      item.stt,
      Or(item.job_id, item.jobId),
      OrDefault(UpperOpt(item.status), PROCESSING),
      item.noteback,
      OrDefault(Or(item.created_at, item.createdAt), now))
  }

  function MapItems(data: seq<RawNote>, now: string): (notes: seq<Note>)
    ensures |notes| == |data|
    ensures forall i :: 0 <= i < |data| ==> notes[i] == MapItem(data[i], now)
    ensures forall i :: 0 <= i < |data| ==> IsUpper(notes[i].status)
  {
    if data == [] then [] else [MapItem(data[0], now)] + MapItems(data[1..], now)
  }

  // ---------------------------------------------------------------------------------------
  // What each action does to the list

  /** The note put in front of the list when an upload succeeds. */
  function OptimisticNote(payload: UploadResponse, now: string): Note {
    var jobId := Or(payload.job_id, payload.jobId);
    Note(jobId, AUDIO, Null, jobId, PROCESSING, Null, now)
  }

  /** The poll result merged into one note (the object spread in the poll reducer). */
  function MergePoll(n: Note, data: PollResponse): (m: Note)
    ensures m.jobId == n.jobId && m.noteType == n.noteType && m.createdAt == n.createdAt
    ensures m.stt == (if data.stt == Absent then n.stt else data.stt)
    ensures m.noteback == (if data.noteback == Absent then n.noteback else data.noteback)
    ensures data.status.Val? && data.status.s != "" ==> m.status == ToUpper(data.status.s)
    ensures !(data.status.Val? && data.status.s != "") ==> m.status == n.status
    ensures m.noteId != n.noteId ==> data.status == Val(COMPLETED) && Truthy(data.noteId) && m.noteId == data.noteId
  {
    var newStatus := OrDefault(UpperOpt(data.status), n.status);
    n.(status := newStatus,
       stt := if data.stt != Absent then data.stt else n.stt,
       noteback := if data.noteback != Absent then data.noteback else n.noteback,
       noteId := if data.status == Val(COMPLETED) then Or(data.noteId, n.noteId) else n.noteId)
  }

  function ApplyPoll(notes: seq<Note>, jobId: Field, data: PollResponse): seq<Note> {
    match Lists.FirstIndex(notes, JobOf, jobId)
    case None => notes
    case Some(i) => notes[i := MergePoll(notes[i], data)]
  }

  function MarkedFailed(notes: seq<Note>, jobId: Field): seq<Note> {
    match Lists.FirstIndex(notes, JobOf, jobId)
    case None => notes
    case Some(i) => notes[i := notes[i].(status := FAILED)]
  }

  // ---------------------------------------------------------------------------------------
  // The store

  class NoteStore {
    var notes: seq<Note>
    var loading: bool
    var error: Option<string>

    constructor ()
      ensures notes == [] && !loading && error == None
    {
      notes, loading, error := [], false, None;
    }

    method ClearError()
      modifies this
      ensures error == None
      ensures notes == old(notes) && loading == old(loading)
    {
      error := None;
    }

    method ClearNotes()
      modifies this
      ensures notes == []
      ensures loading == old(loading) && error == old(error)
    {
      notes := [];
    }

    method MarkNoteAsFailed(jobId: Field)
      modifies this
      ensures notes == MarkedFailed(old(notes), jobId)
      ensures loading == old(loading) && error == old(error)
    {
      var index := Lists.FindIndex(notes, JobOf, jobId);
      if index != -1 {
        notes := notes[index := notes[index].(status := FAILED)];
      }
    }

    method FetchPending()
      modifies this
      ensures loading && error == None && notes == old(notes)
    {
      loading := true;
      error := None;
    }

    /** `payload` is the fetched array after MapItems. */
    method FetchFulfilled(payload: seq<Note>)
      modifies this
      ensures !loading && notes == payload && error == old(error)
    {
      loading := false;
      notes := payload;
    }

    method FetchRejected(message: Field)
      modifies this
      ensures !loading && error == Some(OrDefault(message, FETCH_FAILED)) && notes == old(notes)
    {
      loading := false;
      error := Some(OrDefault(message, FETCH_FAILED));
    }

    method UploadPending()
      modifies this
      ensures loading && error == None && notes == old(notes)
    {
      loading := true;
      error := None;
    }

    /** `now` is the clock reading taken for the new note's `createdAt`. */
    method UploadFulfilled(payload: UploadResponse, now: string)
      modifies this
      ensures !loading && error == old(error)
      ensures notes == [OptimisticNote(payload, now)] + old(notes)
    {
      loading := false;
      var newNote := OptimisticNote(payload, now);
      notes := [newNote] + notes;
    }

    method UploadRejected(message: Field)
      modifies this
      ensures !loading && error == Some(OrDefault(message, UPLOAD_FAILED)) && notes == old(notes)
    {
      loading := false;
      error := Some(OrDefault(message, UPLOAD_FAILED));
    }

    method PollFulfilled(jobId: Field, data: PollResponse)
      modifies this
      ensures notes == ApplyPoll(old(notes), jobId, data)
      ensures loading == old(loading) && error == old(error)
    {
      var index := Lists.FindIndex(notes, JobOf, jobId);
      if index != -1 {
        notes := notes[index := MergePoll(notes[index], data)];
      }
    }
  }

  // ---------------------------------------------------------------------------------------
  // Properties of the actions

  /**
   * A poll result touches only the first note with the job id; the list keeps its length and
   * every note keeps its job id, type and creation time; without a matching note nothing changes.
   */
  lemma ApplyPollFrame(notes: seq<Note>, jobId: Field, data: PollResponse)
    ensures var r := ApplyPoll(notes, jobId, data);
      && |r| == |notes|
      && (forall i :: 0 <= i < |notes| ==>
            r[i].jobId == notes[i].jobId && r[i].noteType == notes[i].noteType && r[i].createdAt == notes[i].createdAt)
      && (forall i :: 0 <= i < |notes| && Lists.FirstIndex(notes, JobOf, jobId) != Some(i) ==> r[i] == notes[i])
      && ((forall i :: 0 <= i < |notes| ==> notes[i].jobId != jobId) ==> r == notes)
  {
  }

  /** Where the first match is, the merged note is that note merged with the response. */
  lemma ApplyPollAt(notes: seq<Note>, jobId: Field, data: PollResponse, i: nat)
    requires i < |notes| && notes[i].jobId == jobId
    requires forall j :: 0 <= j < i ==> notes[j].jobId != jobId
    ensures ApplyPoll(notes, jobId, data)[i] == MergePoll(notes[i], data)
  {
    assert forall j :: 0 <= j < i ==> JobOf(notes[j]) != jobId;
    Lists.FirstIndexIs(notes, JobOf, jobId, i);
  }

  /** An explicit `null` in the response erases a transcript or summary that was already known. */
  lemma NullErasesKnownText(n: Note, data: PollResponse)
    requires n.stt.Val? && n.noteback.Val?
    requires data.stt == Null && data.noteback == Null
    ensures MergePoll(n, data).stt == Null && MergePoll(n, data).noteback == Null
  {
  }

  /** A response that leaves a field out keeps what the note had (the additive part of the merge). */
  lemma AbsentKeepsKnownText(n: Note, data: PollResponse)
    requires data.stt == Absent
    requires data.noteback.Val?
    ensures MergePoll(n, data).stt == n.stt && MergePoll(n, data).noteback == data.noteback
  {
  }

  /** The three status names are already upper-case. */
  lemma StatusNamesUpper()
    ensures ToUpper(PROCESSING) == PROCESSING
    ensures ToUpper(COMPLETED) == COMPLETED
    ensures ToUpper(FAILED) == FAILED
  {
    ProcessingIsUpper();
    CompletedIsUpper();
    FailedIsUpper();
  }

  lemma ProcessingIsUpper() ensures ToUpper(PROCESSING) == PROCESSING {}
  lemma CompletedIsUpper() ensures ToUpper(COMPLETED) == COMPLETED {}
  lemma FailedIsUpper() ensures ToUpper(FAILED) == FAILED {}

  /** No terminal-status guard: a FAILED note polled back as PROCESSING becomes PROCESSING again. */
  lemma PollOverwritesFailed(n: Note, data: PollResponse)
    requires n.status == FAILED
    requires data.status == Val(PROCESSING)
    ensures MergePoll(n, data).status == PROCESSING
  {
    StatusNamesUpper();
  }

  /** Nor for COMPLETED: a completed note polled back as FAILED becomes FAILED. */
  lemma PollOverwritesCompleted(n: Note, data: PollResponse)
    requires n.status == COMPLETED
    requires data.status == Val(FAILED)
    ensures MergePoll(n, data).status == FAILED
  {
    StatusNamesUpper();
  }

  /** A lower-case "completed" is upper-cased into the status, but the note id stays. */
  lemma LowercaseCompletedKeepsNoteId(n: Note, data: PollResponse)
    requires data.status == Val("completed")
    ensures MergePoll(n, data).status == COMPLETED
    ensures MergePoll(n, data).noteId == n.noteId
  {
  }

  /** The exact "COMPLETED" with a non-empty note id replaces the note id. */
  lemma CompletedTakesServerNoteId(n: Note, data: PollResponse)
    requires data.status == Val(COMPLETED) && Truthy(data.noteId)
    ensures MergePoll(n, data).noteId == data.noteId
    ensures MergePoll(n, data).status == COMPLETED
  {
    StatusNamesUpper();
  }

  /** Marking as failed sets FAILED on the first note with the job id whatever it held, COMPLETED included. */
  lemma MarkedFailedAt(notes: seq<Note>, jobId: Field, i: nat)
    requires i < |notes| && notes[i].jobId == jobId
    requires forall j :: 0 <= j < i ==> notes[j].jobId != jobId
    ensures var r := MarkedFailed(notes, jobId);
      |r| == |notes| && r[i] == notes[i].(status := FAILED) &&
      forall j :: 0 <= j < |notes| && j != i ==> r[j] == notes[j]
  {
    assert forall j :: 0 <= j < i ==> JobOf(notes[j]) != jobId;
    Lists.FirstIndexIs(notes, JobOf, jobId, i);
  }

  /** Marking as failed is a no-op when no note has the job id. */
  lemma MarkedFailedAbsent(notes: seq<Note>, jobId: Field)
    requires forall j :: 0 <= j < |notes| ==> notes[j].jobId != jobId
    ensures MarkedFailed(notes, jobId) == notes
  {
    assert forall j :: 0 <= j < |notes| ==> JobOf(notes[j]) != jobId;
  }

  /** Marking the same job as failed twice is the same as marking it once. */
  lemma MarkedFailedIdempotent(notes: seq<Note>, jobId: Field)
    ensures MarkedFailed(MarkedFailed(notes, jobId), jobId) == MarkedFailed(notes, jobId)
  {
    var once := MarkedFailed(notes, jobId);
    Lists.FirstIndexByKeys(once, JobOf, notes, JobOf, jobId);
  }

  /** The note an upload inserts has the upload's job id as both ids, even when that id is missing. */
  lemma OptimisticNoteShape(payload: UploadResponse, now: string)
    ensures var n := OptimisticNote(payload, now);
      && n.jobId == n.noteId
      && (Truthy(payload.job_id) ==> n.jobId == payload.job_id)
      && (!Truthy(payload.job_id) ==> n.jobId == payload.jobId)
      && n.status == PROCESSING && n.noteType == AUDIO
      && n.stt == Null && n.noteback == Null && n.createdAt == now
  {
  }

  // ---------------------------------------------------------------------------------------
  // Runs of the store

  /**
   * Upload, a first poll carrying the transcript, a second poll carrying the summary and the
   * final status: the transcript survives the second poll, which leaves it out.
   */
  method UploadThenPollTwice(now: string) returns (n: Note)
    ensures n == Note(Val("note-9"), AUDIO, Val("hello"), Val("job-1"), COMPLETED, Val("summary text"), now)
  {
    var store := new NoteStore();
    store.UploadFulfilled(UploadResponse(Val("job-1"), Absent), now);
    StatusNamesUpper();
    store.PollFulfilled(Val("job-1"), PollResponse(Val(PROCESSING), Val("hello"), Absent, Absent));
    ApplyPollAt([OptimisticNote(UploadResponse(Val("job-1"), Absent), now)], Val("job-1"),
      PollResponse(Val(PROCESSING), Val("hello"), Absent, Absent), 0);
    var second := PollResponse(Val(COMPLETED), Absent, Val("summary text"), Val("note-9"));
    ghost var before := store.notes;
    store.PollFulfilled(Val("job-1"), second);
    ApplyPollAt(before, Val("job-1"), second, 0);
    n := store.notes[0];
  }

  /**
   * A note marked failed on the client and then polled back as COMPLETED ends up COMPLETED:
   * the store keeps no terminal verdict.
   */
  method LateCompletionAfterFailure(now: string) returns (status: string)
    ensures status == COMPLETED
  {
    var store := new NoteStore();
    store.UploadFulfilled(UploadResponse(Val("job-1"), Absent), now);
    MarkedFailedAt(store.notes, Val("job-1"), 0);
    store.MarkNoteAsFailed(Val("job-1"));
    StatusNamesUpper();
    var late := PollResponse(Val(COMPLETED), Absent, Absent, Absent);
    ghost var before := store.notes;
    store.PollFulfilled(Val("job-1"), late);
    ApplyPollAt(before, Val("job-1"), late, 0);
    status := store.notes[0].status;
  }

  /** An upload whose response has no job id still inserts a note, whose job id is missing. */
  method UploadWithoutJobId(now: string) returns (count: nat, jobId: Field)
    ensures count == 1 && jobId == Absent
  {
    var store := new NoteStore();
    store.UploadFulfilled(UploadResponse(Absent, Absent), now);
    count := |store.notes|;
    jobId := store.notes[0].jobId;
  }
}
