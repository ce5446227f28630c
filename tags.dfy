/**
 * The tag store (store/slices/tagSlice.ts): the user's tags, the notes of the selected tag,
 * and two separate loading flags, one for the tag list and one for the tag's notes.
 */
module TagSlice {
  import opened Js

  datatype Tag = Tag(id: string, name: string, createdAt: string)

  /** A note as the tag screen lists it. */
  datatype TagNote = TagNote(id: string, stt: string, createdAt: string, tagId: Option<string>)

  const FETCH_TAGS_FAILED: string := "Failed to fetch tags"
  const FETCH_NOTES_FAILED: string := "Failed to fetch notes"
  const CREATE_FAILED: string := "Failed to create tag"

  class TagStore {
    var tags: seq<Tag>
    var notes: seq<TagNote>
    var selectedTag: Option<Tag>
    var loading: bool
    var notesLoading: bool
    var error: Option<string>

    constructor ()
      ensures tags == [] && notes == [] && selectedTag == None
      ensures !loading && !notesLoading && error == None
    {
      tags, notes, selectedTag := [], [], None;
      loading, notesLoading, error := false, false, None;
    }

    method ClearError()
      modifies this
      ensures error == None
      ensures tags == old(tags) && notes == old(notes) && selectedTag == old(selectedTag)
      ensures loading == old(loading) && notesLoading == old(notesLoading)
    {
      error := None;
    }

    method SetSelectedTag(tag: Option<Tag>)
      modifies this
      ensures selectedTag == tag
      ensures tags == old(tags) && notes == old(notes) && error == old(error)
      ensures loading == old(loading) && notesLoading == old(notesLoading)
    {
      selectedTag := tag;
    }

    method ClearNotes()
      modifies this
      ensures notes == []
      ensures tags == old(tags) && selectedTag == old(selectedTag) && error == old(error)
      ensures loading == old(loading) && notesLoading == old(notesLoading)
    {
      notes := [];
    }

    method FetchTagsPending()
      modifies this
      ensures loading && error == None
      ensures tags == old(tags) && notes == old(notes) && selectedTag == old(selectedTag)
      ensures notesLoading == old(notesLoading)
    {
      loading := true;
      error := None;
    }

    method FetchTagsFulfilled(payload: seq<Tag>)
      modifies this
      ensures !loading && tags == payload
      ensures notes == old(notes) && selectedTag == old(selectedTag) && error == old(error)
      ensures notesLoading == old(notesLoading)
    {
      loading := false;
      tags := payload;
    }

    method FetchTagsRejected(message: Field)
      modifies this
      ensures !loading && error == Some(OrDefault(message, FETCH_TAGS_FAILED))
      ensures tags == old(tags) && notes == old(notes) && selectedTag == old(selectedTag)
      ensures notesLoading == old(notesLoading)
    {
      loading := false;
      error := Some(OrDefault(message, FETCH_TAGS_FAILED));
    }

    method FetchNotesByTagPending()
      modifies this
      ensures notesLoading && error == None
      ensures tags == old(tags) && notes == old(notes) && selectedTag == old(selectedTag)
      ensures loading == old(loading)
    {
      notesLoading := true;
      error := None;
    }

    method FetchNotesByTagFulfilled(payload: seq<TagNote>)
      modifies this
      ensures !notesLoading && notes == payload
      ensures tags == old(tags) && selectedTag == old(selectedTag) && error == old(error)
      ensures loading == old(loading)
    {
      notesLoading := false;
      notes := payload;
    }

    method FetchNotesByTagRejected(message: Field)
      modifies this
      ensures !notesLoading && error == Some(OrDefault(message, FETCH_NOTES_FAILED))
      ensures tags == old(tags) && notes == old(notes) && selectedTag == old(selectedTag)
      ensures loading == old(loading)
    {
      notesLoading := false;
      error := Some(OrDefault(message, FETCH_NOTES_FAILED));
    }

    method CreateTagPending()
      modifies this
      ensures loading && error == None
      ensures tags == old(tags) && notes == old(notes) && selectedTag == old(selectedTag)
      ensures notesLoading == old(notesLoading)
    {
      loading := true;
      error := None;
    }

    /** The created tag goes to the end of the list. */
    method CreateTagFulfilled(payload: Tag)
      modifies this
      ensures !loading && tags == old(tags) + [payload]
      ensures notes == old(notes) && selectedTag == old(selectedTag) && error == old(error)
      ensures notesLoading == old(notesLoading)
    {
      loading := false;
      tags := tags + [payload];
    }

    method CreateTagRejected(message: Field)
      modifies this
      ensures !loading && error == Some(OrDefault(message, CREATE_FAILED))
      ensures tags == old(tags) && notes == old(notes) && selectedTag == old(selectedTag)
      ensures notesLoading == old(notesLoading)
    {
      loading := false;
      error := Some(OrDefault(message, CREATE_FAILED));
    }
  }

  /**
   * Creating a tag while the tag's notes are loading: the new tag lands last, the earlier tags
   * keep their places, and the notes' loading flag is untouched by the tag list's.
   */
  method CreateWhileNotesLoad(existing: seq<Tag>, created: Tag) returns (tags: seq<Tag>, loading: bool, notesLoading: bool)
    ensures |tags| == |existing| + 1 && tags[..|existing|] == existing && tags[|existing|] == created
    ensures !loading && notesLoading
  {
    var store := new TagStore();
    store.FetchTagsFulfilled(existing);
    store.FetchNotesByTagPending();
    store.CreateTagPending();
    store.CreateTagFulfilled(created);
    tags, loading, notesLoading := store.tags, store.loading, store.notesLoading;
  }
}
