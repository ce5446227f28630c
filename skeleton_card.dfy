/**
 * The placeholder card of a note still being processed (components/SkeletonNoteCard.tsx): the
 * transcript and summary as far as they have arrived, and a loading message that rotates.
 */
module SkeletonNoteCardView {
  import opened Js

  const LOADING_MESSAGES: seq<string> := ["Analyzing content...", "Generating insights...", "Almost there..."]

  /** The interval's update of the message index. */
  function NextMessageIndex(prev: nat): (r: nat)
    ensures r < |LOADING_MESSAGES|
  {
    (prev + 1) % |LOADING_MESSAGES|
  }

  /** The index after `ticks` interval ticks from `start`. */
  function IndexAfter(start: nat, ticks: nat): nat {
    if ticks == 0 then start else NextMessageIndex(IndexAfter(start, ticks - 1))
  }

  /** From a valid index, `k` ticks advance it by `k` modulo the number of messages. */
  lemma {:induction false} IndexAfterTicks(start: nat, ticks: nat)
    requires start < |LOADING_MESSAGES|
    ensures IndexAfter(start, ticks) == (start + ticks) % |LOADING_MESSAGES|
  {
    if ticks > 0 {
      IndexAfterTicks(start, ticks - 1);
    }
  }

  /** Three ticks bring the index back to where it was. */
  lemma ThreeTicksReturn(start: nat)
    requires start < |LOADING_MESSAGES|
    ensures IndexAfter(start, 3) == start
  {
    IndexAfterTicks(start, 3);
  }

  class LoadingCard {
    var messageIndex: nat

    constructor ()
      ensures messageIndex == 0
    {
      messageIndex := 0;
    }

    method Tick()
      modifies this
      ensures messageIndex == NextMessageIndex(old(messageIndex))
      ensures messageIndex < |LOADING_MESSAGES|
    {
      messageIndex := NextMessageIndex(messageIndex);
    }
  }

  /** The optional `note` prop of the card. */
  datatype CardNote = CardNote(stt: Field, noteback: Field)

  datatype TranscriptArea = Transcript(text: string) | Skeleton
  datatype AssistantArea = Noteback(text: string) | LoadingMessage(text: string)

  /** The transcript is shown when it is a non-empty string, the skeleton lines otherwise. */
  function TranscriptAreaOf(note: Option<CardNote>): (r: TranscriptArea)
    ensures r.Transcript? <==> note.Some? && Truthy(note.value.stt)
    ensures r.Transcript? ==> r.text == note.value.stt.s
  {
    if note.Some? && Truthy(note.value.stt) then Transcript(note.value.stt.s) else Skeleton
  }

  /** The summary is shown when it is a non-empty string, the current loading message otherwise. */
  function AssistantAreaOf(note: Option<CardNote>, messageIndex: nat): (r: AssistantArea)
    requires messageIndex < |LOADING_MESSAGES|
    ensures r.Noteback? <==> note.Some? && Truthy(note.value.noteback)
    ensures r.Noteback? ==> r.text == note.value.noteback.s
    ensures r.LoadingMessage? ==> r.text == LOADING_MESSAGES[messageIndex]
  {
    if note.Some? && Truthy(note.value.noteback) then Noteback(note.value.noteback.s)
    else LoadingMessage(LOADING_MESSAGES[messageIndex])
  }

  /** A card without a summary shows the messages in turn and is back at the first after three ticks. */
  method CycleOnce() returns (shown: seq<string>)
    ensures shown == LOADING_MESSAGES + [LOADING_MESSAGES[0]]
  {
    var card := new LoadingCard();
    var note := Some(CardNote(Val("hello"), Null));
    shown := [AssistantAreaOf(note, card.messageIndex).text];
    card.Tick();
    shown := shown + [AssistantAreaOf(note, card.messageIndex).text];
    card.Tick();
    shown := shown + [AssistantAreaOf(note, card.messageIndex).text];
    card.Tick();
    shown := shown + [AssistantAreaOf(note, card.messageIndex).text];
  }
}
