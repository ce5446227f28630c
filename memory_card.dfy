/** A note card with a collapsible user text (components/ui/memory-card.tsx). */
module MemoryCardView {
  import opened Js

  const PREVIEW_LENGTH: nat := 60
  const ELLIPSIS: string := "..."

  /** `text.slice(0, n)`. */
  function Slice(text: string, n: nat): string {
    if |text| <= n then text else text[..n]
  }

  /** The collapsed header: the first 60 characters, followed by "..." when the text is longer. */
  function CollapsedPreview(text: string): (r: string)
    ensures |text| <= PREVIEW_LENGTH ==> r == text
    ensures |text| > PREVIEW_LENGTH ==> r == text[..PREVIEW_LENGTH] + ELLIPSIS
    ensures |r| <= PREVIEW_LENGTH + |ELLIPSIS|
    ensures |r| <= |text| + |ELLIPSIS|
  {
    Slice(text, PREVIEW_LENGTH) + (if |text| > PREVIEW_LENGTH then ELLIPSIS else "")
  }

  class MemoryCard {
    var isCollapsed: bool
    const userText: string
    const assistantText: string

    /** A card starts collapsed. */
    constructor (userText: string, assistantText: string)
      ensures isCollapsed && this.userText == userText && this.assistantText == assistantText
    {
      this.userText := userText;
      this.assistantText := assistantText;
      isCollapsed := true;
    }

    /** Pressing the header flips the card. */
    method Press()
      modifies this
      ensures isCollapsed == !old(isCollapsed)
    {
      isCollapsed := !isCollapsed;
    }

    /** The text in the header: the preview when collapsed, the whole text when expanded. */
    function HeaderText(): (r: string)
      reads this
      ensures !isCollapsed ==> r == userText
      ensures isCollapsed ==> r == CollapsedPreview(userText)
      ensures isCollapsed ==> |r| <= PREVIEW_LENGTH + |ELLIPSIS|
      ensures isCollapsed && |userText| <= PREVIEW_LENGTH ==> r == userText
    {
      if isCollapsed then CollapsedPreview(userText) else userText
    }

    /** The body under the header, shown only when the card is expanded. */
    function Body(): (r: Option<string>)
      reads this
      ensures r.Some? <==> !isCollapsed
      ensures r.Some? ==> r.value == userText
    {
      if !isCollapsed then Some(userText) else None
    }
  }

  /** Pressing twice brings the card back to its collapsed preview with no body. */
  method PressTwice(text: string, reply: string) returns (header: string, body: Option<string>)
    ensures header == CollapsedPreview(text) && body == None
  {
    var card := new MemoryCard(text, reply);
    card.Press();
    card.Press();
    header, body := card.HeaderText(), card.Body();
  }
}
