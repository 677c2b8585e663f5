/**
 * The result card (components/ResultCard.tsx) around the rendered text: which
 * body it shows, when the copy button is offered, and what a copy does.
 */
module ResultCard {
  import opened Wrappers
  import opened Text
  import opened Markdown

  /** The card's body: the loading skeleton, the rendered content, or the placeholder line. */
  datatype Body = Skeleton | Rendered(blocks: seq<Block>) | Placeholder(message: string)

  /**
   * Loading wins; otherwise non-empty content is rendered and empty content
   * shows "Your <lower-cased title> will appear here.".
   */
  function CardBody(title: string, content: string, isLoading: bool): (b: Body)
    ensures b.Skeleton? <==> isLoading
    ensures b.Rendered? <==> !isLoading && content != ""
    ensures b.Rendered? ==> b.blocks == MarkdownBlocks(content)
    ensures b.Placeholder? ==> b.message == "Your " + ToLower(title) + " will appear here."
  {
    if isLoading then Skeleton
    else if content != "" then Rendered(MarkdownBlocks(content))
    else Placeholder("Your " + ToLower(title) + " will appear here.")
  }

  /** The copy button's condition `content && !isLoading`. */
  predicate ShowCopyButton(content: string, isLoading: bool) {
    content != "" && !isLoading
  }

  /** The copy button is offered exactly when the body shows rendered content. */
  lemma CopyButtonOnlyWithRenderedContent(title: string, content: string, isLoading: bool)
    ensures ShowCopyButton(content, isLoading) <==> CardBody(title, content, isLoading).Rendered?
  {
  }

  /** The transcript card's placeholder. */
  lemma TranscriptPlaceholder()
    ensures CardBody("Transcript", "", false) == Placeholder("Your transcript will appear here.")
  {
    assert LowerChar('T') == 't';
    assert ToLower("Transcript") == "transcript";
    assert "Your " + "transcript" + " will appear here." == "Your transcript will appear here.";
  }

  /** The summary card's placeholder. */
  lemma SummaryPlaceholder()
    ensures CardBody("Summary", "", false) == Placeholder("Your summary will appear here.")
  {
    assert LowerChar('S') == 's';
    assert ToLower("Summary") == "summary";
    assert "Your " + "summary" + " will appear here." == "Your summary will appear here.";
  }

  /**
   * The card's `copied` state and the text last written to the clipboard
   * (the browser clipboard itself is outside the model).
   */
  class CopyButton {
    var copied: bool
    var clipboard: Option<string>

    constructor ()
      ensures !copied && clipboard.None?
    {
      copied := false;
      clipboard := None;
    }

    /** `handleCopy`: empty content is a no-op; otherwise the content is written and `copied` is set. */
    method HandleCopy(content: string)
      modifies this
      ensures content == "" ==> copied == old(copied) && clipboard == old(clipboard)
      ensures content != "" ==> copied && clipboard == Some(content)
    {
      if content == "" {
        return;
      }
      clipboard := Some(content);
      copied := true;
    }

    /** The timer callback two seconds after a copy: the icon goes back to the clipboard. */
    method CopiedExpired()
      modifies this`copied
      ensures !copied
    {
      copied := false;
    }
  }
}
