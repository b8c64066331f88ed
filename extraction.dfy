/** Turning the pages of a downloaded PDF into the text that is analysed. */
module Extraction {
  import opened Wrappers
  import opened Text

  /** Only the first pages are read: the substance of these reports is at the front. */
  const MaxPages: nat := 7

  /** `if page_text:` -- the page yielded some text. */
  predicate HasText(page: Option<string>)
  {
    page.Some? && page.value != ""
  }

  /** What one page adds to the text: its text and a newline, or nothing. */
  function Contribution(page: Option<string>): string
  {
    if HasText(page) then page.value + "\n" else ""
  }

  /** The text accumulated over `pages`, in order. */
  function Assemble(pages: seq<Option<string>>): string
  {
    if pages == [] then "" else Assemble(pages[..|pages| - 1]) + Contribution(pages[|pages| - 1])
  }

  /** The page loop of `extract_text_from_pdf`: the first `min(7, len(pages))` pages, blank ones skipped. */
  method ReadPages(pages: seq<Option<string>>) returns (text: string)
    ensures text == Assemble(pages[..Min(MaxPages, |pages|)])
  {
    text := "";
    var maxPages := Min(MaxPages, |pages|);
    for i := 0 to maxPages
      invariant text == Assemble(pages[..i])
    {
      var pageText := pages[i];
      if pageText.Some? && pageText.value != "" {
        text := text + pageText.value + "\n";
      }
      assert pages[..i + 1][..i] == pages[..i];
    }
  }

  /** Text of consecutive runs of pages is the text of the first run followed by that of the second. */
  lemma {:induction false} AssembleAppend(a: seq<Option<string>>, b: seq<Option<string>>)
    ensures Assemble(a + b) == Assemble(a) + Assemble(b)
    decreases |b|
  {
    if b == [] {
      assert a + b == a;
    } else {
      var b', last := b[..|b| - 1], b[|b| - 1];
      var ab := a + b;
      assert ab[..|ab| - 1] == a + b' && ab[|ab| - 1] == last;
      assert Assemble(ab) == Assemble(a + b') + Contribution(last);
      AssembleAppend(a, b');
      assert Assemble(b) == Assemble(b') + Contribution(last);
    }
  }

  /** The text is empty exactly when none of the pages read yielded any text. */
  lemma {:induction false} AssembleEmptyIff(pages: seq<Option<string>>)
    ensures Assemble(pages) == "" <==> forall i :: 0 <= i < |pages| ==> !HasText(pages[i])
  {
    if pages != [] {
      var init := pages[..|pages| - 1];
      AssembleEmptyIff(init);
      if HasText(pages[|pages| - 1]) {
        assert |Contribution(pages[|pages| - 1])| > 0;
      } else {
        forall i | 0 <= i < |init| ensures pages[i] == init[i] { }
      }
    }
  }

  /** Reference reading of the loop: the contributions of the pages, joined in page order. */
  lemma {:induction false} AssembleIsJoin(pages: seq<Option<string>>)
    ensures Assemble(pages) == Concat(seq(|pages|, i requires 0 <= i < |pages| => Contribution(pages[i])))
  {
    if pages != [] {
      var init := pages[..|pages| - 1];
      var parts := seq(|pages|, i requires 0 <= i < |pages| => Contribution(pages[i]));
      var initParts := seq(|init|, i requires 0 <= i < |init| => Contribution(init[i]));
      AssembleIsJoin(init);
      assert parts == initParts + [Contribution(pages[|pages| - 1])];
      ConcatAppend(initParts, [Contribution(pages[|pages| - 1])]);
      assert Concat([Contribution(pages[|pages| - 1])]) == Contribution(pages[|pages| - 1]) + Concat([]);
    }
  }

  /**
   * `extract_text_from_pdf` after the download: `None` when the download or the parser failed,
   * otherwise the text of the first pages.
   */
  function PdfText(download: Option<seq<Option<string>>>): (text: Option<string>)
    ensures download.None? <==> text.None?
    ensures download.Some? && (forall i :: 0 <= i < |download.value| ==> !HasText(download.value[i])) ==> text == Some("")
    ensures download.Some? && |download.value| > 0 && HasText(download.value[0]) ==> text.Some? && text.value != ""
  {
    match download
    case None => None
    case Some(pages) =>
      var read := pages[..Min(MaxPages, |pages|)];
      AssembleEmptyIff(read);
      Some(Assemble(read))
  }

  /** Only the first seven pages are read: whatever follows them does not change the text. */
  lemma LaterPagesIgnored(pages: seq<Option<string>>, later: seq<Option<string>>)
    requires |pages| >= MaxPages
    ensures PdfText(Some(pages + later)) == PdfText(Some(pages))
  {
    assert (pages + later)[..MaxPages] == pages[..MaxPages];
  }
}
