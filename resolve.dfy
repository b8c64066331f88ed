/** Finding the PDF of a report: a direct link, or a link found on the report's own page. */
module Resolve {
  import opened Wrappers
  import opened Text
  import opened Externals
  import opened Filter

  /** What `soup.find('a', ...)` searches by: an `href` ending in `.pdf`, or a download label in the text. */
  datatype Criterion = ByHref | ByText(labels: seq<string>)

  /** `href.lower().endswith('.pdf')`, and the `\.pdf$` pattern applied with `re.IGNORECASE`. */
  predicate IsPdfHref(fold: char -> char, href: string)
  {
    EndsWith(Lower(fold, href), ".pdf")
  }

  predicate Meets(fold: char -> char, c: Criterion, a: Anchor)
  {
    match c
    case ByHref => a.href.Some? && IsPdfHref(fold, a.href.value)
    case ByText(labels) => IsTarget(fold, a.title, labels)
  }

  /** `soup.find('a', ...)`: the index of the first anchor meeting the criterion, in document order. */
  function FirstWhere(fold: char -> char, anchors: seq<Anchor>, c: Criterion): (r: Option<nat>)
    ensures r.Some? ==> r.value < |anchors| && Meets(fold, c, anchors[r.value])
    ensures r.Some? ==> forall j :: 0 <= j < r.value ==> !Meets(fold, c, anchors[j])
    ensures r.None? ==> forall j :: 0 <= j < |anchors| ==> !Meets(fold, c, anchors[j])
  {
    if anchors == [] then None
    else if Meets(fold, c, anchors[0]) then Some(0)
    else match FirstWhere(fold, anchors[1..], c)
      case None => None
      case Some(i) => Some(i + 1)
  }

  /**
   * Where the search for the PDF ended: at a URL; with nothing found; or at a download button
   * without an `href`, on which `pdf_link['href']` raises `KeyError`.
   */
  datatype Outcome = PdfAt(url: string) | NoPdf | MissingHref

  /** The outcome, and the page fetches made to reach it. */
  datatype Resolution = Resolution(fetches: seq<Event>, outcome: Outcome)

  /**
   * The search on a report page: the first `.pdf` link; failing that, and only when `withButton`
   * holds, the first anchor whose text holds one of `labels`.
   */
  function PdfOnPage(w: World, base: string, sub: seq<Anchor>, withButton: bool, labels: seq<string>): Outcome
  {
    match FirstWhere(w.fold, sub, ByHref)
    case Some(i) => PdfAt(w.join(base, sub[i].href.value))
    case None =>
      if !withButton then NoPdf
      else match FirstWhere(w.fold, sub, ByText(labels))
        case None => NoPdf
        case Some(i) => if sub[i].href.None? then MissingHref else PdfAt(w.join(base, sub[i].href.value))
  }

  /** The first `.pdf` link of the page wins, whether or not a download button is looked for. */
  lemma PdfLinkWins(w: World, base: string, sub: seq<Anchor>, withButton: bool, labels: seq<string>, i: nat)
    requires i < |sub| && Meets(w.fold, ByHref, sub[i])
    requires forall j :: 0 <= j < i ==> !Meets(w.fold, ByHref, sub[j])
    ensures PdfOnPage(w, base, sub, withButton, labels) == PdfAt(w.join(base, sub[i].href.value))
  {
  }

  /** Only when the page has no `.pdf` link is the first download button used. */
  lemma ButtonIsFallback(w: World, base: string, sub: seq<Anchor>, labels: seq<string>, i: nat)
    requires forall j :: 0 <= j < |sub| ==> !Meets(w.fold, ByHref, sub[j])
    requires i < |sub| && Meets(w.fold, ByText(labels), sub[i])
    requires forall j :: 0 <= j < i ==> !Meets(w.fold, ByText(labels), sub[j])
    ensures PdfOnPage(w, base, sub, true, labels)
         == if sub[i].href.Some? then PdfAt(w.join(base, sub[i].href.value)) else MissingHref
  {
  }

  /** The case mapping lowers the letters of the `.pdf` suffix and keeps the dot. */
  predicate LowersPdf(fold: char -> char)
  {
    fold('.') == '.' && fold('p') == 'p' && fold('P') == 'p' && fold('d') == 'd' && fold('D') == 'd'
    && fold('f') == 'f' && fold('F') == 'f'
  }

  /** `suffix` is `.pdf` in any mix of upper and lower case. */
  predicate PdfSuffixAnyCase(suffix: string)
  {
    |suffix| == 4 && suffix[0] == '.' && suffix[1] in "pP" && suffix[2] in "dD" && suffix[3] in "fF"
  }

  /** Under a case mapping that lowers the suffix, `.PDF`, `.Pdf` and the like all count as `.pdf`. */
  lemma PdfHrefAnyCase(fold: char -> char, stem: string, suffix: string)
    requires LowersPdf(fold) && PdfSuffixAnyCase(suffix)
    ensures IsPdfHref(fold, stem + suffix)
  {
    LowerAppend(fold, stem, suffix);
    var low := Lower(fold, suffix);
    assert low == ".pdf";
    var whole := Lower(fold, stem + suffix);
    assert whole[|whole| - 4..] == low;
  }

  /**
   * The Bank of Russia lookup: a report link whose own `href` ends in `.pdf` is the PDF, and no
   * page is fetched; otherwise the report page is fetched and searched, buttons labelled with one
   * of `labels` included.
   */
  function ResolveCbr(w: World, base: string, labels: seq<string>, href: string, fullUrl: string): (r: Resolution)
    ensures IsPdfHref(w.fold, href) ==> r == Resolution([], PdfAt(fullUrl))
    ensures !IsPdfHref(w.fold, href) ==> r.fetches == [Get(fullUrl)]
    ensures !IsPdfHref(w.fold, href) && w.page(fullUrl).None? ==> r.outcome == NoPdf
  {
    if IsPdfHref(w.fold, href) then Resolution([], PdfAt(fullUrl))
    else
      var outcome := match w.page(fullUrl)
        case None => NoPdf
        case Some(sub) => PdfOnPage(w, base, sub, true, labels);
      Resolution([Get(fullUrl)], outcome)
  }

  /** A report link ending in `.pdf` in any case goes straight to its PDF, with no page fetched. */
  lemma DirectPdfAnyCase(w: World, base: string, labels: seq<string>, stem: string, suffix: string, fullUrl: string)
    requires LowersPdf(w.fold) && PdfSuffixAnyCase(suffix)
    ensures ResolveCbr(w, base, labels, stem + suffix, fullUrl) == Resolution([], PdfAt(fullUrl))
  {
    PdfHrefAnyCase(w.fold, stem, suffix);
  }

  /**
   * The Ministry lookup: the report page is always fetched and only a `.pdf` link is looked for,
   * so the lookup never reaches a button without an `href`.
   */
  function ResolveMinec(w: World, base: string, fullUrl: string): (r: Resolution)
    ensures r.fetches == [Get(fullUrl)]
    ensures r.outcome != MissingHref
    ensures w.page(fullUrl).None? ==> r.outcome == NoPdf
    ensures w.page(fullUrl).Some? && (forall j :: 0 <= j < |w.page(fullUrl).value| ==> !Meets(w.fold, ByHref, w.page(fullUrl).value[j]))
      ==> r.outcome == NoPdf
  {
    var outcome := match w.page(fullUrl)
      case None => NoPdf
      case Some(sub) => PdfOnPage(w, base, sub, false, []);
    Resolution([Get(fullUrl)], outcome)
  }
}
