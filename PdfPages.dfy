// The PDF export's page layout.  The jsPDF document is modelled by what is
// drawn on it: a page counter that `addPage` advances and the sequence of
// marks drawn, each tagged with the page it was drawn on.  Fonts, alignment
// and pixels are not modelled; the marks keep their text and their vertical
// position in millimetres.
//
// Layout, in order: a title page (the wrapped title and the story type), a
// table-of-contents page, then every chapter from a fresh page: its
// "Chapter n" heading, its wrapped title, its illustration (or a placeholder
// when the image could not be turned into a data URL), then its text, which
// spills onto new pages whenever the next line would start below the bottom
// margin.  Every page gets its number at the foot as it is finished.

module PdfPages {
  import opened Wrappers
  import opened JsText
  import opened Markers
  import opened StoryData
  import opened PdfText

  datatype Mark =
    | TitleLine(text: string, y: real)
    | Subtitle(text: string, y: real)
    | Footer(number: nat, y: real)
    | TocHeading(y: real)
    | TocRow(text: string, pageLabel: string, y: real)
    | ChapterHeading(chapter: nat, y: real)
    | ChapterTitleLine(text: string, y: real)
    | Picture(dataUrl: string, x: real, y: real, width: real, height: real)
    | Placeholder(y: real)
    | BodyLine(text: string, y: real)

  /** A mark and the page it was drawn on. */
  datatype Placed = Placed(page: nat, mark: Mark)

  /** The document being drawn: `addPage` moves to a new page, every drawing
      call lands on the current page. */
  class PdfDocument {
    var page: nat
    var marks: seq<Placed>

    constructor ()
      ensures page == 1 && marks == []
    {
      page := 1;
      marks := [];
    }

    method AddPage()
      modifies this
      ensures page == old(page) + 1 && marks == old(marks)
    {
      page := page + 1;
    }

    method Draw(m: Mark)
      modifies this
      ensures page == old(page) && marks == old(marks) + [Placed(page, m)]
    {
      marks := marks + [Placed(page, m)];
    }
  }

  // ---------------------------------------------------------------------------
  // Reading a drawing back
  // ---------------------------------------------------------------------------

  function FooterOf(p: Placed): seq<nat> {
    if p.mark.Footer? then [p.mark.number] else []
  }

  /** The page numbers printed so far, in drawing order. */
  function FooterNumbers(marks: seq<Placed>): seq<nat> {
    if marks == [] then [] else FooterNumbers(marks[..|marks| - 1]) + FooterOf(marks[|marks| - 1])
  }

  /** What a reader of the finished document sees, apart from page numbers,
      each kind of mark in drawing order and with the page it is on: the
      title-page lines, the story-type line, the table-of-contents heading,
      the table-of-contents rows (text and page label), the chapter headings,
      the chapter-title lines, the embedded pictures, the image placeholders
      and the body lines. */
  datatype Contents = Contents(
    titles: seq<(string, nat)>,
    subtitles: seq<(string, nat)>,
    tocHeadings: seq<nat>,
    rows: seq<(string, string, nat)>,
    headings: seq<(nat, nat)>,
    chapterTitles: seq<(string, nat)>,
    pictures: seq<(string, nat)>,
    placeholders: seq<nat>,
    body: seq<(string, nat)>)

  const NoContents := Contents([], [], [], [], [], [], [], [], [])

  /** The contents after drawing `p`. */
  function Add(c: Contents, p: Placed): Contents {
    match p.mark
    case TitleLine(text, _) => c.(titles := c.titles + [(text, p.page)])
    case Subtitle(text, _) => c.(subtitles := c.subtitles + [(text, p.page)])
    case TocHeading(_) => c.(tocHeadings := c.tocHeadings + [p.page])
    case TocRow(text, pageLabel, _) => c.(rows := c.rows + [(text, pageLabel, p.page)])
    case ChapterHeading(chapter, _) => c.(headings := c.headings + [(chapter, p.page)])
    case ChapterTitleLine(text, _) => c.(chapterTitles := c.chapterTitles + [(text, p.page)])
    case Picture(dataUrl, _, _, _, _) => c.(pictures := c.pictures + [(dataUrl, p.page)])
    case Placeholder(_) => c.(placeholders := c.placeholders + [p.page])
    case BodyLine(text, _) => c.(body := c.body + [(text, p.page)])
    case Footer(_, _) => c
  }

  function ContentsOf(marks: seq<Placed>): Contents {
    if marks == [] then NoContents
    else Add(ContentsOf(marks[..|marks| - 1]), marks[|marks| - 1])
  }

  /** A loop that appends xs[k] to what it has appended of xs so far. */
  lemma AppendNext<T>(front: seq<T>, xs: seq<T>, k: nat)
    requires k < |xs|
    ensures front + xs[..k] + [xs[k]] == front + xs[..k + 1]
  {
    assert xs[..k + 1] == xs[..k] + [xs[k]];
  }

  /** Lines drawn one after another on the same page. */
  function OnPage(lines: seq<string>, page: nat): (r: seq<(string, nat)>)
    ensures |r| == |lines|
    ensures forall k :: 0 <= k < |lines| ==> r[k] == (lines[k], page)
  {
    seq(|lines|, k requires 0 <= k < |lines| => (lines[k], page))
  }

  /** The numbers 1, 2, ..., n. */
  function UpTo(n: nat): (r: seq<nat>)
    ensures |r| == n
  {
    if n == 0 then [] else UpTo(n - 1) + [n]
  }

  lemma {:induction false} UpToCounts(n: nat)
    ensures forall k :: 0 <= k < n ==> UpTo(n)[k] == k + 1
  {
    if n > 0 {
      UpToCounts(n - 1);
    }
  }

  /** Every page number is printed on the page it names. */
  predicate FootersOnOwnPage(marks: seq<Placed>) {
    marks != [] ==>
      && FootersOnOwnPage(marks[..|marks| - 1])
      && (marks[|marks| - 1].mark.Footer? ==> marks[|marks| - 1].mark.number == marks[|marks| - 1].page)
  }

  /** Every body line starts between the top margin and `bottom`. */
  predicate BodyWithin(marks: seq<Placed>, bottom: real) {
    marks != [] ==>
      && BodyWithin(marks[..|marks| - 1], bottom)
      && (marks[|marks| - 1].mark.BodyLine? ==> TopY <= marks[|marks| - 1].mark.y <= bottom)
  }

  lemma {:induction false} FootersOnOwnPageMeans(marks: seq<Placed>)
    ensures FootersOnOwnPage(marks) <==>
      forall k :: 0 <= k < |marks| && marks[k].mark.Footer? ==> marks[k].mark.number == marks[k].page
  {
    if marks != [] {
      var init := marks[..|marks| - 1];
      FootersOnOwnPageMeans(init);
      assert forall k :: 0 <= k < |init| ==> init[k] == marks[k];
    }
  }

  lemma {:induction false} BodyWithinMeans(marks: seq<Placed>, bottom: real)
    ensures BodyWithin(marks, bottom) <==>
      forall k :: 0 <= k < |marks| && marks[k].mark.BodyLine? ==> TopY <= marks[k].mark.y <= bottom
  {
    if marks != [] {
      var init := marks[..|marks| - 1];
      BodyWithinMeans(init, bottom);
      assert forall k :: 0 <= k < |init| ==> init[k] == marks[k];
    }
  }

  /** The state of the drawing while `pageNumber` is the next number to print:
      the footers so far read 1, ..., pageNumber-1, each drawn on the page it
      names, and no body line lies outside the margins. */
  ghost predicate Drawing(marks: seq<Placed>, pageNumber: nat, bottom: real) {
    && pageNumber >= 1
    && FooterNumbers(marks) == UpTo(pageNumber - 1)
    && FootersOnOwnPage(marks)
    && BodyWithin(marks, bottom)
  }

  lemma DrawEffects(marks: seq<Placed>, p: Placed, bottom: real)
    ensures FooterNumbers(marks + [p]) == FooterNumbers(marks) + FooterOf(p)
    ensures ContentsOf(marks + [p]) == Add(ContentsOf(marks), p)
    ensures FootersOnOwnPage(marks + [p])
        <==> FootersOnOwnPage(marks) && (p.mark.Footer? ==> p.mark.number == p.page)
    ensures BodyWithin(marks + [p], bottom)
        <==> BodyWithin(marks, bottom) && (p.mark.BodyLine? ==> TopY <= p.mark.y <= bottom)
  {
    assert (marks + [p])[..|marks|] == marks;
  }

  // ---------------------------------------------------------------------------
  // Geometry
  // ---------------------------------------------------------------------------

  /** Text may start on a line only above this height. */
  function Bottom(size: PageSize): real {
    size.height - 20.0
  }

  /** A page tall enough for one body line under the top margin, as all the
      supported page sizes are. */
  predicate Roomy(size: PageSize) {
    0.0 < size.width && TopY + 5.0 <= Bottom(size)
  }

  /** The parts of the export the model takes as given: the page size, the
      image orientation, jsPDF's text measurement, its line splitting at a
      given width (at the body font size), and whether `addImage` accepts a
      data URL. */
  datatype Setup = Setup(
    size: PageSize,
    orientation: string,
    measure: Measure,
    split: (string, real) -> seq<string>,
    accepts: string -> bool)

  /** The chapter title wrapped at most 30 characters a line at 14 pt. */
  function ChapterTitleLines(s: Setup, title: string): seq<string> {
    WrapLines(title, ChapterTitleLineLimit, ChapterTitleFontSize, s.measure, s.size.width * 0.8)
  }

  /** A picture is embedded for a non-empty data URL that jsPDF accepts. */
  predicate Embeds(s: Setup, dataUrl: Option<string>) {
    Truthy(dataUrl) && StartsWith(dataUrl.value, "data:") && s.accepts(dataUrl.value)
  }

  /** How far the illustration moves the text down. */
  function ImageAdvance(s: Setup, dataUrl: Option<string>): real {
    if !Truthy(dataUrl) then 0.0
    else if StartsWith(dataUrl.value, "data:") then
      if s.accepts(dataUrl.value) then PictureSize(s.orientation, s.size).1 + 10.0 else 0.0
    else 15.0
  }

  lemma ImageAdvanceNonNegative(s: Setup, dataUrl: Option<string>)
    requires Roomy(s.size)
    ensures ImageAdvance(s, dataUrl) >= 0.0
  {
  }

  /** Where the text starts below a heading, the title lines and the
      illustration slot. */
  function TextStart(s: Setup, titleLines: seq<string>, dataUrl: Option<string>): real {
    TopY + 10.0 + 6.0 * (|titleLines| as real) + 10.0 + ImageAdvance(s, dataUrl)
  }

  /** Where the text of a chapter titled `title` starts on its first page. */
  function BodyStart(s: Setup, title: string, dataUrl: Option<string>): real {
    TextStart(s, ChapterTitleLines(s, title), dataUrl)
  }

  /** The chapter's text without its header line, split into lines. */
  function BodyLines(s: Setup, chapter: string): seq<string> {
    s.split(StripHeader(chapter), s.size.width * 0.8)
  }

  /** Where the next body line would go, and how many page breaks were
      taken, after `n` lines starting at height `y0`. */
  function Flow(y0: real, n: nat, bottom: real): (real, nat) {
    if n == 0 then (y0, 0)
    else
      var (y, breaks) := Flow(y0, n - 1, bottom);
      (FlowStep(y, bottom).0, breaks + FlowStep(y, bottom).1)
  }

  /** One body line placed at height `y`: where the next one goes, and
      whether a page break came first. */
  function FlowStep(y: real, bottom: real): (real, nat) {
    if y > bottom then (TopY + 5.0, 1) else (y + 5.0, 0)
  }

  /** The body lines with their pages, the first drawn at height `y0` on
      page `first`: line k lands on the page reached after the breaks taken
      up to and including it. */
  function FlowLines(lines: seq<string>, y0: real, bottom: real, first: nat): (r: seq<(string, nat)>)
    ensures |r| == |lines|
    ensures forall k :: 0 <= k < |lines| ==> r[k] == (lines[k], first + Flow(y0, k + 1, bottom).1)
  {
    seq(|lines|, k requires 0 <= k < |lines| => (lines[k], first + Flow(y0, k + 1, bottom).1))
  }

  /** The pages a chapter with these title and text lines takes. */
  function PagesFor(s: Setup, titleLines: seq<string>, bodyLines: seq<string>, dataUrl: Option<string>): nat {
    1 + Flow(TextStart(s, titleLines, dataUrl), |bodyLines|, Bottom(s.size)).1
  }

  function ChapterPages(s: Setup, chapter: string, i: nat, dataUrl: Option<string>): nat {
    PagesFor(s, ChapterTitleLines(s, PdfChapterTitle(chapter, i)), BodyLines(s, chapter), dataUrl)
  }

  /** The number of pages each chapter takes, in order. */
  function PageCounts(s: Setup, chapters: seq<string>, dataUrls: seq<Option<string>>): (r: seq<nat>)
    ensures |r| == |chapters|
    ensures forall j :: 0 <= j < |chapters| ==> r[j] == ChapterPages(s, chapters[j], j, ItemAt(dataUrls, j)) >= 1
  {
    seq(|chapters|, j requires 0 <= j < |chapters| => ChapterPages(s, chapters[j], j, ItemAt(dataUrls, j)))
  }

  /** The page chapter `i` starts on, after the title page, the table of
      contents and chapters taking counts[0], ..., counts[i-1] pages;
      StartPage(counts, |counts|) is one past the last page. */
  function StartPage(counts: seq<nat>, i: nat): nat
    requires i <= |counts|
  {
    if i == 0 then 3 else StartPage(counts, i - 1) + counts[i - 1]
  }

  /** A placeholder line stands in for a non-empty entry that is not a data
      URL. */
  predicate NeedsPlaceholder(dataUrl: Option<string>) {
    Truthy(dataUrl) && !StartsWith(dataUrl.value, "data:")
  }

  function EmbeddedPicture(s: Setup, dataUrl: Option<string>, page: nat): seq<(string, nat)> {
    if Embeds(s, dataUrl) then [(dataUrl.value, page)] else []
  }

  function PlaceholderPage(dataUrl: Option<string>, page: nat): seq<nat> {
    if NeedsPlaceholder(dataUrl) then [page] else []
  }

  /** The body lines of a chapter starting on page `first`, with their pages. */
  function ChapterBody(s: Setup, chapter: string, i: nat, dataUrl: Option<string>, first: nat): seq<(string, nat)> {
    FlowLines(BodyLines(s, chapter), BodyStart(s, PdfChapterTitle(chapter, i), dataUrl), Bottom(s.size), first)
  }

  /** The contents `c` followed by chapter `i`, drawn from page `first`: its
      heading and title lines on that page, then its picture or placeholder
      there, then its text flowing over the pages that follow. */
  function ChapterContents(c: Contents, s: Setup, chapter: string, i: nat, dataUrl: Option<string>, first: nat)
    : Contents
  {
    LaidOutContents(c, s, ChapterTitleLines(s, PdfChapterTitle(chapter, i)), BodyLines(s, chapter), i, dataUrl, first)
  }

  /** ChapterContents, given the chapter's wrapped title lines and text lines. */
  function LaidOutContents(c: Contents, s: Setup, titleLines: seq<string>, bodyLines: seq<string>, i: nat,
                           dataUrl: Option<string>, first: nat): Contents
  {
    c.(headings := c.headings + [(i + 1, first)],
       chapterTitles := c.chapterTitles + OnPage(titleLines, first),
       pictures := c.pictures + EmbeddedPicture(s, dataUrl, first),
       placeholders := c.placeholders + PlaceholderPage(dataUrl, first),
       body := c.body + FlowLines(bodyLines, TextStart(s, titleLines, dataUrl), Bottom(s.size), first))
  }

  function ExpectedHeadings(counts: seq<nat>, i: nat): seq<(nat, nat)>
    requires i <= |counts|
  {
    if i == 0 then [] else ExpectedHeadings(counts, i - 1) + [(i, StartPage(counts, i - 1))]
  }

  /** The wrapped title lines of every chapter, in order. */
  function ChapterTitleBlocks(s: Setup, chapters: seq<string>): (r: seq<seq<string>>)
    ensures |r| == |chapters|
    ensures forall k :: 0 <= k < |chapters| ==> r[k] == ChapterTitleLines(s, PdfChapterTitle(chapters[k], k))
  {
    seq(|chapters|, k requires 0 <= k < |chapters| => ChapterTitleLines(s, PdfChapterTitle(chapters[k], k)))
  }

  /** The title lines of the first `i` chapters, each block on the page its
      chapter starts on. */
  function ExpectedChapterTitles(blocks: seq<seq<string>>, counts: seq<nat>, i: nat): seq<(string, nat)>
    requires i <= |blocks| && i <= |counts|
  {
    if i == 0 then [] else ExpectedChapterTitles(blocks, counts, i - 1) + OnPage(blocks[i - 1], StartPage(counts, i - 1))
  }

  function ExpectedPictures(s: Setup, dataUrls: seq<Option<string>>, counts: seq<nat>, i: nat): seq<(string, nat)>
    requires i <= |counts|
  {
    if i == 0 then []
    else ExpectedPictures(s, dataUrls, counts, i - 1)
         + EmbeddedPicture(s, ItemAt(dataUrls, i - 1), StartPage(counts, i - 1))
  }

  function ExpectedPlaceholders(dataUrls: seq<Option<string>>, counts: seq<nat>, i: nat): seq<nat>
    requires i <= |counts|
  {
    if i == 0 then []
    else ExpectedPlaceholders(dataUrls, counts, i - 1) + PlaceholderPage(ItemAt(dataUrls, i - 1), StartPage(counts, i - 1))
  }

  function ExpectedBody(s: Setup, chapters: seq<string>, dataUrls: seq<Option<string>>, counts: seq<nat>, i: nat)
    : seq<(string, nat)>
    requires i <= |chapters| && i <= |counts|
  {
    if i == 0 then []
    else ExpectedBody(s, chapters, dataUrls, counts, i - 1)
         + ChapterBody(s, chapters[i - 1], i - 1, ItemAt(dataUrls, i - 1), StartPage(counts, i - 1))
  }

  /** The rows of the table of contents, all on `page`: the truncated
      "Chapter n: title" line and the page label n+2. */
  function TocRows(s: Setup, titles: seq<string>, page: nat): seq<(string, string, nat)>
    requires forall i :: 0 <= i < |titles| ==> TocFits(s, i, titles[i])
  {
    seq(|titles|, i requires 0 <= i < |titles| => TocRowFor(s, i, titles[i], page))
  }

  function TocRowFor(s: Setup, i: nat, title: string, page: nat): (string, string, nat)
    requires TocFits(s, i, title)
  {
    (DisplayTitle(TocLine(i, title), s.measure, s.size.width * 0.7), TocPageLabel(i), page)
  }

  /** The truncation loop for this row ends. */
  predicate TocFits(s: Setup, i: nat, title: string) {
    (s.measure(TocFontSize, TocLine(i, title)) > s.size.width * 0.7)
      ==> Truncatable(TocLine(i, title), s.measure, s.size.width * 0.7)
  }

  // ---------------------------------------------------------------------------
  // Drawing
  // ---------------------------------------------------------------------------

  /** Draws a mark that is neither a page number nor a body line. */
  method DrawMark(pdf: PdfDocument, m: Mark, pageNumber: nat, bottom: real)
    requires !m.Footer? && !m.BodyLine?
    requires Drawing(pdf.marks, pageNumber, bottom)
    modifies pdf
    ensures pdf.page == old(pdf.page)
    ensures Drawing(pdf.marks, pageNumber, bottom)
    ensures ContentsOf(pdf.marks) == Add(old(ContentsOf(pdf.marks)), Placed(pdf.page, m))
    ensures pdf.marks == old(pdf.marks) + [Placed(pdf.page, m)]
  {
    DrawEffects(pdf.marks, Placed(pdf.page, m), bottom);
    pdf.Draw(m);
  }

  /** `addPageNumber`: the number goes at the foot of the current page. */
  method AddPageNumber(pdf: PdfDocument, pageNumber: nat, size: PageSize) returns (next: nat)
    requires pageNumber == pdf.page && Drawing(pdf.marks, pageNumber, Bottom(size))
    modifies pdf
    ensures pdf.page == old(pdf.page) && next == pageNumber + 1
    ensures Drawing(pdf.marks, next, Bottom(size))
    ensures ContentsOf(pdf.marks) == old(ContentsOf(pdf.marks))
  {
    DrawEffects(pdf.marks, Placed(pdf.page, Footer(pageNumber, size.height - 10.0)), Bottom(size));
    pdf.Draw(Footer(pageNumber, size.height - 10.0));
    next := pageNumber + 1;
  }

  /** One line of the wrapped title, on the current page. */
  method DrawTitleLine(pdf: PdfDocument, line: string, y: real, pageNumber: nat, bottom: real)
    requires Drawing(pdf.marks, pageNumber, bottom)
    modifies pdf
    ensures pdf.page == old(pdf.page)
    ensures Drawing(pdf.marks, pageNumber, bottom)
    ensures ContentsOf(pdf.marks) == old(ContentsOf(pdf.marks)).(
      titles := old(ContentsOf(pdf.marks)).titles + [(line, pdf.page)])
    ensures pdf.marks == old(pdf.marks) + [Placed(pdf.page, TitleLine(line, y))]
  {
    DrawMark(pdf, TitleLine(line, y), pageNumber, bottom);
  }

  /** The subtitle under the title, on the current page. */
  method DrawSubtitle(pdf: PdfDocument, text: string, y: real, pageNumber: nat, bottom: real)
    requires Drawing(pdf.marks, pageNumber, bottom)
    modifies pdf
    ensures pdf.page == old(pdf.page)
    ensures Drawing(pdf.marks, pageNumber, bottom)
    ensures ContentsOf(pdf.marks) == old(ContentsOf(pdf.marks)).(
      subtitles := old(ContentsOf(pdf.marks)).subtitles + [(text, pdf.page)])
    ensures pdf.marks == old(pdf.marks) + [Placed(pdf.page, Subtitle(text, y))]
  {
    DrawMark(pdf, Subtitle(text, y), pageNumber, bottom);
  }

  /** Title lines drawn on `page` from `y0` down, 12 mm apart. */
  function TitleLineMarks(titleLines: seq<string>, y0: real, page: nat): (r: seq<Placed>)
    ensures |r| == |titleLines|
    ensures forall k :: 0 <= k < |titleLines| ==>
      r[k] == Placed(page, TitleLine(titleLines[k], y0 + 12.0 * (k as real)))
  {
    seq(|titleLines|, k requires 0 <= k < |titleLines| =>
          Placed(page, TitleLine(titleLines[k], y0 + 12.0 * (k as real))))
  }

  /** The title page's marks on `page`: the title lines from 35% of the page
      height down, 12 mm apart, then "A <story type>" 20 mm below where a
      further title line would go. */
  function TitlePageMarks(titleLines: seq<string>, storyTypeName: string, height: real, page: nat): (r: seq<Placed>)
    ensures |r| == |titleLines| + 1
    ensures forall k :: 0 <= k < |titleLines| ==>
      r[k] == Placed(page, TitleLine(titleLines[k], height * 0.35 + 12.0 * (k as real)))
    ensures r[|titleLines|]
         == Placed(page, Subtitle("A " + storyTypeName, height * 0.35 + 12.0 * (|titleLines| as real) + 20.0))
  {
    TitleLineMarks(titleLines, height * 0.35, page)
      + [Placed(page, Subtitle("A " + storyTypeName, height * 0.35 + 12.0 * (|titleLines| as real) + 20.0))]
  }

  /** The lines of the wrapped title from `y0` down, 12 mm apart, on the
      current page; returns where a further line would go. */
  method DrawTitleLines(pdf: PdfDocument, titleLines: seq<string>, y0: real, pageNumber: nat, bottom: real)
    returns (y: real)
    requires Drawing(pdf.marks, pageNumber, bottom)
    modifies pdf
    ensures pdf.page == old(pdf.page)
    ensures y == y0 + 12.0 * (|titleLines| as real)
    ensures Drawing(pdf.marks, pageNumber, bottom)
    ensures ContentsOf(pdf.marks) == old(ContentsOf(pdf.marks)).(
      titles := old(ContentsOf(pdf.marks)).titles + OnPage(titleLines, pdf.page))
    ensures pdf.marks == old(pdf.marks) + TitleLineMarks(titleLines, y0, pdf.page)
  {
    y := y0;
    ghost var before := ContentsOf(pdf.marks);
    ghost var placed := OnPage(titleLines, pdf.page);
    ghost var drawn := TitleLineMarks(titleLines, y0, pdf.page);
    for k := 0 to |titleLines|
      invariant pdf.page == old(pdf.page)
      invariant y == y0 + 12.0 * (k as real)
      invariant Drawing(pdf.marks, pageNumber, bottom)
      invariant ContentsOf(pdf.marks) == before.(titles := before.titles + placed[..k])
      invariant pdf.marks == old(pdf.marks) + drawn[..k]
    {
      DrawTitleLine(pdf, titleLines[k], y, pageNumber, bottom);
      AppendNext(before.titles, placed, k);
      AppendNext(old(pdf.marks), drawn, k);
      y := y + 12.0;
    }
    assert placed[..|titleLines|] == placed;
    assert drawn[..|titleLines|] == drawn;
  }

  /** The title page without its number: the lines of the wrapped title
      from 35% of the page height down, 12 mm apart, then "A <story type>"
      20 mm further down, all on the current page. */
  method DrawTitlePage(pdf: PdfDocument, s: Setup, titleLines: seq<string>, storyTypeName: string, pageNumber: nat)
    requires Drawing(pdf.marks, pageNumber, Bottom(s.size))
    modifies pdf
    ensures pdf.page == old(pdf.page)
    ensures Drawing(pdf.marks, pageNumber, Bottom(s.size))
    ensures ContentsOf(pdf.marks) == old(ContentsOf(pdf.marks)).(
      titles := old(ContentsOf(pdf.marks)).titles + OnPage(titleLines, pdf.page),
      subtitles := old(ContentsOf(pdf.marks)).subtitles + [("A " + storyTypeName, pdf.page)])
    ensures pdf.marks == old(pdf.marks) + TitlePageMarks(titleLines, storyTypeName, s.size.height, pdf.page)
  {
    var titleY := DrawTitleLines(pdf, titleLines, s.size.height * 0.35, pageNumber, Bottom(s.size));
    DrawSubtitle(pdf, "A " + storyTypeName, titleY + 20.0, pageNumber, Bottom(s.size));
  }

  /** The table of contents without its page number: the heading, then one
      row per chapter, 8 mm apart, from 50 mm down, all on the current page. */
  method DrawToc(pdf: PdfDocument, s: Setup, titles: seq<string>, pageNumber: nat)
    requires forall i :: 0 <= i < |titles| ==> TocFits(s, i, titles[i])
    requires Drawing(pdf.marks, pageNumber, Bottom(s.size))
    modifies pdf
    ensures pdf.page == old(pdf.page)
    ensures Drawing(pdf.marks, pageNumber, Bottom(s.size))
    ensures ContentsOf(pdf.marks) == old(ContentsOf(pdf.marks)).(
      tocHeadings := old(ContentsOf(pdf.marks)).tocHeadings + [pdf.page],
      rows := old(ContentsOf(pdf.marks)).rows + TocRows(s, titles, pdf.page))
  {
    DrawTocHeading(pdf, pageNumber, Bottom(s.size));
    ghost var before := ContentsOf(pdf.marks);
    ghost var rows := TocRows(s, titles, pdf.page);
    var tocY := 50.0;
    for index := 0 to |titles|
      invariant pdf.page == old(pdf.page)
      invariant Drawing(pdf.marks, pageNumber, Bottom(s.size))
      invariant ContentsOf(pdf.marks) == before.(rows := before.rows + rows[..index])
    {
      DrawTocRow(pdf, s, index, titles[index], tocY, pageNumber);
      AppendNext(before.rows, rows, index);
      tocY := tocY + 8.0;
    }
    assert rows[..|titles|] == rows;
  }

  /** The "Table of Contents" heading, on the current page. */
  method DrawTocHeading(pdf: PdfDocument, pageNumber: nat, bottom: real)
    requires Drawing(pdf.marks, pageNumber, bottom)
    modifies pdf
    ensures pdf.page == old(pdf.page)
    ensures Drawing(pdf.marks, pageNumber, bottom)
    ensures ContentsOf(pdf.marks) == old(ContentsOf(pdf.marks)).(
      tocHeadings := old(ContentsOf(pdf.marks)).tocHeadings + [pdf.page])
  {
    DrawMark(pdf, TocHeading(30.0), pageNumber, bottom);
  }

  /** One table-of-contents row: "Chapter n: title", cut down to fit 70% of
      the page width, with its page label. */
  method DrawTocRow(pdf: PdfDocument, s: Setup, index: nat, title: string, tocY: real, pageNumber: nat)
    requires TocFits(s, index, title)
    requires Drawing(pdf.marks, pageNumber, Bottom(s.size))
    modifies pdf
    ensures pdf.page == old(pdf.page)
    ensures Drawing(pdf.marks, pageNumber, Bottom(s.size))
    ensures ContentsOf(pdf.marks) == old(ContentsOf(pdf.marks)).(rows := old(ContentsOf(pdf.marks)).rows
              + [TocRowFor(s, index, title, pdf.page)])
  {
    var chapterLine := TocLine(index, title);
    var pageNum := TocPageLabel(index);
    var displayTitle := TruncateTocLine(chapterLine, s.measure, s.size.width * 0.7);
    assert TocRowFor(s, index, title, pdf.page) == (displayTitle, pageNum, pdf.page);
    DrawMark(pdf, TocRow(displayTitle, pageNum, tocY), pageNumber, Bottom(s.size));
  }

  /** The loop over the chapter's text lines: a line that would start below
      the bottom margin first closes the page (with its number) and opens a
      new one. */
  method FlowBody(pdf: PdfDocument, size: PageSize, lines: seq<string>, y0: real, pageNumber0: nat)
    returns (y: real, pageNumber: nat)
    requires Roomy(size) && TopY <= y0
    requires pageNumber0 == pdf.page && Drawing(pdf.marks, pageNumber0, Bottom(size))
    modifies pdf
    ensures y == Flow(y0, |lines|, Bottom(size)).0
    ensures pdf.page == old(pdf.page) + Flow(y0, |lines|, Bottom(size)).1
    ensures pageNumber == pdf.page && Drawing(pdf.marks, pageNumber, Bottom(size))
    ensures ContentsOf(pdf.marks) == old(ContentsOf(pdf.marks)).(
      body := old(ContentsOf(pdf.marks)).body + FlowLines(lines, y0, Bottom(size), old(pdf.page)))
  {
    y := y0;
    pageNumber := pageNumber0;
    ghost var before := ContentsOf(pdf.marks);
    ghost var first := pdf.page;
    for k := 0 to |lines|
      invariant y == Flow(y0, k, Bottom(size)).0 && TopY <= y
      invariant pdf.page == first + Flow(y0, k, Bottom(size)).1
      invariant pageNumber == pdf.page && Drawing(pdf.marks, pageNumber, Bottom(size))
      invariant ContentsOf(pdf.marks) == before.(body := before.body + FlowLines(lines, y0, Bottom(size), first)[..k])
    {
      y, pageNumber := PlaceNextBodyLine(pdf, size, lines, k, y0, first, before, y, pageNumber);
    }
    assert FlowLines(lines, y0, Bottom(size), first)[..|lines|] == FlowLines(lines, y0, Bottom(size), first);
  }

  /** The body of FlowBody's loop: line k placed where lines 0, ..., k-1
      left off. */
  method PlaceNextBodyLine(pdf: PdfDocument, size: PageSize, lines: seq<string>, k: nat, y0: real,
                           ghost first: nat, ghost before: Contents, y1: real, pageNumber0: nat)
    returns (y: real, pageNumber: nat)
    requires Roomy(size) && k < |lines|
    requires y1 == Flow(y0, k, Bottom(size)).0 && TopY <= y1
    requires pdf.page == first + Flow(y0, k, Bottom(size)).1
    requires pageNumber0 == pdf.page && Drawing(pdf.marks, pageNumber0, Bottom(size))
    requires ContentsOf(pdf.marks) == before.(body := before.body + FlowLines(lines, y0, Bottom(size), first)[..k])
    modifies pdf
    ensures y == Flow(y0, k + 1, Bottom(size)).0 && TopY <= y
    ensures pdf.page == first + Flow(y0, k + 1, Bottom(size)).1
    ensures pageNumber == pdf.page && Drawing(pdf.marks, pageNumber, Bottom(size))
    ensures ContentsOf(pdf.marks) == before.(body := before.body + FlowLines(lines, y0, Bottom(size), first)[..k + 1])
  {
    ghost var placed := FlowLines(lines, y0, Bottom(size), first);
    y, pageNumber := PlaceBodyLine(pdf, size, lines[k], y1, pageNumber0);
    assert placed[k] == (lines[k], pdf.page);
    AppendNext(before.body, placed, k);
  }

  /** One line of chapter text, on a new page when it would start below the
      bottom margin. */
  method PlaceBodyLine(pdf: PdfDocument, size: PageSize, line: string, y0: real, pageNumber0: nat)
    returns (y: real, pageNumber: nat)
    requires Roomy(size) && TopY <= y0
    requires pageNumber0 == pdf.page && Drawing(pdf.marks, pageNumber0, Bottom(size))
    modifies pdf
    ensures y == FlowStep(y0, Bottom(size)).0 && TopY <= y
    ensures pdf.page == old(pdf.page) + FlowStep(y0, Bottom(size)).1
    ensures pageNumber == pdf.page && Drawing(pdf.marks, pageNumber, Bottom(size))
    ensures ContentsOf(pdf.marks) == old(ContentsOf(pdf.marks)).(
      body := old(ContentsOf(pdf.marks)).body + [(line, pdf.page)])
  {
    y := y0;
    pageNumber := pageNumber0;
    if y > Bottom(size) {
      pageNumber := AddPageNumber(pdf, pageNumber, size);
      pdf.AddPage();
      y := TopY;
    }
    DrawEffects(pdf.marks, Placed(pdf.page, BodyLine(line, y)), Bottom(size));
    pdf.Draw(BodyLine(line, y));
    y := y + 5.0;
  }

  /** The illustration slot, on the current page: a picture for a data URL
      jsPDF accepts (nothing when it refuses one), a placeholder line for any
      other non-empty entry, nothing for an empty one. */
  method DrawIllustration(pdf: PdfDocument, s: Setup, dataUrl: Option<string>, y0: real, pageNumber: nat)
    returns (y: real)
    requires Drawing(pdf.marks, pageNumber, Bottom(s.size))
    modifies pdf
    ensures pdf.page == old(pdf.page) && y == y0 + ImageAdvance(s, dataUrl)
    ensures Drawing(pdf.marks, pageNumber, Bottom(s.size))
    ensures ContentsOf(pdf.marks) == old(ContentsOf(pdf.marks)).(
      pictures := old(ContentsOf(pdf.marks)).pictures + EmbeddedPicture(s, dataUrl, pdf.page),
      placeholders := old(ContentsOf(pdf.marks)).placeholders + PlaceholderPage(dataUrl, pdf.page))
  {
    y := y0;
    if Truthy(dataUrl) {
      if StartsWith(dataUrl.value, "data:") {
        var (imgWidth, imgHeight) := PictureSize(s.orientation, s.size);
        var xPos := (s.size.width - imgWidth) / 2.0;
        if s.accepts(dataUrl.value) {
          DrawMark(pdf, Picture(dataUrl.value, xPos, y, imgWidth, imgHeight), pageNumber, Bottom(s.size));
          y := y + imgHeight + 10.0;
        }
      } else {
        DrawMark(pdf, Placeholder(y), pageNumber, Bottom(s.size));
        y := y + 15.0;
      }
    }
  }

  /** "Chapter n" at the top of the current page. */
  method DrawChapterHeading(pdf: PdfDocument, chapter: nat, y: real, pageNumber: nat, bottom: real)
    requires Drawing(pdf.marks, pageNumber, bottom)
    modifies pdf
    ensures pdf.page == old(pdf.page)
    ensures Drawing(pdf.marks, pageNumber, bottom)
    ensures ContentsOf(pdf.marks) == old(ContentsOf(pdf.marks)).(
      headings := old(ContentsOf(pdf.marks)).headings + [(chapter, pdf.page)])
    ensures pdf.marks == old(pdf.marks) + [Placed(pdf.page, ChapterHeading(chapter, y))]
  {
    DrawMark(pdf, ChapterHeading(chapter, y), pageNumber, bottom);
  }

  /** One line of a wrapped chapter title, on the current page. */
  method DrawChapterTitleLine(pdf: PdfDocument, line: string, y: real, pageNumber: nat, bottom: real)
    requires Drawing(pdf.marks, pageNumber, bottom)
    modifies pdf
    ensures pdf.page == old(pdf.page)
    ensures Drawing(pdf.marks, pageNumber, bottom)
    ensures ContentsOf(pdf.marks) == old(ContentsOf(pdf.marks)).(
      chapterTitles := old(ContentsOf(pdf.marks)).chapterTitles + [(line, pdf.page)])
    ensures pdf.marks == old(pdf.marks) + [Placed(pdf.page, ChapterTitleLine(line, y))]
  {
    DrawMark(pdf, ChapterTitleLine(line, y), pageNumber, bottom);
  }

  /** The marks opening chapter i+1 on `page`: the heading at the top margin,
      then the lines of the wrapped title from 10 mm below it, 6 mm apart. */
  function ChapterOpeningMarks(lines: seq<string>, i: nat, page: nat): (r: seq<Placed>)
    ensures |r| == |lines| + 1
    ensures r[0] == Placed(page, ChapterHeading(i + 1, TopY))
    ensures forall k :: 0 <= k < |lines| ==>
      r[k + 1] == Placed(page, ChapterTitleLine(lines[k], TopY + 10.0 + 6.0 * (k as real)))
  {
    [Placed(page, ChapterHeading(i + 1, TopY))]
      + seq(|lines|, k requires 0 <= k < |lines| =>
              Placed(page, ChapterTitleLine(lines[k], TopY + 10.0 + 6.0 * (k as real))))
  }

  /** The top of a chapter's first page: "Chapter n" and the lines of the
      wrapped chapter title, 6 mm apart, all on the current page; returns
      where the illustration goes. */
  method DrawChapterOpening(pdf: PdfDocument, s: Setup, chapterTitleLines: seq<string>, i: nat, pageNumber: nat)
    returns (y: real)
    requires Drawing(pdf.marks, pageNumber, Bottom(s.size))
    modifies pdf
    ensures pdf.page == old(pdf.page)
    ensures y == TopY + 10.0 + 6.0 * (|chapterTitleLines| as real) + 10.0
    ensures Drawing(pdf.marks, pageNumber, Bottom(s.size))
    ensures ContentsOf(pdf.marks) == old(ContentsOf(pdf.marks)).(
      headings := old(ContentsOf(pdf.marks)).headings + [(i + 1, pdf.page)],
      chapterTitles := old(ContentsOf(pdf.marks)).chapterTitles + OnPage(chapterTitleLines, pdf.page))
    ensures pdf.marks == old(pdf.marks) + ChapterOpeningMarks(chapterTitleLines, i, pdf.page)
  {
    ghost var drawn := ChapterOpeningMarks(chapterTitleLines, i, pdf.page);
    y := TopY;
    DrawChapterHeading(pdf, i + 1, y, pageNumber, Bottom(s.size));
    y := y + 10.0;
    ghost var afterHeading := ContentsOf(pdf.marks);
    ghost var placed := OnPage(chapterTitleLines, pdf.page);
    for k := 0 to |chapterTitleLines|
      invariant pdf.page == old(pdf.page)
      invariant y == TopY + 10.0 + 6.0 * (k as real)
      invariant Drawing(pdf.marks, pageNumber, Bottom(s.size))
      invariant ContentsOf(pdf.marks) == afterHeading.(chapterTitles := afterHeading.chapterTitles + placed[..k])
      invariant pdf.marks == old(pdf.marks) + drawn[..k + 1]
    {
      DrawChapterTitleLine(pdf, chapterTitleLines[k], y, pageNumber, Bottom(s.size));
      AppendNext(afterHeading.chapterTitles, placed, k);
      AppendNext(old(pdf.marks), drawn, k + 1);
      y := y + 6.0;
    }
    assert placed[..|chapterTitleLines|] == placed;
    assert drawn[..|chapterTitleLines| + 1] == drawn;
    y := y + 10.0;
  }

  /** The first page of a chapter up to its text: heading, title lines and
      illustration; returns where the text starts. */
  method DrawChapterTop(pdf: PdfDocument, s: Setup, chapterTitleLines: seq<string>, i: nat, dataUrl: Option<string>,
                        pageNumber: nat)
    returns (y: real)
    requires Roomy(s.size)
    requires Drawing(pdf.marks, pageNumber, Bottom(s.size))
    modifies pdf
    ensures pdf.page == old(pdf.page)
    ensures y == TextStart(s, chapterTitleLines, dataUrl) && TopY <= y
    ensures Drawing(pdf.marks, pageNumber, Bottom(s.size))
    ensures ContentsOf(pdf.marks) == old(ContentsOf(pdf.marks)).(
      headings := old(ContentsOf(pdf.marks)).headings + [(i + 1, pdf.page)],
      chapterTitles := old(ContentsOf(pdf.marks)).chapterTitles + OnPage(chapterTitleLines, pdf.page),
      pictures := old(ContentsOf(pdf.marks)).pictures + EmbeddedPicture(s, dataUrl, pdf.page),
      placeholders := old(ContentsOf(pdf.marks)).placeholders + PlaceholderPage(dataUrl, pdf.page))
  {
    y := DrawChapterOpening(pdf, s, chapterTitleLines, i, pageNumber);
    y := DrawIllustration(pdf, s, dataUrl, y, pageNumber);
    ImageAdvanceNonNegative(s, dataUrl);
  }

  /** One chapter laid out from its title and text lines, from a fresh page
      to the number on its last page. */
  method DrawChapter(pdf: PdfDocument, s: Setup, chapterTitleLines: seq<string>, lines: seq<string>, i: nat,
                     dataUrl: Option<string>, pageNumber0: nat)
    returns (pageNumber: nat)
    requires Roomy(s.size)
    requires pageNumber0 == pdf.page + 1 && Drawing(pdf.marks, pageNumber0, Bottom(s.size))
    modifies pdf
    ensures pdf.page == old(pdf.page) + PagesFor(s, chapterTitleLines, lines, dataUrl)
    ensures pageNumber == pdf.page + 1 && Drawing(pdf.marks, pageNumber, Bottom(s.size))
    ensures ContentsOf(pdf.marks)
         == LaidOutContents(old(ContentsOf(pdf.marks)), s, chapterTitleLines, lines, i, dataUrl, old(pdf.page) + 1)
  {
    pdf.AddPage();
    var yPosition := DrawChapterTop(pdf, s, chapterTitleLines, i, dataUrl, pageNumber0);
    yPosition, pageNumber := FlowBody(pdf, s.size, lines, yPosition, pageNumber0);
    pageNumber := AddPageNumber(pdf, pageNumber, s.size);
  }

  /** One chapter: its title wrapped, its text without the header line
      split into lines, then drawn from a fresh page. */
  method RenderChapter(pdf: PdfDocument, s: Setup, chapter: string, i: nat, dataUrl: Option<string>, pageNumber0: nat)
    returns (pageNumber: nat)
    requires Roomy(s.size)
    requires pageNumber0 == pdf.page + 1 && Drawing(pdf.marks, pageNumber0, Bottom(s.size))
    modifies pdf
    ensures pdf.page == old(pdf.page) + ChapterPages(s, chapter, i, dataUrl)
    ensures pageNumber == pdf.page + 1 && Drawing(pdf.marks, pageNumber, Bottom(s.size))
    ensures ContentsOf(pdf.marks) == ChapterContents(old(ContentsOf(pdf.marks)), s, chapter, i, dataUrl, old(pdf.page) + 1)
  {
    var chapterTitleLines := WrapTitle(PdfChapterTitle(chapter, i), ChapterTitleLineLimit, ChapterTitleFontSize,
                                       s.measure, s.size.width * 0.8);
    assert chapterTitleLines == ChapterTitleLines(s, PdfChapterTitle(chapter, i));
    var lines := BodyLines(s, chapter);
    pageNumber := DrawChapter(pdf, s, chapterTitleLines, lines, i, dataUrl, pageNumber0);
  }

  /** The chapter titles the PDF uses, in order. */
  function ChapterTitles(chapters: seq<string>): (r: seq<string>)
    ensures |r| == |chapters|
    ensures forall i :: 0 <= i < |chapters| ==> r[i] == PdfChapterTitle(chapters[i], i)
  {
    seq(|chapters|, i requires 0 <= i < |chapters| => PdfChapterTitle(chapters[i], i))
  }

  /** What the title page and the table of contents show: the wrapped title
      and the story type on page 1, the heading and rows of the table of
      contents on page 2. */
  function FrontContents(s: Setup, title: string, storyTypeName: string, chapters: seq<string>): Contents
    requires forall i :: 0 <= i < |chapters| ==> TocFits(s, i, PdfChapterTitle(chapters[i], i))
  {
    NoContents.(
      titles := OnPage(WrapLines(title, TitleLineLimit, DefaultFontSize, s.measure, s.size.width * 0.8), 1),
      subtitles := [("A " + storyTypeName, 1)],
      tocHeadings := [2],
      rows := TocRows(s, ChapterTitles(chapters), 2))
  }

  /** The title page, with its number. */
  method RenderTitlePage(pdf: PdfDocument, s: Setup, title: string, storyTypeName: string)
    requires pdf.page == 1 && pdf.marks == []
    modifies pdf
    ensures pdf.page == 1 && Drawing(pdf.marks, 2, Bottom(s.size))
    ensures ContentsOf(pdf.marks) == NoContents.(
      titles := OnPage(WrapLines(title, TitleLineLimit, DefaultFontSize, s.measure, s.size.width * 0.8), 1),
      subtitles := [("A " + storyTypeName, 1)])
  {
    var pageNumber := 1;
    var titleLines := WrapTitle(title, TitleLineLimit, DefaultFontSize, s.measure, s.size.width * 0.8);
    DrawTitlePage(pdf, s, titleLines, storyTypeName, pageNumber);
    pageNumber := AddPageNumber(pdf, pageNumber, s.size);
  }

  /** The title page and the table of contents, each with its number. */
  method RenderFront(pdf: PdfDocument, s: Setup, title: string, storyTypeName: string, chapters: seq<string>)
    returns (pageNumber: nat)
    requires forall i :: 0 <= i < |chapters| ==> TocFits(s, i, PdfChapterTitle(chapters[i], i))
    requires pdf.page == 1 && pdf.marks == []
    modifies pdf
    ensures pdf.page == 2 && pageNumber == 3 && Drawing(pdf.marks, pageNumber, Bottom(s.size))
    ensures ContentsOf(pdf.marks) == FrontContents(s, title, storyTypeName, chapters)
  {
    RenderTitlePage(pdf, s, title, storyTypeName);
    pageNumber := 2;
    var chapterTitles := ChapterTitles(chapters);
    pdf.AddPage();
    DrawToc(pdf, s, chapterTitles, pageNumber);
    pageNumber := AddPageNumber(pdf, pageNumber, s.size);
  }

  /** The chapter loop, from the page after the table of contents. */
  method RenderChapters(pdf: PdfDocument, s: Setup, chapters: seq<string>, dataUrls: seq<Option<string>>, pageNumber0: nat)
    returns (pageNumber: nat)
    requires Roomy(s.size)
    requires pdf.page == 2 && pageNumber0 == 3 && Drawing(pdf.marks, pageNumber0, Bottom(s.size))
    requires ContentsOf(pdf.marks).headings == [] && ContentsOf(pdf.marks).chapterTitles == []
    requires ContentsOf(pdf.marks).pictures == [] && ContentsOf(pdf.marks).placeholders == []
    requires ContentsOf(pdf.marks).body == []
    modifies pdf
    ensures pdf.page == StartPage(PageCounts(s, chapters, dataUrls), |chapters|) - 1
    ensures pageNumber == pdf.page + 1 && Drawing(pdf.marks, pageNumber, Bottom(s.size))
    ensures var counts := PageCounts(s, chapters, dataUrls);
      ContentsOf(pdf.marks) == old(ContentsOf(pdf.marks)).(
        headings := ExpectedHeadings(counts, |chapters|),
        chapterTitles := ExpectedChapterTitles(ChapterTitleBlocks(s, chapters), counts, |chapters|),
        pictures := ExpectedPictures(s, dataUrls, counts, |chapters|),
        placeholders := ExpectedPlaceholders(dataUrls, counts, |chapters|),
        body := ExpectedBody(s, chapters, dataUrls, counts, |chapters|))
  {
    pageNumber := pageNumber0;
    ghost var front := ContentsOf(pdf.marks);
    ghost var counts := PageCounts(s, chapters, dataUrls);
    for i := 0 to |chapters|
      invariant pdf.page == StartPage(counts, i) - 1
      invariant pageNumber == pdf.page + 1 && Drawing(pdf.marks, pageNumber, Bottom(s.size))
      invariant ContentsOf(pdf.marks) == front.(headings := ExpectedHeadings(counts, i),
                                                chapterTitles := ExpectedChapterTitles(ChapterTitleBlocks(s, chapters), counts, i),
                                                pictures := ExpectedPictures(s, dataUrls, counts, i),
                                                placeholders := ExpectedPlaceholders(dataUrls, counts, i),
                                                body := ExpectedBody(s, chapters, dataUrls, counts, i))
    {
      ghost var start := pdf.page + 1;
      pageNumber := RenderChapter(pdf, s, chapters[i], i, ItemAt(dataUrls, i), pageNumber);
      assert pdf.page == start - 1 + counts[i];
      assert start == StartPage(counts, i);
    }
  }

  /** The pages of the PDF: the title page, the table of contents and every
      chapter, into a new document. */
  method RenderStory(pdf: PdfDocument, s: Setup, title: string, storyTypeName: string, chapters: seq<string>,
                     dataUrls: seq<Option<string>>)
    requires Roomy(s.size)
    requires forall i :: 0 <= i < |chapters| ==> TocFits(s, i, PdfChapterTitle(chapters[i], i))
    requires pdf.page == 1 && pdf.marks == []
    modifies pdf
    ensures pdf.page == StartPage(PageCounts(s, chapters, dataUrls), |chapters|) - 1
    ensures Drawing(pdf.marks, pdf.page + 1, Bottom(s.size))
    ensures var counts := PageCounts(s, chapters, dataUrls);
            var n := |chapters|;
      ContentsOf(pdf.marks) == FrontContents(s, title, storyTypeName, chapters).(
        headings := ExpectedHeadings(counts, n),
        chapterTitles := ExpectedChapterTitles(ChapterTitleBlocks(s, chapters), counts, n),
        pictures := ExpectedPictures(s, dataUrls, counts, n),
        placeholders := ExpectedPlaceholders(dataUrls, counts, n),
        body := ExpectedBody(s, chapters, dataUrls, counts, n))
  {
    var pageNumber := RenderFront(pdf, s, title, storyTypeName, chapters);
    pageNumber := RenderChapters(pdf, s, chapters, dataUrls, pageNumber);
  }

  /** The PDF branch of the download: the images are turned into data URLs
      first, then the title page, the table of contents and every chapter
      are drawn; saving the file is not modelled. */
  method RenderPdf(p: StoryParameters, story: Story, measure: Measure, split: (string, real) -> seq<string>,
                   accepts: string -> bool, load: (nat, string) -> Option<string>)
    returns (pdf: PdfDocument, s: Setup, imageDataUrls: seq<Option<string>>)
    requires var s0 := Setup(PageSizeFor(p.pdfPageSize), p.imageOrientation, measure, split, accepts);
      forall i :: 0 <= i < |story.chapters| ==> TocFits(s0, i, PdfChapterTitle(story.chapters[i], i))
    ensures s == Setup(PageSizeFor(p.pdfPageSize), p.imageOrientation, measure, split, accepts)
    ensures |imageDataUrls| == |story.images|
    ensures forall k :: 0 <= k < |story.images| ==>
      imageDataUrls[k] == (if Truthy(story.images[k]) then load(k, story.images[k].value) else None)
    ensures pdf.page == StartPage(PageCounts(s, story.chapters, imageDataUrls), |story.chapters|) - 1
    ensures FooterNumbers(pdf.marks) == UpTo(pdf.page) && FootersOnOwnPage(pdf.marks)
    ensures BodyWithin(pdf.marks, Bottom(s.size))
    ensures var counts := PageCounts(s, story.chapters, imageDataUrls);
            var n := |story.chapters|;
      ContentsOf(pdf.marks) == FrontContents(s, DocumentTitle(p), StoryTypeName(p.storyType), story.chapters).(
        headings := ExpectedHeadings(counts, n),
        chapterTitles := ExpectedChapterTitles(ChapterTitleBlocks(s, story.chapters), counts, n),
        pictures := ExpectedPictures(s, imageDataUrls, counts, n),
        placeholders := ExpectedPlaceholders(imageDataUrls, counts, n),
        body := ExpectedBody(s, story.chapters, imageDataUrls, counts, n))
  {
    var size := PageSizeFor(p.pdfPageSize);
    s := Setup(size, p.imageOrientation, measure, split, accepts);
    PageSizesLeaveRoom(p.pdfPageSize);
    pdf := new PdfDocument();
    imageDataUrls := PreloadImages(story.images, load);
    RenderStory(pdf, s, DocumentTitle(p), StoryTypeName(p.storyType), story.chapters, imageDataUrls);
  }

  // ---------------------------------------------------------------------------
  // Properties of the layout
  // ---------------------------------------------------------------------------

  /** Lines that all start above the bottom margin need no page break. */
  lemma {:induction false} FlowWithoutBreaks(y0: real, n: nat, bottom: real)
    requires n > 0 ==> y0 + 5.0 * ((n - 1) as real) <= bottom
    ensures Flow(y0, n, bottom) == (y0 + 5.0 * (n as real), 0)
  {
    if n > 0 {
      FlowWithoutBreaks(y0, n - 1, bottom);
    }
  }

  /** A page break comes before a line, so there are at most as many breaks
      as lines. */
  lemma {:induction false} FlowBreaksAtMostLines(y0: real, n: nat, bottom: real)
    ensures Flow(y0, n, bottom).1 <= n
  {
    if n > 0 {
      FlowBreaksAtMostLines(y0, n - 1, bottom);
    }
  }

  /** The table of contents prints page i+3 for chapter i.  Chapter i
      starts on that page exactly when none of the chapters before it
      spilled onto a second page; otherwise it starts later. */
  lemma {:induction false} TocLabelExactIffNoOverflow(counts: seq<nat>, i: nat)
    requires i <= |counts|
    requires forall j :: 0 <= j < |counts| ==> counts[j] >= 1
    ensures StartPage(counts, i) >= i + 3
    ensures StartPage(counts, i) == i + 3 <==> forall j :: 0 <= j < i ==> counts[j] == 1
  {
    if i > 0 {
      TocLabelExactIffNoOverflow(counts, i - 1);
    }
  }

  /** Chapter headings appear in order, chapter k+1's on the page StartPage
      gives for it. */
  lemma {:induction false} HeadingsInOrder(counts: seq<nat>, i: nat)
    requires i <= |counts|
    ensures |ExpectedHeadings(counts, i)| == i
    ensures forall k :: 0 <= k < i ==> ExpectedHeadings(counts, i)[k] == (k + 1, StartPage(counts, k))
  {
    if i > 0 {
      HeadingsInOrder(counts, i - 1);
    }
  }

  /** Every chapter takes at least one page, so each starts on a later page
      than the one before it. */
  lemma {:induction false} StartPagesIncrease(counts: seq<nat>, i: nat, j: nat)
    requires i < j <= |counts|
    requires forall k :: 0 <= k < |counts| ==> counts[k] >= 1
    ensures StartPage(counts, i) < StartPage(counts, j)
    decreases j
  {
    if j > i + 1 {
      StartPagesIncrease(counts, i, j - 1);
    }
  }

  /** Page breaks only accumulate as lines are placed. */
  lemma {:induction false} FlowBreaksGrow(y0: real, m: nat, n: nat, bottom: real)
    requires m <= n
    ensures Flow(y0, m, bottom).1 <= Flow(y0, n, bottom).1
    decreases n
  {
    if m < n {
      FlowBreaksGrow(y0, m, n - 1, bottom);
    }
  }

  /** The text lines go on pages in drawing order, from the first page on,
      never skipping a page, and none after the page the flow ends on. */
  lemma FlowPagesInOrder(lines: seq<string>, y0: real, bottom: real, first: nat, j: nat, k: nat)
    requires j <= k < |lines|
    ensures var r := FlowLines(lines, y0, bottom, first);
      && first <= r[j].1 <= r[k].1 <= first + Flow(y0, |lines|, bottom).1
      && (k == j + 1 ==> r[k].1 <= r[j].1 + 1)
  {
    FlowBreaksGrow(y0, j + 1, k + 1, bottom);
    FlowBreaksGrow(y0, k + 1, |lines|, bottom);
  }

  /** A chapter's text lines lie on the pages the chapter takes: from the
      page it starts on to the last one counted for it. */
  lemma ChapterBodyOnItsPages(s: Setup, chapter: string, i: nat, dataUrl: Option<string>, first: nat, k: nat)
    requires k < |ChapterBody(s, chapter, i, dataUrl, first)|
    ensures first <= ChapterBody(s, chapter, i, dataUrl, first)[k].1 < first + ChapterPages(s, chapter, i, dataUrl)
  {
    var lines := BodyLines(s, chapter);
    FlowPagesInOrder(lines, BodyStart(s, PdfChapterTitle(chapter, i), dataUrl), Bottom(s.size), first, k, k);
  }

  lemma OnPageMembers(lines: seq<string>, page: nat, t: string, pg: nat)
    ensures (t, pg) in OnPage(lines, page) <==> t in lines && pg == page
  {
    if t in lines && pg == page {
      var k :| 0 <= k < |lines| && lines[k] == t;
      assert OnPage(lines, page)[k] == (t, pg);
    }
  }

  /** The placeholder appears exactly on the first pages of the chapters
      whose entry is non-empty and not a data URL. */
  lemma {:induction false} PlaceholdersAtChapterStarts(dataUrls: seq<Option<string>>, counts: seq<nat>, n: nat, pg: nat)
    requires n <= |counts|
    ensures pg in ExpectedPlaceholders(dataUrls, counts, n)
        <==> exists k :: 0 <= k < n && NeedsPlaceholder(ItemAt(dataUrls, k)) && pg == StartPage(counts, k)
  {
    if n > 0 {
      PlaceholdersAtChapterStarts(dataUrls, counts, n - 1, pg);
    }
  }

  /** Pictures appear exactly on the first pages of the chapters whose data
      URL jsPDF embeds, and show that data URL. */
  lemma {:induction false} PicturesAtChapterStarts(s: Setup, dataUrls: seq<Option<string>>, counts: seq<nat>, n: nat,
                                                   u: string, pg: nat)
    requires n <= |counts|
    ensures (u, pg) in ExpectedPictures(s, dataUrls, counts, n)
        <==> exists k :: 0 <= k < n && Embeds(s, ItemAt(dataUrls, k)) && u == ItemAt(dataUrls, k).value
                         && pg == StartPage(counts, k)
  {
    if n > 0 {
      PicturesAtChapterStarts(s, dataUrls, counts, n - 1, u, pg);
    }
  }

  /** The chapter-title lines shown on a page are those of the chapter that
      starts there, and every line of every chapter's wrapped title is shown
      on that chapter's first page (the blocks are given by
      ChapterTitleBlocks). */
  lemma {:induction false} ChapterTitlesAtChapterStarts(blocks: seq<seq<string>>, counts: seq<nat>, n: nat,
                                                        t: string, pg: nat)
    requires n <= |blocks| && n <= |counts|
    ensures (t, pg) in ExpectedChapterTitles(blocks, counts, n)
        <==> exists k :: 0 <= k < n && t in blocks[k] && pg == StartPage(counts, k)
  {
    if n > 0 {
      ChapterTitlesAtChapterStarts(blocks, counts, n - 1, t, pg);
      OnPageMembers(blocks[n - 1], StartPage(counts, n - 1), t, pg);
    }
  }

  /** A chapter with no data URL (the story has no image for it, or the
      loader could not read it) shows neither a picture nor the placeholder
      on its first page. */
  lemma UnloadedImageLeavesNoTrace(s: Setup, dataUrls: seq<Option<string>>, counts: seq<nat>, n: nat, k: nat)
    requires k < n <= |counts|
    requires forall j :: 0 <= j < |counts| ==> counts[j] >= 1
    requires !Truthy(ItemAt(dataUrls, k))
    ensures StartPage(counts, k) !in ExpectedPlaceholders(dataUrls, counts, n)
    ensures forall u :: (u, StartPage(counts, k)) !in ExpectedPictures(s, dataUrls, counts, n)
  {
    var pg := StartPage(counts, k);
    PlaceholdersAtChapterStarts(dataUrls, counts, n, pg);
    if pg in ExpectedPlaceholders(dataUrls, counts, n) {
      var j :| 0 <= j < n && NeedsPlaceholder(ItemAt(dataUrls, j)) && pg == StartPage(counts, j);
      DistinctStartPages(counts, j, k);
    }
    forall u | true
      ensures (u, pg) !in ExpectedPictures(s, dataUrls, counts, n)
    {
      PicturesAtChapterStarts(s, dataUrls, counts, n, u, pg);
      if (u, pg) in ExpectedPictures(s, dataUrls, counts, n) {
        var j :| 0 <= j < n && Embeds(s, ItemAt(dataUrls, j)) && u == ItemAt(dataUrls, j).value
                 && pg == StartPage(counts, j);
        DistinctStartPages(counts, j, k);
      }
    }
  }

  lemma DistinctStartPages(counts: seq<nat>, j: nat, k: nat)
    requires j <= |counts| && k <= |counts| && j != k
    requires forall i :: 0 <= i < |counts| ==> counts[i] >= 1
    ensures StartPage(counts, j) != StartPage(counts, k)
  {
    if j < k {
      StartPagesIncrease(counts, j, k);
    } else {
      StartPagesIncrease(counts, k, j);
    }
  }
}
