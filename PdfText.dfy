// The text-shaping parts of the PDF export: the page-size table, the chapter
// title the PDF falls back to, the greedy title wrapper used for the title page
// (24 characters) and for chapter titles (30 characters), the ellipsis
// truncation of table-of-contents lines, the preloading of illustrations and
// the size of an embedded picture.
//
// jsPDF's text measurement is a parameter: `Measure(size, text)` is the width
// in millimetres of `text` at font size `size`, whatever font metrics the
// library uses.

module PdfText {
  import opened Wrappers
  import opened JsText
  import opened Markers

  datatype PageSize = PageSize(width: real, height: real)

  type Measure = (nat, string) -> real

  /** The font size jsPDF starts with; the title page is wrapped before any
      size is set, so it is measured at this size. */
  const DefaultFontSize: nat := 16
  const ChapterTitleFontSize: nat := 14
  const TocFontSize: nat := 12

  const TitleLineLimit: nat := 24
  const ChapterTitleLineLimit: nat := 30

  /** The top margin of every chapter and continuation page. */
  const TopY: real := 25.0

  /** `pageSizes[name] || pageSizes.letter`. */
  function PageSizeFor(name: string): (s: PageSize)
    ensures s == PageSize(215.9, 279.4) || s == PageSize(210.0, 297.0) || s == PageSize(148.0, 210.0)
    ensures name == "a4" ==> s == PageSize(210.0, 297.0)
    ensures name == "a5" ==> s == PageSize(148.0, 210.0)
    ensures name != "a4" && name != "a5" ==> s == PageSize(215.9, 279.4)
  {
    if name == "a4" then PageSize(210.0, 297.0)
    else if name == "a5" then PageSize(148.0, 210.0)
    else PageSize(215.9, 279.4)
  }

  /** On every page size a continuation page has room below the top margin:
      the bottom margin lies under the first body line and the footer under
      the bottom margin. */
  lemma PageSizesLeaveRoom(name: string)
    ensures var s := PageSizeFor(name);
      TopY + 5.0 <= s.height - 20.0 < s.height - 10.0 < s.height
  {
  }

  /** The chapter title the PDF uses: the header's title, or "Chapter n". */
  function PdfChapterTitle(chapter: string, i: nat): (t: string)
    ensures t != ""
    ensures '\n' !in t || HeaderTitle(chapter).None?
  {
    match HeaderTitle(chapter)
    case Some(t) => t
    case None => "Chapter " + NatToString(i + 1)
  }

  /** The PDF and the text and HTML exports agree on a chapter's title when
      it has a header line; without one the PDF shows "Chapter n" and the
      other two an empty title. */
  lemma ChapterTitleAcrossFormats(chapter: string, i: nat)
    ensures HeaderTitle(chapter).Some? ==> PdfChapterTitle(chapter, i) == HeaderTitleOrEmpty(chapter)
    ensures HeaderTitle(chapter).None? ==>
      PdfChapterTitle(chapter, i) == "Chapter " + NatToString(i + 1) && HeaderTitleOrEmpty(chapter) == ""
  {
  }

  // ---------------------------------------------------------------------------
  // Greedy word wrapping
  // ---------------------------------------------------------------------------

  /** The wrapper's state between words: the finished lines and the line
      being filled. */
  datatype WrapState = WrapState(lines: seq<string>, current: string)

  /** The words of a line fit when the line is at most `limit` characters and
      at most `maxWidth` wide. */
  predicate Fits(line: string, limit: nat, size: nat, measure: Measure, maxWidth: real) {
    |line| <= limit && measure(size, line) <= maxWidth
  }

  /** One word: append it to the current line if the result fits; otherwise
      close the current line and start a new one with the word, or, when
      there is no current line, emit the word's first `limit` characters and
      keep the rest. */
  function WrapStep(st: WrapState, word: string, limit: nat, size: nat, measure: Measure, maxWidth: real)
    : WrapState
  {
    var test := st.current + (if st.current != "" then " " else "") + word;
    if !Fits(test, limit, size, measure, maxWidth) then
      if st.current != "" then WrapState(st.lines + [st.current], word)
      else WrapState(st.lines + [Prefix(word, limit)], Suffix(word, limit))
    else WrapState(st.lines, test)
  }

  function WrapWords(words: seq<string>, limit: nat, size: nat, measure: Measure, maxWidth: real): WrapState {
    if words == [] then WrapState([], "")
    else WrapStep(WrapWords(words[..|words| - 1], limit, size, measure, maxWidth), words[|words| - 1],
                  limit, size, measure, maxWidth)
  }

  /** The lines a title is wrapped into. */
  function WrapLines(title: string, limit: nat, size: nat, measure: Measure, maxWidth: real): seq<string> {
    var st := WrapWords(SplitOnSpace(title), limit, size, measure, maxWidth);
    if st.current != "" then st.lines + [st.current] else st.lines
  }

  /** The wrapping loop over `title.split(' ')`. */
  method WrapTitle(title: string, limit: nat, size: nat, measure: Measure, maxWidth: real)
    returns (lines: seq<string>)
    ensures lines == WrapLines(title, limit, size, measure, maxWidth)
  {
    var words := SplitOnSpace(title);
    lines := [];
    var current := "";
    for k := 0 to |words|
      invariant WrapState(lines, current) == WrapWords(words[..k], limit, size, measure, maxWidth)
    {
      assert words[..k + 1][..k] == words[..k];
      var word := words[k];
      var testLine := current + (if current != "" then " " else "") + word;
      if |testLine| > limit || measure(size, testLine) > maxWidth {
        if current != "" {
          lines := lines + [current];
          current := word;
        } else {
          lines := lines + [Prefix(word, limit)];
          current := Suffix(word, limit);
        }
      } else {
        current := testLine;
      }
    }
    assert words[..|words|] == words;
    if current != "" {
      lines := lines + [current];
    }
  }

  /** The non-space characters of the wrapper's state. */
  function Text(st: WrapState): string {
    RemoveSpaces(Concat(st.lines) + st.current)
  }

  lemma {:induction false} ConcatSnoc(parts: seq<string>, x: string)
    ensures Concat(parts + [x]) == Concat(parts) + x
  {
    if parts != [] {
      assert (parts + [x])[1..] == parts[1..] + [x];
      ConcatSnoc(parts[1..], x);
    } else {
      assert [] + [x] == [x];
    }
  }

  lemma AppendWordText(c: string, word: string)
    requires ' ' !in word
    ensures RemoveSpaces(c + word) == RemoveSpaces(c) + word
  {
    RemoveSpacesNoSpace(word);
    RemoveSpacesAppend(c, word);
  }

  lemma JoinWordText(c: string, current: string, word: string)
    requires ' ' !in word
    ensures RemoveSpaces(c + (current + (if current != "" then " " else "") + word))
         == RemoveSpaces(c + current) + word
  {
    if current != "" {
      AppendAssoc(c, current + " ", word);
      AppendAssoc(c, current, " ");
      AppendWordText((c + current) + " ", word);
      RemoveSpacesAppend(c + current, " ");
      assert RemoveSpaces(" ") == "";
    } else {
      assert c + (current + "" + word) == c + word;
      assert c + current == c;
      AppendWordText(c, word);
    }
  }

  lemma CloseLineText(lines: seq<string>, current: string, word: string)
    requires ' ' !in word
    ensures RemoveSpaces(Concat(lines + [current]) + word) == RemoveSpaces(Concat(lines) + current) + word
  {
    ConcatSnoc(lines, current);
    AppendWordText(Concat(lines) + current, word);
  }

  lemma SplitWordText(lines: seq<string>, word: string, limit: nat)
    requires ' ' !in word
    ensures RemoveSpaces(Concat(lines + [Prefix(word, limit)]) + Suffix(word, limit))
         == RemoveSpaces(Concat(lines) + "") + word
  {
    var c := Concat(lines);
    ConcatSnoc(lines, Prefix(word, limit));
    PrefixSuffix(word, limit);
    AppendAssoc(c, Prefix(word, limit), Suffix(word, limit));
    assert c + "" == c;
    AppendWordText(c, word);
  }

  lemma WrapStepText(st: WrapState, word: string, limit: nat, size: nat, measure: Measure, maxWidth: real)
    requires ' ' !in word
    ensures Text(WrapStep(st, word, limit, size, measure, maxWidth)) == Text(st) + word
  {
    var test := st.current + (if st.current != "" then " " else "") + word;
    var next := WrapStep(st, word, limit, size, measure, maxWidth);
    if !Fits(test, limit, size, measure, maxWidth) {
      if st.current != "" {
        assert next == WrapState(st.lines + [st.current], word);
        CloseLineText(st.lines, st.current, word);
      } else {
        assert next == WrapState(st.lines + [Prefix(word, limit)], Suffix(word, limit));
        SplitWordText(st.lines, word, limit);
      }
    } else {
      assert next == WrapState(st.lines, test);
      JoinWordText(Concat(st.lines), st.current, word);
    }
  }

  lemma {:induction false} WrapWordsText(words: seq<string>, limit: nat, size: nat, measure: Measure, maxWidth: real)
    requires forall k :: 0 <= k < |words| ==> ' ' !in words[k]
    ensures Text(WrapWords(words, limit, size, measure, maxWidth)) == Concat(words)
  {
    if words != [] {
      var init := words[..|words| - 1];
      WrapWordsText(init, limit, size, measure, maxWidth);
      WrapStepText(WrapWords(init, limit, size, measure, maxWidth), words[|words| - 1], limit, size, measure, maxWidth);
      assert words == init + [words[|words| - 1]];
      ConcatSnoc(init, words[|words| - 1]);
    } else {
      assert Concat([]) + "" == "";
    }
  }

  /** Wrapping loses no character of the title except the spaces it breaks at. */
  lemma WrapKeepsText(title: string, limit: nat, size: nat, measure: Measure, maxWidth: real)
    ensures RemoveSpaces(Concat(WrapLines(title, limit, size, measure, maxWidth))) == RemoveSpaces(title)
  {
    var st := WrapWords(SplitOnSpace(title), limit, size, measure, maxWidth);
    WrapWordsText(SplitOnSpace(title), limit, size, measure, maxWidth);
    SplitKeepsCharacters(title);
    if st.current != "" {
      ConcatSnoc(st.lines, st.current);
    } else {
      assert Concat(st.lines) + st.current == Concat(st.lines);
    }
  }

  /** Lines that join several words respect both the character limit and the
      width limit. */
  ghost predicate JoinedLinesFit(st: WrapState, limit: nat, size: nat, measure: Measure, maxWidth: real) {
    && (' ' in st.current ==> Fits(st.current, limit, size, measure, maxWidth))
    && forall k :: 0 <= k < |st.lines| ==> ' ' in st.lines[k] ==> Fits(st.lines[k], limit, size, measure, maxWidth)
  }

  lemma {:induction false} WrapWordsJoinedFit(words: seq<string>, limit: nat, size: nat, measure: Measure, maxWidth: real)
    requires forall k :: 0 <= k < |words| ==> ' ' !in words[k]
    ensures JoinedLinesFit(WrapWords(words, limit, size, measure, maxWidth), limit, size, measure, maxWidth)
  {
    if words != [] {
      var init := words[..|words| - 1];
      var word := words[|words| - 1];
      WrapWordsJoinedFit(init, limit, size, measure, maxWidth);
      var st := WrapWords(init, limit, size, measure, maxWidth);
      var next := WrapStep(st, word, limit, size, measure, maxWidth);
      if st.current == "" && !Fits(word, limit, size, measure, maxWidth) {
        assert st.current + "" + word == word;
        assert ' ' !in Prefix(word, limit) by {
          assert forall k :: 0 <= k < |Prefix(word, limit)| ==> Prefix(word, limit)[k] == word[k];
        }
        assert ' ' !in Suffix(word, limit) by {
          assert forall k :: 0 <= k < |Suffix(word, limit)| ==> Suffix(word, limit)[k] == word[limit + k];
        }
      }
      assert JoinedLinesFit(next, limit, size, measure, maxWidth);
    }
  }

  /** Every wrapped line that contains a space (that is, joins words) is at
      most `limit` characters and at most `maxWidth` wide. */
  lemma WrapJoinedLinesFit(title: string, limit: nat, size: nat, measure: Measure, maxWidth: real)
    ensures var lines := WrapLines(title, limit, size, measure, maxWidth);
      forall k :: 0 <= k < |lines| ==> ' ' in lines[k] ==>
        |lines[k]| <= limit && measure(size, lines[k]) <= maxWidth
  {
    WrapWordsJoinedFit(SplitOnSpace(title), limit, size, measure, maxWidth);
  }

  lemma {:induction false} WrapWordsShort(words: seq<string>, limit: nat, size: nat, measure: Measure, maxWidth: real)
    requires forall k :: 0 <= k < |words| ==> |words[k]| <= limit
    ensures var st := WrapWords(words, limit, size, measure, maxWidth);
      |st.current| <= limit && forall k :: 0 <= k < |st.lines| ==> |st.lines[k]| <= limit
  {
    if words != [] {
      WrapWordsShort(words[..|words| - 1], limit, size, measure, maxWidth);
    }
  }

  /** When no word of the title is longer than the limit, no wrapped line is. */
  lemma WrapShortWordsFit(title: string, limit: nat, size: nat, measure: Measure, maxWidth: real)
    requires forall k :: 0 <= k < |SplitOnSpace(title)| ==> |SplitOnSpace(title)[k]| <= limit
    ensures var lines := WrapLines(title, limit, size, measure, maxWidth);
      forall k :: 0 <= k < |lines| ==> |lines[k]| <= limit
  {
    WrapWordsShort(SplitOnSpace(title), limit, size, measure, maxWidth);
  }

  // ---------------------------------------------------------------------------
  // Table-of-contents truncation
  // ---------------------------------------------------------------------------

  /** The first `k` characters of `line`, with an ellipsis, fit the width. */
  predicate FitsWithEllipsis(line: string, k: nat, measure: Measure, maxWidth: real)
    requires k <= |line|
  {
    measure(TocFontSize, line[..k] + "...") <= maxWidth
  }

  /** Some prefix of `line`, with an ellipsis, fits the width; without one the
      truncation loop never ends. */
  predicate Truncatable(line: string, measure: Measure, maxWidth: real) {
    exists k: nat :: k <= |line| && FitsWithEllipsis(line, k, measure, maxWidth)
  }

  /** The longest prefix of at most `k` characters that fits with an ellipsis. */
  function LongestFit(line: string, k: nat, measure: Measure, maxWidth: real): (r: nat)
    requires k <= |line|
    requires exists j: nat :: j <= k && FitsWithEllipsis(line, j, measure, maxWidth)
    ensures r <= k && FitsWithEllipsis(line, r, measure, maxWidth)
    ensures forall j: nat :: r < j <= k ==> !FitsWithEllipsis(line, j, measure, maxWidth)
    decreases k
  {
    if FitsWithEllipsis(line, k, measure, maxWidth) then k
    else
      assert exists j: nat :: j <= k - 1 && FitsWithEllipsis(line, j, measure, maxWidth);
      LongestFit(line, k - 1, measure, maxWidth)
  }

  /** The text a table-of-contents line is drawn with: the line itself when it
      fits, otherwise its longest prefix that fits with "..." appended. */
  function DisplayTitle(line: string, measure: Measure, maxWidth: real): (r: string)
    requires measure(TocFontSize, line) > maxWidth ==> Truncatable(line, measure, maxWidth)
    ensures measure(TocFontSize, line) <= maxWidth ==> r == line
    ensures measure(TocFontSize, line) > maxWidth ==>
      measure(TocFontSize, r) <= maxWidth && exists k: nat :: k <= |line| && r == line[..k] + "..."
  {
    if measure(TocFontSize, line) > maxWidth then line[..LongestFit(line, |line|, measure, maxWidth)] + "..."
    else line
  }

  /** The truncation loop: drop the last character until the text and an
      ellipsis fit, then append the ellipsis. */
  method TruncateTocLine(chapterLine: string, measure: Measure, maxWidth: real) returns (displayTitle: string)
    requires measure(TocFontSize, chapterLine) > maxWidth ==> Truncatable(chapterLine, measure, maxWidth)
    ensures displayTitle == DisplayTitle(chapterLine, measure, maxWidth)
  {
    displayTitle := chapterLine;
    if measure(TocFontSize, chapterLine) > maxWidth {
      while measure(TocFontSize, displayTitle + "...") > maxWidth
        invariant |displayTitle| <= |chapterLine| && displayTitle == chapterLine[..|displayTitle|]
        invariant forall j: nat :: |displayTitle| < j <= |chapterLine| ==>
          !FitsWithEllipsis(chapterLine, j, measure, maxWidth)
        invariant exists j: nat :: j <= |displayTitle| && FitsWithEllipsis(chapterLine, j, measure, maxWidth)
        decreases |displayTitle|
      {
        assert !FitsWithEllipsis(chapterLine, |displayTitle|, measure, maxWidth);
        displayTitle := displayTitle[..|displayTitle| - 1];
      }
      assert FitsWithEllipsis(chapterLine, |displayTitle|, measure, maxWidth);
      displayTitle := displayTitle + "...";
    }
  }

  /** The table-of-contents line before truncation. */
  function TocLine(i: nat, title: string): string {
    "Chapter " + NatToString(i + 1) + ": " + title
  }

  /** The page number the table of contents prints for chapter `i`. */
  function TocPageLabel(i: nat): string {
    NatToString(i + 3)
  }

  // ---------------------------------------------------------------------------
  // Illustrations
  // ---------------------------------------------------------------------------

  /** The preload loop: each truthy image URL is handed to the loader (which
      yields a data URL or null, and is assumed not to reject; see the notes
      on what is left out), every other entry stays null. */
  method PreloadImages(images: seq<Option<string>>, load: (nat, string) -> Option<string>)
    returns (imageDataUrls: seq<Option<string>>)
    ensures |imageDataUrls| == |images|
    ensures forall k :: 0 <= k < |images| ==>
      imageDataUrls[k] == (if Truthy(images[k]) then load(k, images[k].value) else None)
  {
    imageDataUrls := [];
    for i := 0 to |images|
      invariant |imageDataUrls| == i
      invariant forall k :: 0 <= k < i ==>
        imageDataUrls[k] == (if Truthy(images[k]) then load(k, images[k].value) else None)
    {
      if Truthy(images[i]) {
        var dataUrl := load(i, images[i].value);
        imageDataUrls := imageDataUrls + [dataUrl];
      } else {
        imageDataUrls := imageDataUrls + [None];
      }
    }
  }

  /** The width and height of an embedded picture: 16:9 across 80% of the
      page in landscape, otherwise a square of 70% of that width, capped at
      40% of the page height. */
  function PictureSize(orientation: string, s: PageSize): (r: (real, real))
  {
    var maxImgWidth := s.width * 0.8;
    var maxImgHeight := s.height * 0.4;
    if orientation == "landscape" then (maxImgWidth, maxImgWidth * (9.0 / 16.0))
    else
      var w := if maxImgWidth * 0.7 < maxImgHeight then maxImgWidth * 0.7 else maxImgHeight;
      (w, w)
  }

  /** On every supported page size a picture is centred within the 10%
      side margins and is no taller than 40% of the page. */
  lemma PictureFitsPage(orientation: string, name: string)
    ensures var s := PageSizeFor(name);
            var (w, h) := PictureSize(orientation, s);
      && 0.0 < w <= s.width * 0.8
      && 0.0 < h <= s.height * 0.4
      && (s.width - w) / 2.0 >= s.width * 0.1
  {
  }
}
