// The plain-text export: the title underlined with '=', a table of contents
// with one "Chapter n: title" line per chapter, a rule of fifty '-', then the
// whole story text.

module PlainText {
  import opened Wrappers
  import opened JsText
  import opened Markers
  import opened StoryData

  const RuleLength: nat := 50

  /** The table-of-contents line for chapter `i` (0-based). */
  function TocEntry(i: nat, chapter: string): string {
    "Chapter " + NatToString(i + 1) + ": " + HeaderTitleOrEmpty(chapter) + "\n"
  }

  /** The table-of-contents lines of the first |chapters| chapters. */
  function TocBlock(chapters: seq<string>): string {
    if chapters == [] then ""
    else TocBlock(chapters[..|chapters| - 1]) + TocEntry(|chapters| - 1, chapters[|chapters| - 1])
  }

  function Heading(title: string): string {
    title + "\n" + Repeat('=', |title|) + "\n\n" + "Table of Contents\n\n"
  }

  function Rule(): string {
    "\n" + Repeat('-', RuleLength) + "\n\n"
  }

  /** The document around a table of contents `toc`. */
  function Frame(title: string, toc: string, story: string): string {
    Heading(title) + toc + Rule() + story
  }

  /** The document the plain-text export builds. */
  function PlainTextDocument(title: string, chapters: seq<string>, story: string): string {
    Frame(title, TocBlock(chapters), story)
  }

  /** The export of the story made from `p`: the content is built by
      appending, one table-of-contents line per chapter. */
  method ExportPlainText(p: StoryParameters, story: Story) returns (content: string)
    ensures content == PlainTextDocument(DocumentTitle(p), story.chapters, story.generatedStory)
  {
    var title := DocumentTitle(p);
    content := title + "\n" + Repeat('=', |title|) + "\n\n";
    content := content + "Table of Contents\n\n";
    var chapters := story.chapters;
    for index := 0 to |chapters|
      invariant content == Heading(title) + TocBlock(chapters[..index])
    {
      var chapterTitle := HeaderTitleOrEmpty(chapters[index]);
      var line := "Chapter " + NatToString(index + 1) + ": " + chapterTitle + "\n";
      TocBlockSnoc(chapters, index);
      AppendAssoc(Heading(title), TocBlock(chapters[..index]), line);
      content := content + line;
    }
    assert chapters[..|chapters|] == chapters;
    content := content + ("\n" + Repeat('-', RuleLength) + "\n\n");
    content := content + story.generatedStory;
  }

  lemma TocBlockSnoc(chapters: seq<string>, index: nat)
    requires index < |chapters|
    ensures TocBlock(chapters[..index + 1]) == TocBlock(chapters[..index]) + TocEntry(index, chapters[index])
  {
    assert chapters[..index + 1][..index] == chapters[..index];
  }

  lemma NoNewlineInNumber(n: nat)
    ensures '\n' !in NatToString(n)
  {
    var s := NatToString(n);
    assert forall k :: 0 <= k < |s| ==> IsDigit(s[k]);
  }

  /** Each chapter contributes exactly one line to the table of contents. */
  lemma {:induction false} TocHasOneLinePerChapter(chapters: seq<string>)
    ensures CountChar(TocBlock(chapters), '\n') == |chapters|
  {
    if chapters != [] {
      var i := |chapters| - 1;
      TocHasOneLinePerChapter(chapters[..i]);
      var t := HeaderTitleOrEmpty(chapters[i]);
      NoNewlineInNumber(i + 1);
      CountCharAppend(TocBlock(chapters[..i]), TocEntry(i, chapters[i]), '\n');
      CountCharAppend("Chapter " + NatToString(i + 1) + ": " + t, "\n", '\n');
      CountCharAppend("Chapter " + NatToString(i + 1) + ": ", t, '\n');
      CountCharAppend("Chapter " + NatToString(i + 1), ": ", '\n');
      CountCharAppend("Chapter ", NatToString(i + 1), '\n');
    }
  }

  /** A chapter that opens with its own "Chapter n: t" header is listed under
      its position (not the number in its header) with the title `t`. */
  lemma TocEntryOfTitledChapter(i: nat, n: nat, t: string, rest: string)
    requires t != "" && '\n' !in t
    ensures TocEntry(i, "Chapter " + NatToString(n) + ": " + t + "\n" + rest)
         == "Chapter " + NatToString(i + 1) + ": " + t + "\n"
  {
    HeaderRoundTrip(n, t, rest);
  }

  /** `doc` opens with `title` on a line of its own, underlined by exactly as
      many '=' as the title has characters. */
  predicate OpensWithUnderlinedTitle(doc: string, title: string) {
    && |title| + 1 + |title| <= |doc|
    && doc[..|title| + 1 + |title|] == title + "\n" + Repeat('=', |title|)
  }

  lemma UnderlinedTitle(title: string, tail: string)
    ensures OpensWithUnderlinedTitle(title + ("\n" + (Repeat('=', |title|) + tail)), title)
  {
    var underline := Repeat('=', |title|);
    AppendAssoc("\n", underline, tail);
    AppendAssoc(title, "\n" + underline, tail);
    AppendAssoc(title, "\n", underline);
    FrontOf(title + "\n" + underline, tail);
  }

  lemma HeadingShape(title: string, rest: string)
    ensures Heading(title) + rest
         == title + ("\n" + (Repeat('=', |title|) + ("\n\n" + ("Table of Contents\n\n" + rest))))
  {
    var underline := Repeat('=', |title|);
    calc {
      Heading(title) + rest;
      (title + "\n" + underline + "\n\n") + "Table of Contents\n\n" + rest;
      { AppendAssoc(title + "\n" + underline + "\n\n", "Table of Contents\n\n", rest); }
      (title + "\n" + underline + "\n\n") + ("Table of Contents\n\n" + rest);
      { AppendAssoc(title + "\n" + underline, "\n\n", "Table of Contents\n\n" + rest); }
      (title + "\n" + underline) + ("\n\n" + ("Table of Contents\n\n" + rest));
      { AppendAssoc(title + "\n", underline, "\n\n" + ("Table of Contents\n\n" + rest)); }
      (title + "\n") + (underline + ("\n\n" + ("Table of Contents\n\n" + rest)));
      { AppendAssoc(title, "\n", underline + ("\n\n" + ("Table of Contents\n\n" + rest))); }
      title + ("\n" + (underline + ("\n\n" + ("Table of Contents\n\n" + rest))));
    }
  }

  /** The document opens with the title on a line of its own, underlined by
      exactly as many '=' as the title has characters. */
  lemma PlainTextOpensWithTitle(title: string, toc: string, story: string)
    ensures OpensWithUnderlinedTitle(Frame(title, toc, story), title)
  {
    var rest := toc + Rule() + story;
    var tail := "\n\n" + ("Table of Contents\n\n" + rest);
    AppendAssoc(Heading(title), toc, Rule());
    AppendAssoc(Heading(title), toc + Rule(), story);
    HeadingShape(title, rest);
    UnderlinedTitle(title, tail);
  }

  /** The document closes with the whole story text. */
  lemma PlainTextClosesWithStory(title: string, toc: string, story: string)
    ensures var doc := Frame(title, toc, story);
      |story| <= |doc| && doc[|doc| - |story|..] == story
  {
    var front := Heading(title) + toc + Rule();
    FrontOf(front, story);
  }

  lemma FrontOf(a: string, b: string)
    ensures (a + b)[..|a|] == a && (a + b)[|a|..] == b
  {
  }
}
