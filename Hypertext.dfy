// The HTML export, as the structure its template fills in: a title page, a
// table of contents with one item per chapter, and one section per chapter
// with its heading, title, optional illustration and text.  The style sheet
// and the fixed markup around these values are not modelled.

module Hypertext {
  import opened Wrappers
  import opened JsText
  import opened Markers
  import opened StoryData

  /** A table-of-contents item: its text and the page number printed beside it. */
  datatype TocItem = TocItem(text: string, page: nat)

  /** A chapter section: "Chapter n", the chapter title, the illustration's
      URL when there is one, the text with line breaks as `<br>`, and the
      printed page number. */
  datatype Section = Section(heading: string, title: string, image: Option<string>, content: string, page: nat)

  datatype HtmlDocument = HtmlDocument(
    pageTitle: string,
    subtitle: string,
    imageMaxWidth: string,
    toc: seq<TocItem>,
    sections: seq<Section>)

  function Item(k: nat, chapter: string): TocItem {
    TocItem("Chapter " + NatToString(k + 1) + ": " + HeaderTitleOrEmpty(chapter), k + 3)
  }

  function ChapterSection(k: nat, chapter: string, images: seq<Option<string>>): Section {
    Section("Chapter " + NatToString(k + 1),
            HeaderTitleOrEmpty(chapter),
            if Truthy(ItemAt(images, k)) then ItemAt(images, k) else None,
            ReplaceNewlines(StripHeader(chapter), "<br>"),
            k + 3)
  }

  /** The document the HTML export fills in for the story made from `p`.  The table of contents and the
      sections run parallel to the chapters: item k and section k both print
      page k+3, item k reads "Chapter k+1: " followed by the title section k
      shows, a section shows an illustration exactly when the story has a
      non-empty image URL for it, and its text is one line of markup. */
  function HtmlExport(p: StoryParameters, story: Story): (d: HtmlDocument)
    ensures |d.toc| == |d.sections| == |story.chapters|
    ensures forall k :: 0 <= k < |d.sections| ==>
      && d.toc[k].page == d.sections[k].page == k + 3
      && d.toc[k].text == d.sections[k].heading + ": " + d.sections[k].title
      && '\n' !in d.sections[k].content
      && (d.sections[k].image.Some? <==> k < |story.images| && Truthy(story.images[k]))
      && (d.sections[k].image.Some? ==> d.sections[k].image == story.images[k])
  {
    HtmlDocument(
      DocumentTitle(p),
      "A " + StoryTypeName(p.storyType),
      if p.imageOrientation == "landscape" then "100%" else "70%",
      seq(|story.chapters|, k requires 0 <= k < |story.chapters| => Item(k, story.chapters[k])),
      seq(|story.chapters|, k requires 0 <= k < |story.chapters| => ChapterSection(k, story.chapters[k], story.images)))
  }

  /** A chapter that opens with its own "Chapter n: t" header line shows `t`
      as its title and only the text after that line as its content. */
  lemma HtmlSectionOfTitledChapter(k: nat, n: nat, t: string, rest: string, images: seq<Option<string>>)
    requires t != "" && '\n' !in t
    ensures var s := ChapterSection(k, "Chapter " + NatToString(n) + ": " + t + "\n" + rest, images);
      s.title == t && s.content == ReplaceNewlines(rest, "<br>")
  {
    HeaderRoundTrip(n, t, rest);
  }
}
