# Storybook Creator: story generation and export, in Dafny

Storybook Creator is a single-page React application. A wizard collects a
story's parameters. The app then asks an OpenAI chat model for the story one
chapter at a time, optionally illustrates each chapter with DALL-E, and
exports the result as a PDF, an HTML page or a plain-text file. This project
models the two functions that hold the application's logic, both in
`src/App.js`:

- `generateStoryInChunks`. It loops over the chapter indices and builds one
  request per chapter, carrying the previous chapter's summary forward. It
  splits the `SUMMARY:` trailer off each reply and, when illustrations are
  on, runs the two-tier image chain. That chain is a scene description, then
  a DALL-E 3 request, then a DALL-E 2 fallback, and it never aborts the
  story. The loop either stores three parallel arrays (chapters, images,
  summaries) or reports the first chapter error. It is modelled in
  `Generation.dfy` as a method proved equal to a recursive reference
  definition, `Run`.
- `downloadStory`, with one module per format:
  - `PdfText.dfy` models the page-size table, the greedy title wrapper (24
    characters for the title page, 30 for chapter titles), the ellipsis
    truncation loop of the table of contents, the image preloading loop
    and the picture size.
  - `PdfPages.dfy` models the jsPDF document as a class with a current page
    and a list of drawn marks. It covers the title page, the table of
    contents, each chapter (heading, wrapped title, illustration or
    placeholder, body text with automatic page breaks) and the page-number
    footers.
  - `Hypertext.dfy` models the structure of the HTML export.
  - `PlainText.dfy` models the plain-text export.

The regular expressions the code relies on are modelled by hand in
`Markers.dfy`:

- `/SUMMARY:\s*(.+)$/` and `/\nSUMMARY:\s*.+$/`, for the summary trailer;
- `/Chapter \d+: ([^\n]+)/` and `/Chapter \d+: [^\n]+\n/`, for the chapter
  header.

Each is the leftmost match, with the greedy quantifiers and JavaScript's `\s`
and `.` semantics. The JavaScript string helpers (`substring` clamping,
`split(' ')`, `join`, `repeat`, `${n}`, `||` on strings) are in `JsText.dfy`.
The wizard state and the story record are in `StoryData.dfy`, and the
`Option` and `Result` types in `Wrappers.dfy`.

The services are parameters:

- The chat and image services are oracle functions from the chapter index
  and the request to the reply, so replies may differ between chapters.
- jsPDF's `getTextWidth` is a measure function.
- `splitTextToSize` is a line-splitting function.
- Whether `addImage` accepts a data URL is a predicate.
- `loadImageAsBase64` is a loader function.

Facts the model makes explicit about the code:

- The PDF table of contents prints page `i+3` for chapter `i`. That number
  is the chapter's real first page exactly when no earlier chapter ran onto
  a second page (`PdfPages.TocLabelExactIffNoOverflow`).
- The title wrapper cuts a word longer than the limit only when that word
  reaches an empty line; an overlong word that comes after a non-empty line
  stays whole on a line of its own. A line is guaranteed to respect the
  character limit when every word does (`PdfText.WrapShortWordsFit`).
- The title page is wrapped while jsPDF is still at its default font size
  of 16, although the title is drawn at 24.
- The PDF shows "Chapter n" for a chapter without a header line. The HTML
  and text exports show an empty title instead.
- A chapter whose image could not be turned into a data URL gets neither a
  picture nor the placeholder line, so nothing on its page says an
  illustration was lost (`PdfPages.UnloadedImageLeavesNoTrace`).

## Model

| member | source | states |
|---|---|---|
| JsText.OrElse | src/App.js:402 | the logical-or of two strings yields the first when it is non-empty and the second otherwise |
| JsText.PrefixSuffix | src/App.js:532-533 | `substring(0, n)` followed by `substring(n)` gives back the whole word, for every n including n past the end |
| JsText.SplitJoinRoundTrip | src/App.js:519 | joining the pieces of `split(' ')` with single spaces restores the string, so no character is lost by splitting |
| JsText.SplitKeepsCharacters | src/App.js:519 | the pieces of `split(' ')` hold every non-space character of the string, in order |
| JsText.NatToStringRoundTrip | src/App.js:572 | the decimal text a template literal gives a number reads back as that number |
| JsText.RepeatContent | src/App.js:849 | `'='.repeat(n)` is n copies of the character |
| JsText.ReplaceNewlines | src/App.js:837 | replacing every newline by `<br>` leaves no newline, and a text without newlines is unchanged |
| Markers.FindSummary | src/App.js:233 | the summary pattern's match is the leftmost position where it matches, and its group starts as late as the greedy `\s*` lets it |
| Markers.SummaryGroup | src/App.js:233 | a captured summary is non-empty and contains no line terminator |
| Markers.StripSummary | src/App.js:238 | removing the trailer keeps a prefix of the reply, and cuts exactly at the leftmost trailer; a reply without a trailer is kept whole |
| Markers.TrailerImpliesSummary | src/App.js:233-238 | whenever the strip pattern would remove a trailer, the summary pattern matches too, so stripping happens only in the branch that found a summary |
| Markers.NoTagNoSummary | src/App.js:233 | a reply without "SUMMARY:" has no summary match |
| Markers.EndsInTerminatorNoSummary | src/App.js:233 | a text ending in a line terminator has no summary match anywhere |
| Markers.SummaryRoundTrip | src/App.js:232-238 | a reply ending in its own "SUMMARY: t" line yields `t` as the summary, and stripping leaves exactly the text before that line |
| Markers.FindHeader | src/App.js:557 | the header match is the leftmost position where `Chapter \d+: ([^\n]+)` matches, with the group running to the end of the line |
| Markers.HeaderTitle | src/App.js:598-599 | a matched chapter title is non-empty and contains no newline |
| Markers.HeaderTitleOrEmpty | src/App.js:853-854 | the title the text and HTML exports show is empty exactly when no header matches, and never contains a newline |
| Markers.StripRemovesTitledHeader | src/App.js:825-827 | the header the title comes from is the header line stripping removes; a header running to the end of the text, or no header, leaves the text unchanged |
| Markers.HeaderRoundTrip | src/App.js:825-827 | a chapter that starts with "Chapter n: t" on its own line shows `t` as its title, and stripping leaves exactly the rest of the chapter |
| StoryData.StoryTypeName | src/App.js:401 | the story type's display name is never empty, and is "Story" exactly when the type is not one of the three known ids |
| StoryData.DocumentTitle | src/App.js:402 | the document title opens with the character's name (the main character when the name is empty), then "'s ", the genre as stored and a space, and ends with the story type's display name |
| Generation.MaxTokens | src/App.js:219 | the token limit is the smaller of 1500 and twice the words per chapter |
| Generation.SplitChapter | src/App.js:232-244 | the stored chapter is a prefix of the reply and the stored summary is never empty |
| Generation.SplitChapterWithTrailer | src/App.js:232-238 | a reply ending in "SUMMARY: t" is stored as the text before that line with summary `t` |
| Generation.SplitChapterWithoutTrailer | src/App.js:233-244 | a reply the summary pattern matches nowhere is stored unchanged with the summary "Chapter n of the story about <name>" |
| Generation.SplitChapterWithoutTag | src/App.js:233-244 | a reply without "SUMMARY:" is one of those: stored unchanged, with the fallback summary |
| Generation.SplitChapterWithTrailerThenNewline | src/App.js:233-244 | a reply whose "SUMMARY: t" line is followed by a final newline is stored unchanged, trailer included, with the fallback summary, because `$` only matches at the end of the input |
| Generation.FetchImage | src/App.js:292-348 | the DALL-E 3 request carries size, quality and the style flag. A DALL-E 2 request (first 400 characters, 1024x1024) follows exactly when the first reply parses but is not ok. A URL is kept only when the last reply carries it, and a DALL-E 3 URL only when it is non-empty |
| Generation.Illustrate | src/App.js:250-352 | no image request and no image when the scene request fails; otherwise the image chain runs on the prompt built from the scene description |
| Generation.PrimaryImageUsed | src/App.js:335-343 | an ok DALL-E 3 reply with a non-empty URL is used as is, with no fallback request |
| Generation.SecondaryImageUsed | src/App.js:309-334 | after a parsable non-ok DALL-E 3 reply, the DALL-E 2 reply's first URL is taken whatever its status |
| Generation.GenerateStoryInChunks | src/App.js:163-376 | the loop's outcome is the reference run: the three arrays and the joined story, or the first chapter error |
| Generation.RunShape | src/App.js:358-366 | a successful run stores one chapter, one image entry and one summary per requested chapter, and the story is the chapters joined by blank lines |
| Generation.RunThreadsSummaries | src/App.js:179-244 | chapter k was requested with the summary stored for chapter k-1 (the first with none), and its text, summary and image are what that reply yields |
| Generation.RunErrorComesFromChapterReply | src/App.js:179-228 | a failed run stopped at some chapter k: chapters 0..k-1 were generated from successful replies, each request carrying the summary the previous chapter left, and the request for chapter k, carrying chapter k-1's summary (none for the first), got an error payload or threw, with the message the run reports |
| Generation.ChaptersFromAt | src/App.js:179-244 | in a batch generated chapter by chapter from chapter i, entry j is chapter i+j, made from the successful reply to the request carrying entry j-1's summary |
| Generation.ImagesNeverAbort | src/App.js:246-355 | neither the image service nor the illustration toggle changes whether a run succeeds, its error, its chapters, its summaries or its story text |
| Generation.NoImagesWhenDisabled | src/App.js:353-354 | with illustrations off every image entry is null |
| PdfText.PageSizeFor | src/App.js:409-415 | "a4" and "a5" select their sizes, and every other name falls back to letter |
| PdfText.PageSizesLeaveRoom | src/App.js:409-415 | on every page size the bottom margin lies below the first body line and above the footer |
| PdfText.PdfChapterTitle | src/App.js:598-599 | the PDF's chapter title is never empty, and a matched title has no newline |
| PdfText.ChapterTitleAcrossFormats | src/App.js:598-599 | the PDF chapter title is the matched header title, as in the text and HTML exports (src/App.js:853-854); without a header it is "Chapter n" where those two show an empty title |
| PdfText.WrapTitle | src/App.js:518-541 | the wrapping loop yields the reference greedy wrap of the title's words |
| PdfText.WrapKeepsText | src/App.js:518-541 | the wrapped lines hold every non-space character of the title, in order |
| PdfText.WrapJoinedLinesFit | src/App.js:524-537 | every wrapped line that joins several words respects both the character limit and the width limit |
| PdfText.WrapShortWordsFit | src/App.js:530-534 | when no word exceeds the character limit, no wrapped line does |
| PdfText.LongestFit | src/App.js:578-580 | the truncation stops at the longest prefix that fits with an ellipsis |
| PdfText.DisplayTitle | src/App.js:574-582 | a line that fits is drawn unchanged; otherwise a prefix of it plus "..." is drawn, and it fits |
| PdfText.TruncateTocLine | src/App.js:576-582 | the truncation loop yields that display text |
| PdfText.PreloadImages | src/App.js:507-516 | one data URL per image entry: the loader's result for a truthy URL, null otherwise |
| PdfText.PictureFitsPage | src/App.js:644-658 | on every page size a picture is centred inside the 10% side margins and is at most 80% wide and 40% tall |
| PdfPages.PdfDocument.constructor | src/App.js:416-422 | a new document is on page 1 with nothing drawn |
| PdfPages.PdfDocument.AddPage | src/App.js:594 | adding a page moves to the next page and draws nothing |
| PdfPages.PdfDocument.Draw | src/App.js:691 | a drawing call lands on the current page, after everything drawn before |
| PdfPages.FootersOnOwnPageMeans | src/App.js:425-429 | every page number is printed on the page it names |
| PdfPages.BodyWithinMeans | src/App.js:681-692 | every body line starts between the top margin and the bottom margin |
| PdfPages.AddPageNumber | src/App.js:425-429 | the footer printed is the current page's number, and the counter moves to the next one |
| PdfPages.DrawTitleLines | src/App.js:543-548 | the wrapped title lines are drawn in order on the current page, line k at 12·k mm below the first, and the next slot is 12 mm below the last |
| PdfPages.DrawTitlePage | src/App.js:543-551 | the title page shows the wrapped title lines in order from 35% of the page height down, 12 mm apart, and "A <story type>" 20 mm below the slot after the last line, all on the current page; the marks drawn are exactly these |
| PdfPages.RenderTitlePage | src/App.js:518-553 | page 1 holds the title wrapped at 24 characters and "A <story type>", and is numbered 1 |
| PdfPages.DrawToc | src/App.js:561-588 | the heading and one row per chapter, in order, all on the current page |
| PdfPages.DrawTocRow | src/App.js:570-585 | a row is "Chapter n: title" cut to 70% of the page width, with the label n+2, on the current page |
| PdfPages.ChapterTitles | src/App.js:556-559 | the titles the table of contents lists are the PDF chapter titles, in order |
| PdfPages.DrawChapterOpening | src/App.js:601-638 | the marks drawn are exactly the heading "Chapter i+1" at the top margin and then the title lines from 10 mm below it, 6 mm apart, all on the current page; the picture slot starts 10 mm below them |
| PdfPages.DrawIllustration | src/App.js:640-673 | on the current page, a data URL jsPDF accepts is embedded and the text moves down by its height plus 10 mm. A refused one adds nothing, any other non-empty entry gets the placeholder line, and an empty one neither |
| PdfPages.DrawChapterTop | src/App.js:601-673 | heading, title lines and picture or placeholder all land on the chapter's first page, and the text starts below them |
| PdfPages.PlaceBodyLine | src/App.js:685-692 | a line that would start below the bottom margin first numbers the page and opens a new one, and the line is recorded on the page it lands on |
| PdfPages.PlaceNextBodyLine | src/App.js:684-693 | text line k lands on the first page plus the breaks the reference pagination takes up to and including it |
| PdfPages.FlowBody | src/App.js:684-693 | every text line is drawn in order, each on the page the reference pagination gives it, and the pages added are the breaks it counts |
| PdfPages.DrawChapter | src/App.js:593-697 | a chapter laid out from its title and text lines opens a new page with its heading, title lines and picture, flows its text from there and takes the pages the pagination counts |
| PdfPages.RenderChapter | src/App.js:593-697 | a chapter drawn from page p: heading, wrapped title lines and picture or placeholder on page p, each text line on its page from p on, numbered on its last page, ChapterPages pages in all |
| PdfPages.RenderFront | src/App.js:518-590 | page 1 holds the wrapped title and "A <story type>", page 2 the contents heading and one row per chapter, each page numbered |
| PdfPages.RenderChapters | src/App.js:592-697 | chapter k's heading, title lines and picture or placeholder are on its start page, its text lines on its own pages, in chapter order |
| PdfPages.RenderStory | src/App.js:518-697 | a new document gets the title page, the table of contents and every chapter, with each mark on the page given above |
| PdfPages.RenderPdf | src/App.js:399-700 | the whole document for the document title: footers read 1..last page, each on its own page; text stays within the margins; title on page 1, contents on page 2, and every chapter's heading, title lines, picture or placeholder and text lines on their pages |
| PdfPages.FlowWithoutBreaks | src/App.js:684-693 | lines that all start above the bottom margin need no page break |
| PdfPages.FlowBreaksAtMostLines | src/App.js:684-693 | there are at most as many page breaks as text lines |
| PdfPages.TocLabelExactIffNoOverflow | src/App.js:570-572 | the table of contents' page label i+3 never exceeds chapter i's first page, and equals it exactly when every earlier chapter fits on one page |
| PdfPages.HeadingsInOrder | src/App.js:593-604 | the k-th heading drawn is "Chapter k+1", on the page where chapter k+1 starts |
| PdfPages.StartPagesIncrease | src/App.js:593-594 | each chapter starts on a later page than the one before it, since every chapter takes at least one page |
| PdfPages.FlowBreaksGrow | src/App.js:684-693 | page breaks only accumulate as lines are placed |
| PdfPages.FlowPagesInOrder | src/App.js:684-693 | text lines go on pages in drawing order, from the first page on, never skipping a page, none after the page the flow ends on |
| PdfPages.ChapterBodyOnItsPages | src/App.js:593-697 | a chapter's text lines lie between its first page and its last counted page |
| PdfPages.ChapterTitlesAtChapterStarts | src/App.js:601-638 | a chapter-title line is on a page exactly when it belongs to the chapter starting there |
| PdfPages.PicturesAtChapterStarts | src/App.js:640-662 | a picture is on a page exactly when the chapter starting there has a data URL jsPDF embeds, and it shows that data URL |
| PdfPages.PlaceholdersAtChapterStarts | src/App.js:663-671 | the placeholder is on a page exactly when the chapter starting there has a non-empty entry that is not a data URL |
| PdfPages.UnloadedImageLeavesNoTrace | src/App.js:640-673 | a chapter with no data URL shows neither a picture nor the placeholder on its first page |
| PlainText.ExportPlainText | src/App.js:848-859 | the text export, for the document title, is the underlined title, one contents line per chapter, a rule and the whole story |
| PlainText.TocHasOneLinePerChapter | src/App.js:852-856 | the table of contents has exactly one line per chapter |
| PlainText.TocEntryOfTitledChapter | src/App.js:852-856 | a chapter with its own header is listed by its position and its title |
| PlainText.PlainTextOpensWithTitle | src/App.js:849 | the file opens with the title underlined by exactly as many '=' as it has characters |
| PlainText.PlainTextClosesWithStory | src/App.js:858-859 | the file ends with the whole story text |
| Hypertext.HtmlExport | src/App.js:781-841 | the table of contents and the chapter sections run parallel to the chapters. Both print page k+3 and agree on the title. A section has an image exactly when the story has a truthy URL for it, and its content has no raw newline |
| Hypertext.HtmlSectionOfTitledChapter | src/App.js:824-837 | a chapter with its own header shows that title, and only the text after the header line as its content |

## Left out

- Network, React state, `alert`, progress messages, `console` logging, `localStorage`, saving stories and file downloads (`pdf.save`, `downloadFile`) are not modelled. The services appear as function parameters, and a run returns its result instead of calling `setStoryData`.
- The prompt texts are modelled only in the parts that vary: chapter number, chapter count, continuity summary, token limit, image prompt and excerpt. Their fixed wording is left out.
- `loadImageAsBase64` (fetch, FileReader and canvas fallbacks) is a loader function that returns a data URL or null. The source returns its promises without awaiting them inside its `try` (src/App.js:439, 449), so a rejection from `FileReader.onerror` (src/App.js:442) or from `toDataURL` in the first canvas attempt (src/App.js:465) escapes the catch at src/App.js:501 and aborts the whole export at the `await` (src/App.js:511). That abort is not modelled.
- jsPDF's drawing is reduced to the marks a reader sees: text, position and page. Fonts, font styles, alignment and image format are left out. `getTextWidth` and `splitTextToSize` are parameters whose internals are not modelled.
- `addImage` throwing is a predicate on the data URL. When it throws, the source's catch leaves the page and the text position unchanged.
- The HTML export is modelled as the values its template fills in. The style sheet, the markup and HTML escaping are left out (the source does not escape either).
- String lengths are counted in Unicode scalar values, not in JavaScript's UTF-16 code units.
- PdfText.TruncateTocLine: requires that some prefix of the line fits with "..." once truncation is needed, because otherwise the source loop never ends (`"".substring(0, -1)` is `""`).
- PdfPages.RenderPdf: requires the same of every table-of-contents line, for the same reason.
- PdfPages.Roomy: the page geometry facts are stated for page sizes with room for one line below the top margin. All three supported sizes have that room (`PdfText.PageSizesLeaveRoom`).
- Generation: a chat reply whose content is not a string, or whose `choices` list is empty, is modelled as a throwing reply. The exact JavaScript error text is not modelled.
- Generation.Illustrate: a scene reply whose content is null does not throw in the source (src/App.js:274). The prompt then reads "null" where the scene goes (src/App.js:287) and an image is still requested; the model treats that reply as a failure and gives the chapter no image.
- The unused `chapterTitle` computed in the image branch (src/App.js:252) has no effect and is left out.
- `saveStory` and `loadStory` only copy state and are left out.
- PdfText.PageSizeFor and Generation.StyleDescription: the names are assumed not to be keys of `Object.prototype` ("constructor", "toString" and the like). On such a key the source's object lookup (src/App.js:415, 287) would find an inherited property instead of falling back. The form's `<select>` cannot produce such a name; only an edited saved story can.
