// generateStoryInChunks: one sequential pass over the chapter indices.  Each
// iteration asks the completion service for one chapter (carrying the previous
// chapter's summary forward), splits the SUMMARY trailer off the reply, and,
// when illustrations are on, runs the best-effort two-tier image chain.  The
// three accumulated arrays reach the story only if every chapter request
// succeeds; an error payload aborts the whole run.
//
// The services are oracles: a function from the chapter index and the request
// to the reply.  Replies may therefore differ from chapter to chapter and
// depend on everything the request carries; the prompts' fixed wording is not
// modelled, only the parts that vary.

module Generation {
  import opened Wrappers
  import opened JsText
  import opened Markers
  import opened StoryData

  datatype ChatRequest =
    | ChapterRequest(chapterNumber: nat, totalChapters: nat, continuity: Option<string>, maxTokens: nat)
    | SceneRequest(excerpt: string, maxTokens: nat)

  /** A completion reply: the first choice's content, an error payload, or a
      failure that throws (network error, unreadable body). */
  datatype ChatReply = ChatOk(content: string) | ChatErr(message: string) | ChatThrows(message: string)

  datatype ImageRequest =
    | PrimaryImage(prompt: string, size: string, quality: string, style: string)
    | SecondaryImage(prompt: string, size: string)

  /** The `data` part of an image reply: no first entry, or a first entry with
      or without a `url`. */
  datatype ImageData = NoImageEntry | ImageEntry(url: Option<string>)

  /** An image reply: its `ok` status and its JSON body (None when the body
      does not parse, so that reading it throws), or a failed fetch. */
  datatype ImageReply = ImageResponse(ok: bool, body: Option<ImageData>) | ImageFetchFailed

  type ChatService = (nat, ChatRequest) -> ChatReply
  type ImageService = (nat, ImageRequest) -> ImageReply

  const MaxTokenCap: nat := 1500
  const SceneMaxTokens: nat := 100
  const SceneExcerptLength: nat := 500
  const SecondaryPromptLength: nat := 400
  const SecondarySize: string := "1024x1024"

  /** `Math.min(1500, wordsPerChapter * 2)`. */
  function MaxTokens(words: nat): (t: nat)
    ensures t <= MaxTokenCap && t <= 2 * words
    ensures t == MaxTokenCap || t == 2 * words
  {
    if 2 * words < MaxTokenCap then 2 * words else MaxTokenCap
  }

  /** The request for chapter `i` (0-based); from the second chapter on it
      carries the previous chapter's summary. */
  function ChapterRequestFor(p: StoryParameters, i: nat, previousSummary: string): ChatRequest {
    ChapterRequest(i + 1, p.chapters, if i > 0 then Some(previousSummary) else None, MaxTokens(p.wordsPerChapter))
  }

  /** The summary stored when a reply has no SUMMARY trailer. */
  function FallbackSummary(i: nat, p: StoryParameters): string {
    "Chapter " + NatToString(i + 1) + " of the story about " + CharacterName(p)
  }

  /** The chapter text and summary kept from a reply: the captured trailer and
      the reply without its "\nSUMMARY:" line, or the raw reply and the
      fallback summary. */
  function SplitChapter(full: string, i: nat, p: StoryParameters): (r: (string, string))
    ensures r.0 <= full
    ensures r.1 != ""
  {
    match SummaryGroup(full)
    case Some(summary) => (StripSummary(full), summary)
    case None => (full, FallbackSummary(i, p))
  }

  /** A reply ending in its own "SUMMARY: t" line keeps the text before that
      line as the chapter and `t` as the summary. */
  lemma SplitChapterWithTrailer(b: string, t: string, i: nat, p: StoryParameters)
    requires NoSummaryTag(b)
    requires t != "" && !IsJsSpace(t[0])
    requires forall k :: 0 <= k < |t| ==> !IsLineTerminator(t[k])
    ensures SplitChapter(b + "\nSUMMARY: " + t, i, p) == (b, t)
  {
    SummaryRoundTrip(b, t);
  }

  /** A reply the summary pattern does not match anywhere is kept unchanged
      and gets the fallback summary. */
  lemma SplitChapterWithoutTrailer(full: string, i: nat, p: StoryParameters)
    requires forall q: nat, c: nat :: !SummaryMatchAt(full, q, c)
    ensures SplitChapter(full, i, p) == (full, "Chapter " + NatToString(i + 1) + " of the story about " + CharacterName(p))
  {
    if FindSummary(full, 0).Some? {
      assert false;
    }
  }

  /** A reply without "SUMMARY:" is one of those. */
  lemma SplitChapterWithoutTag(full: string, i: nat, p: StoryParameters)
    requires NoSummaryTag(full)
    ensures SplitChapter(full, i, p) == (full, FallbackSummary(i, p))
  {
    NoTagNoSummary(full, 0);
  }

  /** So is a reply whose "SUMMARY: t" line is followed by a final newline:
      the trailer then stays in the stored chapter, and the summary is the
      fallback. */
  lemma SplitChapterWithTrailerThenNewline(b: string, t: string, i: nat, p: StoryParameters)
    ensures var full := b + "\nSUMMARY: " + t + "\n";
      SplitChapter(full, i, p) == (full, FallbackSummary(i, p))
  {
    var full := b + "\nSUMMARY: " + t + "\n";
    EndsInTerminatorNoSummary(full);
    SplitChapterWithoutTrailer(full, i, p);
  }

  /** `styleDescriptions[imageStyle]`; a style outside the table reads "undefined". */
  function StyleDescription(style: string): string {
    if style == "colorful" then "vibrant colorful digital illustration"
    else if style == "blackwhite" then "detailed black and white illustration, grayscale, no color"
    else if style == "pencil" then "pencil sketch drawing, graphite art style, hand-drawn look"
    else if style == "watercolor" then "soft watercolor painting style, artistic brushstrokes"
    else if style == "cartoon" then "fun cartoon style, bold outlines, simplified shapes"
    else if style == "realistic" then "photorealistic, highly detailed, lifelike"
    else "undefined"
  }

  /** The primary tier's style flag. */
  function StyleFlag(style: string): string {
    if style == "realistic" then "natural" else "vivid"
  }

  /** The image prompt built around the scene description. */
  function ImagePrompt(p: StoryParameters, scene: string): string {
    StyleDescription(p.imageStyle) + " for a children's book: " + scene
    + ". Character: " + CharacterName(p) + ", " + p.ethnicity + " ethnicity, " + p.appearance
    + ". Setting: " + PromptSetting(p) + " " + p.environmentDetails
    + ". Style requirements: " + StyleDescription(p.imageStyle)
    + ", professional illustration quality, " + p.tone
    + " mood, consistent character design. IMPORTANT: No text, letters, or words in the image."
  }

  function SceneRequestFor(content: string): ChatRequest {
    SceneRequest(Prefix(content, SceneExcerptLength), SceneMaxTokens)
  }

  /** The image entry a chapter gets, with the image requests issued for it. */
  datatype Illustration = Illustration(url: Option<string>, requests: seq<ImageRequest>)

  /** A primary reply that sends the chain to the secondary tier: it arrived
      and its body parses, but its status is not ok. */
  predicate FallsBack(reply: ImageReply) {
    reply.ImageResponse? && !reply.ok && reply.body.Some?
  }

  /** `reply` carries `url` as the URL of its first image entry. */
  predicate Delivers(reply: ImageReply, url: Option<string>) {
    reply.ImageResponse? && reply.body == Some(ImageEntry(url))
  }

  /** The image requests for a built prompt and the URL they yield. */
  function FetchImage(p: StoryParameters, i: nat, prompt: string, draw: ImageService): (r: Illustration)
    ensures 1 <= |r.requests| <= 2
    ensures r.requests[0] == PrimaryImage(prompt, p.imageSize, p.imageQuality, StyleFlag(p.imageStyle))
    ensures |r.requests| == 2 <==> FallsBack(draw(i, r.requests[0]))
    ensures |r.requests| == 2 ==>
      r.requests[1] == SecondaryImage(Prefix(prompt, SecondaryPromptLength), SecondarySize)
    ensures r.url.Some? ==> Delivers(draw(i, r.requests[|r.requests| - 1]), r.url)
    ensures |r.requests| == 1 && r.url.Some? ==> draw(i, r.requests[0]).ok && r.url.value != ""
  {
    var primary := PrimaryImage(prompt, p.imageSize, p.imageQuality, StyleFlag(p.imageStyle));
    var reply := draw(i, primary);
    if FallsBack(reply) then
      var secondary := SecondaryImage(Prefix(prompt, SecondaryPromptLength), SecondarySize);
      var second := draw(i, secondary);
      var url := if second.ImageResponse? && second.body.Some? && second.body.value.ImageEntry?
                 then second.body.value.url else None;
      Illustration(url, [primary, secondary])
    else if reply.ImageResponse? && reply.ok && reply.body.Some? && reply.body.value.ImageEntry?
            && Truthy(reply.body.value.url) then
      Illustration(reply.body.value.url, [primary])
    else
      Illustration(None, [primary])
  }

  /** The two-tier image chain for chapter `i`, whose raw reply is `content`:
      a scene description first, then the image tiers.  Every failure (a scene
      reply without content, a failed fetch, a body that does not parse, a
      missing entry or URL) yields no image and never aborts the run. */
  function Illustrate(p: StoryParameters, i: nat, content: string, chat: ChatService, draw: ImageService)
    : (r: Illustration)
    ensures r.requests == [] <==> !chat(i, SceneRequestFor(content)).ChatOk?
    ensures r.requests == [] ==> r.url.None?
    ensures r.requests != [] ==>
      r == FetchImage(p, i, ImagePrompt(p, chat(i, SceneRequestFor(content)).content), draw)
  {
    match chat(i, SceneRequestFor(content))
    case ChatOk(scene) => FetchImage(p, i, ImagePrompt(p, scene), draw)
    case _ => Illustration(None, [])
  }

  /** An ok primary reply whose first entry has a non-empty URL is used as is. */
  lemma PrimaryImageUsed(p: StoryParameters, i: nat, prompt: string, draw: ImageService, url: string)
    requires draw(i, PrimaryImage(prompt, p.imageSize, p.imageQuality, StyleFlag(p.imageStyle)))
             == ImageResponse(true, Some(ImageEntry(Some(url))))
    requires url != ""
    ensures FetchImage(p, i, prompt, draw) == Illustration(Some(url), [PrimaryImage(prompt, p.imageSize, p.imageQuality, StyleFlag(p.imageStyle))])
  {
  }

  /** After a parsable non-ok primary reply, the secondary tier's first entry
      URL is taken whatever that reply's status, even when it is missing. */
  lemma SecondaryImageUsed(p: StoryParameters, i: nat, prompt: string, draw: ImageService,
                           status: bool, url: Option<string>)
    requires FallsBack(draw(i, PrimaryImage(prompt, p.imageSize, p.imageQuality, StyleFlag(p.imageStyle))))
    requires draw(i, SecondaryImage(Prefix(prompt, SecondaryPromptLength), SecondarySize))
             == ImageResponse(status, Some(ImageEntry(url)))
    ensures FetchImage(p, i, prompt, draw).url == url
  {
  }

  /** The image entry pushed for chapter `i`. */
  function ImageEntryFor(p: StoryParameters, i: nat, content: string, chat: ChatService, draw: ImageService)
    : Option<string>
  {
    if p.generateImages then Illustrate(p, i, content, chat, draw).url else None
  }

  /** What one iteration adds, when the chapter request succeeds. */
  datatype Generated = Generated(chapter: string, summary: string, image: Option<string>)

  function GenerateChapter(p: StoryParameters, chat: ChatService, draw: ImageService, i: nat, previousSummary: string)
    : Result<Generated, string>
  {
    match chat(i, ChapterRequestFor(p, i, previousSummary))
    case ChatErr(m) => Err(m)
    case ChatThrows(m) => Err(m)
    case ChatOk(full) =>
      var (chapter, summary) := SplitChapter(full, i, p);
      Ok(Generated(chapter, summary, ImageEntryFor(p, i, full, chat, draw)))
  }

  /** The three parallel arrays the loop accumulates. */
  datatype Batch = Batch(chapters: seq<string>, images: seq<Option<string>>, summaries: seq<string>)

  function Prepend(b: Batch, r: Result<Batch, string>): Result<Batch, string> {
    match r
    case Err(m) => Err(m)
    case Ok(c) => Ok(Batch(b.chapters + c.chapters, b.images + c.images, b.summaries + c.summaries))
  }

  /** Reference definition of the loop from chapter `i` on, given the summary
      the previous iteration left. */
  function RunFrom(p: StoryParameters, chat: ChatService, draw: ImageService, i: nat, previousSummary: string)
    : Result<Batch, string>
    decreases p.chapters - i
  {
    if i >= p.chapters then Ok(Batch([], [], []))
    else match GenerateChapter(p, chat, draw, i, previousSummary)
      case Err(m) => Err(m)
      case Ok(g) => Prepend(Batch([g.chapter], [g.image], [g.summary]), RunFrom(p, chat, draw, i + 1, g.summary))
  }

  /** The outcome of a whole run: the story, or the message of the error that
      aborted it (no partial story). */
  function Run(p: StoryParameters, chat: ChatService, draw: ImageService): Result<Story, string> {
    match RunFrom(p, chat, draw, 0, "")
    case Err(m) => Err(m)
    case Ok(b) => Ok(Story(Join(b.chapters, "\n\n"), b.chapters, b.images, b.summaries))
  }

  lemma PrependAssoc(a: Batch, b: Batch, r: Result<Batch, string>)
    ensures Prepend(a, Prepend(b, r))
         == Prepend(Batch(a.chapters + b.chapters, a.images + b.images, a.summaries + b.summaries), r)
  {
    if r.Ok? {
      var c := r.value;
      assert a.chapters + (b.chapters + c.chapters) == (a.chapters + b.chapters) + c.chapters;
      assert a.images + (b.images + c.images) == (a.images + b.images) + c.images;
      assert a.summaries + (b.summaries + c.summaries) == (a.summaries + b.summaries) + c.summaries;
    }
  }

  lemma RunFromStep(p: StoryParameters, chat: ChatService, draw: ImageService, i: nat, prev: string)
    requires i < p.chapters
    ensures GenerateChapter(p, chat, draw, i, prev).Err? ==>
      RunFrom(p, chat, draw, i, prev) == Err(GenerateChapter(p, chat, draw, i, prev).error)
    ensures GenerateChapter(p, chat, draw, i, prev).Ok? ==>
      var g := GenerateChapter(p, chat, draw, i, prev).value;
      RunFrom(p, chat, draw, i, prev)
        == Prepend(Batch([g.chapter], [g.image], [g.summary]), RunFrom(p, chat, draw, i + 1, g.summary))
  {
  }

  lemma RunParts(p: StoryParameters, chat: ChatService, draw: ImageService)
    ensures Run(p, chat, draw).Ok? <==> RunFrom(p, chat, draw, 0, "").Ok?
    ensures Run(p, chat, draw).Ok? ==>
      var b := RunFrom(p, chat, draw, 0, "").value;
      var s := Run(p, chat, draw).value;
      s.chapters == b.chapters && s.images == b.images && s.summaries == b.summaries
    ensures Run(p, chat, draw).Err? ==> Run(p, chat, draw).error == RunFrom(p, chat, draw, 0, "").error
  {
  }

  lemma PrependEmpty(r: Result<Batch, string>)
    ensures Prepend(Batch([], [], []), r) == r
  {
    if r.Ok? {
      assert [] + r.value.chapters == r.value.chapters;
      assert [] + r.value.images == r.value.images;
      assert [] + r.value.summaries == r.value.summaries;
    }
  }

  /** The loop invariant: what is accumulated, followed by the rest of the run,
      is the whole run. */
  ghost predicate Accumulated(p: StoryParameters, chat: ChatService, draw: ImageService,
                              acc: Batch, i: nat, previousSummary: string)
  {
    RunFrom(p, chat, draw, 0, "") == Prepend(acc, RunFrom(p, chat, draw, i, previousSummary))
  }

  lemma LoopStep(p: StoryParameters, chat: ChatService, draw: ImageService,
                 acc: Batch, i: nat, prev: string, g: Generated)
    requires i < p.chapters && Accumulated(p, chat, draw, acc, i, prev)
    requires GenerateChapter(p, chat, draw, i, prev) == Ok(g)
    ensures Accumulated(p, chat, draw,
                        Batch(acc.chapters + [g.chapter], acc.images + [g.image], acc.summaries + [g.summary]),
                        i + 1, g.summary)
  {
    RunFromStep(p, chat, draw, i, prev);
    PrependAssoc(acc, Batch([g.chapter], [g.image], [g.summary]), RunFrom(p, chat, draw, i + 1, g.summary));
  }

  lemma AbortStep(p: StoryParameters, chat: ChatService, draw: ImageService, acc: Batch, i: nat, prev: string)
    requires i < p.chapters && Accumulated(p, chat, draw, acc, i, prev)
    requires !chat(i, ChapterRequestFor(p, i, prev)).ChatOk?
    ensures Run(p, chat, draw) == Err(chat(i, ChapterRequestFor(p, i, prev)).message)
  {
    RunFromStep(p, chat, draw, i, prev);
    RunParts(p, chat, draw);
  }

  /** The generation loop. */
  method GenerateStoryInChunks(p: StoryParameters, chat: ChatService, draw: ImageService)
    returns (r: Result<Story, string>)
    ensures r == Run(p, chat, draw)
  {
    var chapters: seq<string> := [];
    var images: seq<Option<string>> := [];
    var chapterSummaries: seq<string> := [];
    var previousSummary := "";
    PrependEmpty(RunFrom(p, chat, draw, 0, ""));
    var i := 0;
    while i < p.chapters
      invariant 0 <= i <= p.chapters
      invariant |chapters| == |images| == |chapterSummaries| == i
      invariant Accumulated(p, chat, draw, Batch(chapters, images, chapterSummaries), i, previousSummary)
    {
      ghost var step := GenerateChapter(p, chat, draw, i, previousSummary);
      ghost var previous := previousSummary;
      var reply := chat(i, ChapterRequestFor(p, i, previousSummary));
      if reply.ChatErr? || reply.ChatThrows? {
        r := Err(reply.message);
        AbortStep(p, chat, draw, Batch(chapters, images, chapterSummaries), i, previousSummary);
        return;
      }
      var fullChapterText := reply.content;
      var summaryMatch := SummaryGroup(fullChapterText);
      var before := Batch(chapters, images, chapterSummaries);
      if summaryMatch.Some? {
        previousSummary := summaryMatch.value;
        chapterSummaries := chapterSummaries + [previousSummary];
        chapters := chapters + [StripSummary(fullChapterText)];
      } else {
        chapters := chapters + [fullChapterText];
        previousSummary := FallbackSummary(i, p);
        chapterSummaries := chapterSummaries + [previousSummary];
      }
      if p.generateImages {
        var illustration := Illustrate(p, i, fullChapterText, chat, draw);
        images := images + [illustration.url];
      } else {
        images := images + [None];
      }
      assert step == Ok(Generated(chapters[i], chapterSummaries[i], images[i]));
      assert chapters == before.chapters + [chapters[i]] && images == before.images + [images[i]]
        && chapterSummaries == before.summaries + [chapterSummaries[i]];
      LoopStep(p, chat, draw, before, i, previous, Generated(chapters[i], chapterSummaries[i], images[i]));
      i := i + 1;
    }
    assert RunFrom(p, chat, draw, i, previousSummary) == Ok(Batch([], [], []));
    assert chapters + [] == chapters && images + [] == images && chapterSummaries + [] == chapterSummaries;
    var fullStory := Join(chapters, "\n\n");
    r := Ok(Story(fullStory, chapters, images, chapterSummaries));
  }

  // ---------------------------------------------------------------------------
  // Properties of a run
  // ---------------------------------------------------------------------------

  lemma {:induction false} RunFromShape(p: StoryParameters, chat: ChatService, draw: ImageService, i: nat, prev: string)
    requires i <= p.chapters && RunFrom(p, chat, draw, i, prev).Ok?
    ensures var b := RunFrom(p, chat, draw, i, prev).value;
      |b.chapters| == |b.images| == |b.summaries| == p.chapters - i
    decreases p.chapters - i
  {
    if i < p.chapters {
      var g := GenerateChapter(p, chat, draw, i, prev).value;
      RunFromShape(p, chat, draw, i + 1, g.summary);
    }
  }

  /** A successful run yields exactly one chapter, one image entry and one
      summary per requested chapter, and the story text is the chapters joined
      by blank lines. */
  lemma RunShape(p: StoryParameters, chat: ChatService, draw: ImageService)
    requires Run(p, chat, draw).Ok?
    ensures var s := Run(p, chat, draw).value;
      && |s.chapters| == |s.images| == |s.summaries| == p.chapters
      && s.generatedStory == Join(s.chapters, "\n\n")
  {
    RunFromShape(p, chat, draw, 0, "");
  }

  /** Chapter `k` of a run was generated from a successful reply to the
      request carrying the previous summary, and holds what that reply yields. */
  ghost predicate ChapterFrom(p: StoryParameters, chat: ChatService, draw: ImageService, k: nat, prev: string,
                              chapter: string, summary: string, image: Option<string>)
  {
    var reply := chat(k, ChapterRequestFor(p, k, prev));
    && reply.ChatOk?
    && SplitChapter(reply.content, k, p) == (chapter, summary)
    && image == ImageEntryFor(p, k, reply.content, chat, draw)
  }

  /** A successful run from chapter `i` is that chapter's result followed by
      the successful run from the next chapter. */
  lemma RunFromCons(p: StoryParameters, chat: ChatService, draw: ImageService, i: nat, prev: string)
    returns (g: Generated, c: Batch)
    requires i < p.chapters && RunFrom(p, chat, draw, i, prev).Ok?
    ensures GenerateChapter(p, chat, draw, i, prev) == Ok(g)
    ensures RunFrom(p, chat, draw, i + 1, g.summary) == Ok(c)
    ensures RunFrom(p, chat, draw, i, prev).value
         == Batch([g.chapter] + c.chapters, [g.image] + c.images, [g.summary] + c.summaries)
  {
    RunFromStep(p, chat, draw, i, prev);
    g := GenerateChapter(p, chat, draw, i, prev).value;
    c := RunFrom(p, chat, draw, i + 1, g.summary).value;
  }

  /** A successful run from chapter `i` is a batch generated chapter by
      chapter, each from the summary the one before it left. */
  lemma {:induction false} RunFromChapters(p: StoryParameters, chat: ChatService, draw: ImageService,
                                           i: nat, prev: string)
    requires RunFrom(p, chat, draw, i, prev).Ok?
    ensures ChaptersFrom(p, chat, draw, i, prev, RunFrom(p, chat, draw, i, prev).value)
    decreases p.chapters - i
  {
    if i < p.chapters {
      var g, c := RunFromCons(p, chat, draw, i, prev);
      RunFromChapters(p, chat, draw, i + 1, g.summary);
      GeneratedChapterFrom(p, chat, draw, i, prev);
      var done := ConsChapters(p, chat, draw, i, prev, g, c);
    } else {
      assert RunFrom(p, chat, draw, i, prev).value.chapters == [];
    }
  }

  lemma GeneratedChapterFrom(p: StoryParameters, chat: ChatService, draw: ImageService, i: nat, prev: string)
    requires GenerateChapter(p, chat, draw, i, prev).Ok?
    ensures var g := GenerateChapter(p, chat, draw, i, prev).value;
      ChapterFrom(p, chat, draw, i, prev, g.chapter, g.summary, g.image)
  {
  }

  /** Continuity: in a successful run, chapter k was requested with the
      summary stored for chapter k-1 (and the first with none), and its text,
      summary and image entry are what that reply yields. */
  lemma RunThreadsSummaries(p: StoryParameters, chat: ChatService, draw: ImageService, k: nat)
    requires Run(p, chat, draw).Ok? && k < p.chapters
    ensures var s := Run(p, chat, draw).value;
      && k < |s.chapters| && k < |s.images| && k < |s.summaries|
      && ChapterFrom(p, chat, draw, k, if k == 0 then "" else s.summaries[k - 1],
                     s.chapters[k], s.summaries[k], s.images[k])
  {
    RunParts(p, chat, draw);
    RunFromShape(p, chat, draw, 0, "");
    RunFromChapters(p, chat, draw, 0, "");
    var b := RunFrom(p, chat, draw, 0, "").value;
    ChaptersFromAt(p, chat, draw, 0, "", b, k);
  }

  /** A failed run whose first request succeeded failed later, with the
      same message. */
  lemma ErrorAfterChapter(p: StoryParameters, chat: ChatService, draw: ImageService, i: nat, prev: string)
    returns (g: Generated)
    requires RunFrom(p, chat, draw, i, prev).Err? && chat(i, ChapterRequestFor(p, i, prev)).ChatOk?
    ensures i < p.chapters && GenerateChapter(p, chat, draw, i, prev) == Ok(g)
    ensures ChapterFrom(p, chat, draw, i, prev, g.chapter, g.summary, g.image)
    ensures RunFrom(p, chat, draw, i + 1, g.summary).Err?
    ensures RunFrom(p, chat, draw, i + 1, g.summary).error == RunFrom(p, chat, draw, i, prev).error
  {
    RunFromStep(p, chat, draw, i, prev);
    g := GenerateChapter(p, chat, draw, i, prev).value;
  }

  /** What a chapter entry is checked against: its index, the summary its
      request carried, and its text, summary and image entry. */
  type ChapterCheck = (nat, string, string, string, Option<string>) -> bool

  /** The check every chapter of a run with these parameters and services
      passes (ChapterFrom). */
  ghost function GeneratedBy(p: StoryParameters, chat: ChatService, draw: ImageService): ChapterCheck
  {
    (k: nat, prev: string, chapter: string, summary: string, image: Option<string>) =>
      ChapterFrom(p, chat, draw, k, prev, chapter, summary, image)
  }

  /** `done` holds entries i, i+1, ..., in order, each passing `check` with
      the summary the one before it left, the first with `prev`. */
  ghost predicate Chained(check: ChapterCheck, i: nat, prev: string, done: Batch)
    decreases |done.chapters|
  {
    && |done.chapters| == |done.images| == |done.summaries|
    && (|done.chapters| > 0 ==>
          && check(i, prev, done.chapters[0], done.summaries[0], done.images[0])
          && Chained(check, i + 1, done.summaries[0],
                     Batch(done.chapters[1..], done.images[1..], done.summaries[1..])))
  }

  /** `done` holds chapters i, i+1, ..., in order, each generated (as
      ChapterFrom says) from the request carrying the summary the one before
      it left, the first from `prev`. */
  ghost predicate ChaptersFrom(p: StoryParameters, chat: ChatService, draw: ImageService, i: nat, prev: string,
                               done: Batch)
  {
    Chained(GeneratedBy(p, chat, draw), i, prev, done)
  }

  /** Chapter `i`, generated from `prev`, followed by chapters generated from
      its summary on. */
  lemma ConsChapters(p: StoryParameters, chat: ChatService, draw: ImageService, i: nat, prev: string,
                     g: Generated, rest: Batch)
    returns (done: Batch)
    requires ChapterFrom(p, chat, draw, i, prev, g.chapter, g.summary, g.image)
    requires ChaptersFrom(p, chat, draw, i + 1, g.summary, rest)
    ensures done == Batch([g.chapter] + rest.chapters, [g.image] + rest.images, [g.summary] + rest.summaries)
    ensures ChaptersFrom(p, chat, draw, i, prev, done)
  {
    done := Batch([g.chapter] + rest.chapters, [g.image] + rest.images, [g.summary] + rest.summaries);
    assert Batch(done.chapters[1..], done.images[1..], done.summaries[1..]) == rest;
    assert GeneratedBy(p, chat, draw)(i, prev, done.chapters[0], done.summaries[0], done.images[0]);
  }

  /** Reading Chained: entry j passes the check as entry i+j, with entry
      j-1's summary (the first with `prev`). */
  lemma {:induction false} ChainedAt(check: ChapterCheck, i: nat, prev: string, done: Batch, j: nat)
    requires Chained(check, i, prev, done) && j < |done.chapters|
    ensures j < |done.images| && j < |done.summaries|
    ensures check(i + j, if j == 0 then prev else done.summaries[j - 1], done.chapters[j], done.summaries[j], done.images[j])
    decreases j
  {
    if j > 0 {
      var rest := Batch(done.chapters[1..], done.images[1..], done.summaries[1..]);
      ChainedAt(check, i + 1, done.summaries[0], rest, j - 1);
      assert (if j - 1 == 0 then done.summaries[0] else rest.summaries[j - 1 - 1]) == done.summaries[j - 1];
    }
  }

  /** Reading ChaptersFrom: entry j of the batch is chapter i+j, generated
      from the request carrying entry j-1's summary (the first from `prev`). */
  lemma ChaptersFromAt(p: StoryParameters, chat: ChatService, draw: ImageService, i: nat, prev: string,
                       done: Batch, j: nat)
    requires ChaptersFrom(p, chat, draw, i, prev, done) && j < |done.chapters|
    ensures j < |done.images| && j < |done.summaries|
    ensures ChapterFrom(p, chat, draw, i + j, if j == 0 then prev else done.summaries[j - 1],
                        done.chapters[j], done.summaries[j], done.images[j])
  {
    ChainedAt(GeneratedBy(p, chat, draw), i, prev, done, j);
  }

  /** Where a failed run from chapter `i` stopped: chapters i, ..., k-1 were
      generated (`done`), and the request for chapter k, carrying the summary
      chapter k-1 left, got the error payload or the failure the run
      reports. */
  lemma {:induction false} RunFromErrorAt(p: StoryParameters, chat: ChatService, draw: ImageService, i: nat, prev: string)
    returns (k: nat, done: Batch)
    requires RunFrom(p, chat, draw, i, prev).Err?
    ensures i <= k < p.chapters && |done.chapters| == |done.images| == |done.summaries| == k - i
    ensures ChaptersFrom(p, chat, draw, i, prev, done)
    ensures var m := RunFrom(p, chat, draw, i, prev).error;
      chat(k, ChapterRequestFor(p, k, if k == i then prev else done.summaries[k - i - 1])) in {ChatErr(m), ChatThrows(m)}
    decreases p.chapters - i
  {
    if chat(i, ChapterRequestFor(p, i, prev)).ChatOk? {
      var g := ErrorAfterChapter(p, chat, draw, i, prev);
      var rest;
      k, rest := RunFromErrorAt(p, chat, draw, i + 1, g.summary);
      done := ConsChapters(p, chat, draw, i, prev, g, rest);
      assert (if k == i + 1 then g.summary else rest.summaries[k - (i + 1) - 1]) == done.summaries[k - i - 1];
    } else {
      RunFromStep(p, chat, draw, i, prev);
      k, done := i, Batch([], [], []);
    }
  }

  /** A run aborts exactly at the first chapter whose request got an error
      payload or threw, and reports that reply's message: chapters 0, ..., k-1
      were generated from successful replies, each request carrying the
      summary the previous chapter left (ChaptersFrom, read entry by entry
      with ChaptersFromAt), and the request for chapter k, made with the
      summary chapter k-1 left, failed with the reported message. */
  lemma RunErrorComesFromChapterReply(p: StoryParameters, chat: ChatService, draw: ImageService)
    returns (k: nat, done: Batch)
    requires Run(p, chat, draw).Err?
    ensures k < p.chapters
    ensures |done.chapters| == |done.images| == |done.summaries| == k
    ensures ChaptersFrom(p, chat, draw, 0, "", done)
    ensures var m := Run(p, chat, draw).error;
      chat(k, ChapterRequestFor(p, k, if k == 0 then "" else done.summaries[k - 1])) in {ChatErr(m), ChatThrows(m)}
  {
    RunParts(p, chat, draw);
    assert RunFrom(p, chat, draw, 0, "").error == Run(p, chat, draw).error;
    k, done := RunFromErrorAt(p, chat, draw, 0, "");
  }

  /** The text of a run: its chapters and summaries, or its error. */
  function Texts(r: Result<Batch, string>): Result<(seq<string>, seq<string>), string> {
    match r
    case Err(m) => Err(m)
    case Ok(b) => Ok((b.chapters, b.summaries))
  }

  /** One chapter's outcome, text and summary do not depend on images. */
  lemma ChapterTextIgnoresImages(p: StoryParameters, q: StoryParameters, chat: ChatService,
                                 draw1: ImageService, draw2: ImageService, i: nat, prev: string)
    requires q == p.(generateImages := q.generateImages)
    ensures var g1 := GenerateChapter(p, chat, draw1, i, prev);
            var g2 := GenerateChapter(q, chat, draw2, i, prev);
      && g1.Ok? == g2.Ok?
      && (g1.Err? ==> g1.error == g2.error)
      && (g1.Ok? ==> g1.value.chapter == g2.value.chapter && g1.value.summary == g2.value.summary)
  {
    assert ChapterRequestFor(p, i, prev) == ChapterRequestFor(q, i, prev);
    assert FallbackSummary(i, p) == FallbackSummary(i, q);
  }

  lemma TextsPrepend(a: Batch, b: Batch, r1: Result<Batch, string>, r2: Result<Batch, string>)
    requires a.chapters == b.chapters && a.summaries == b.summaries && Texts(r1) == Texts(r2)
    ensures Texts(Prepend(a, r1)) == Texts(Prepend(b, r2))
  {
  }

  lemma {:induction false} TextsIgnoreImages(p: StoryParameters, q: StoryParameters, chat: ChatService,
                                             draw1: ImageService, draw2: ImageService, i: nat, prev: string)
    requires q == p.(generateImages := q.generateImages)
    ensures Texts(RunFrom(p, chat, draw1, i, prev)) == Texts(RunFrom(q, chat, draw2, i, prev))
    decreases p.chapters - i
  {
    if i < p.chapters {
      RunFromStep(p, chat, draw1, i, prev);
      RunFromStep(q, chat, draw2, i, prev);
      ChapterTextIgnoresImages(p, q, chat, draw1, draw2, i, prev);
      var g1 := GenerateChapter(p, chat, draw1, i, prev);
      var g2 := GenerateChapter(q, chat, draw2, i, prev);
      if g1.Ok? {
        var s := g1.value.summary;
        TextsIgnoreImages(p, q, chat, draw1, draw2, i + 1, s);
        TextsPrepend(Batch([g1.value.chapter], [g1.value.image], [s]),
                     Batch([g2.value.chapter], [g2.value.image], [g2.value.summary]),
                     RunFrom(p, chat, draw1, i + 1, s), RunFrom(q, chat, draw2, i + 1, s));
      }
    }
  }

  /** Illustration failures are never fatal: whether a run succeeds, its error
      message, and its chapters and summaries do not depend on the image
      service or on the illustration toggle. */
  lemma ImagesNeverAbort(p: StoryParameters, generateImages: bool, chat: ChatService,
                         draw1: ImageService, draw2: ImageService)
    ensures var r1 := Run(p, chat, draw1);
            var r2 := Run(p.(generateImages := generateImages), chat, draw2);
      && r1.Ok? == r2.Ok?
      && (r1.Err? ==> r1.error == r2.error)
      && (r1.Ok? ==> r1.value.chapters == r2.value.chapters && r1.value.summaries == r2.value.summaries
                     && r1.value.generatedStory == r2.value.generatedStory)
  {
    TextsIgnoreImages(p, p.(generateImages := generateImages), chat, draw1, draw2, 0, "");
  }

  lemma {:induction false} NoImagesWhenDisabledFrom(p: StoryParameters, chat: ChatService, draw: ImageService,
                                                    i: nat, prev: string)
    requires !p.generateImages && RunFrom(p, chat, draw, i, prev).Ok?
    ensures forall k :: 0 <= k < |RunFrom(p, chat, draw, i, prev).value.images| ==>
      RunFrom(p, chat, draw, i, prev).value.images[k] == None
    decreases p.chapters - i
  {
    if i < p.chapters {
      var g := GenerateChapter(p, chat, draw, i, prev).value;
      NoImagesWhenDisabledFrom(p, chat, draw, i + 1, g.summary);
    }
  }

  /** With illustrations off, every chapter's image entry is null. */
  lemma NoImagesWhenDisabled(p: StoryParameters, chat: ChatService, draw: ImageService)
    requires !p.generateImages && Run(p, chat, draw).Ok?
    ensures forall k :: 0 <= k < |Run(p, chat, draw).value.images| ==> Run(p, chat, draw).value.images[k] == None
  {
    NoImagesWhenDisabledFrom(p, chat, draw, 0, "");
  }
}
