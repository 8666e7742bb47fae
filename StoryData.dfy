// The wizard's answers as the generator and the exporters read them, the
// story artifact the generator produces, and the document title every export
// format derives from them.

module StoryData {
  import opened Wrappers
  import opened JsText

  /** The fields of the wizard state that the generation loop and the export
      code read.  Prompt-only fields (age, personality, plot elements) appear
      in the chapter prompt's fixed wording, which the model treats as opaque. */
  datatype StoryParameters = StoryParameters(
    storyType: string,
    genre: string,
    customGenre: string,
    mainCharacter: string,
    characterName: string,
    ethnicity: string,
    appearance: string,
    setting: string,
    customSetting: string,
    environmentDetails: string,
    tone: string,
    chapters: nat,
    wordsPerChapter: nat,
    generateImages: bool,
    imageOrientation: string,
    imageSize: string,
    imageStyle: string,
    imageQuality: string,
    pdfPageSize: string)

  /** What a successful generation run stores: the chapters joined by blank
      lines, the chapters themselves, one image entry per chapter and one
      summary per chapter. */
  datatype Story = Story(
    generatedStory: string,
    chapters: seq<string>,
    images: seq<Option<string>>,
    summaries: seq<string>)

  /** `characterDetails.name || mainCharacter`. */
  function CharacterName(p: StoryParameters): string {
    OrElse(p.characterName, p.mainCharacter)
  }

  /** `setting === 'Custom' ? customSetting : setting`, used in prompts. */
  function PromptSetting(p: StoryParameters): string {
    if p.setting == "Custom" then p.customSetting else p.setting
  }

  /** The display name of a story type; an unknown type reads "Story". */
  function StoryTypeName(storyType: string): (r: string)
    ensures r != ""
    ensures r == "Story" <==> storyType !in {"children", "moral", "general"}
  {
    if storyType == "children" then "Children's Story"
    else if storyType == "moral" then "Moral Story"
    else if storyType == "general" then "General Story"
    else "Story"
  }

  /** The title shared by all three export formats.  It uses the genre field
      as stored, so a custom genre shows as "Custom". */
  function DocumentTitle(p: StoryParameters): (t: string)
    ensures |t| == |CharacterName(p)| + |p.genre| + |StoryTypeName(p.storyType)| + 4
    ensures t[..|CharacterName(p)|] == CharacterName(p)
    ensures t[|t| - |StoryTypeName(p.storyType)|..] == StoryTypeName(p.storyType)
    ensures t[|CharacterName(p)|..|t| - |StoryTypeName(p.storyType)|] == "'s " + p.genre + " "
  {
    CharacterName(p) + "'s " + p.genre + " " + StoryTypeName(p.storyType)
  }
}
