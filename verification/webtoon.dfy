/** The plan record the whole application passes around (types.ts). */
module Webtoon {

  /** The four drawing styles; each renders as its display label. */
  datatype ArtStyle = Instatoon | Anime | HandDrawn | ThreeD {

    /** The enum's string value, which is what a template literal prints. */
    function Label(): string {
      match this
      case Instatoon => "인스타툰 (Instatoon)"
      case Anime => "순정만화 (Anime)"
      case HandDrawn => "손그림 (Hand-drawn)"
      case ThreeD => "3D 캐릭터 (3D Render)"
    }
  }

  datatype Character = Character(name: string, appearance: string, features: string)

  datatype OutroDetails = OutroDetails(secondCharacter: string, action: string, dialogue: string)

  /** A webtoon plan. `storySummary` and `dialogues` are index-aligned by
      convention only: nothing fixes their lengths. */
  datatype Plan = Plan(
    subject: string,
    artStyle: ArtStyle,
    recommendedCharacter: Character,
    storySummary: seq<string>,
    dialogues: seq<string>,
    infoTextBlock: string,
    referenceSources: seq<string>,
    outroDetails: OutroDetails,
    mainColor: string,
    englishPrompt: string)
}
