/** The shared vocabulary of `_shared/types.ts` and the model names of `_shared/config.ts`. */
module Types {

  datatype ChatMode = Mentor | Researcher | Coach | Visionary

  datatype ModelTier = Stable | DeepDive | Standard | HighQuality

  /** The two values of the ledger's `operation` column. */
  datatype Operation = ChatOp | ImageOp

  datatype Role = UserRole | AssistantRole

  datatype ChatHistoryItem = ChatHistoryItem(role: Role, content: string)

  datatype GroundingSource = GroundingSource(title: string, uri: string)

  /** The wire name of a mode (`'mentor'`, ...). */
  function ModeName(m: ChatMode): string {
    match m
    case Mentor => "mentor"
    case Researcher => "researcher"
    case Coach => "coach"
    case Visionary => "visionary"
  }

  /** The wire name of a model tier. */
  function TierName(t: ModelTier): string {
    match t
    case Stable => "stable"
    case DeepDive => "deep_dive"
    case Standard => "standard"
    case HighQuality => "high_quality"
  }

  function OperationName(op: Operation): string {
    match op
    case ChatOp => "chat"
    case ImageOp => "image"
  }

  /** The modes are told apart by their wire names, which is what `isChatMode` relies on. */
  lemma ModeNamesDistinct(m1: ChatMode, m2: ChatMode)
    ensures ModeName(m1) == ModeName(m2) ==> m1 == m2
  {
  }

  /** `getEffectivePriceCredits` and the reservations take the tier as a string. */
  lemma TierNamesDistinct(t1: ModelTier, t2: ModelTier)
    ensures TierName(t1) == TierName(t2) ==> t1 == t2
  {
  }
}

/**
 * Model names from `_shared/config.ts`, at the defaults used when the environment sets nothing
 * (the environment overrides are not modelled).
 */
module Config {
  const DEFAULT_TEXT_MODEL: string := "gemini-2.5-flash"
  const RESEARCH_DEEP_DIVE_MODEL: string := "gemini-2.5-pro"
  const IMAGE_STANDARD_MODEL: string := "gemini-2.0-flash-preview-image-generation"
  /** Falls back to the standard image model when no high-quality model is configured. */
  const IMAGE_HIGH_QUALITY_MODEL: string := IMAGE_STANDARD_MODEL
  const TTS_MODEL: string := "gemini-2.5-flash-preview-tts"
}
