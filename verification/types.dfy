/**
 * The closed enumerations and the options record shared by the prompt
 * builder, the request state machine and the export stage
 * (types.ts in the original application).
 */
module Types {

  /** The five rewriting tones offered to the user. */
  datatype Tone = Professional | Academic | Casual | Executive | Persuasive

  /** The string value each `Tone` member carries; it is what the prompt embeds. */
  function ToneName(t: Tone): (name: string)
    ensures '\n' !in name
  {
    match t
    case Professional => "Professional"
    case Academic => "Academic"
    case Casual => "Casual"
    case Executive => "Executive Summary"
    case Persuasive => "Persuasive"
  }

  /** Every tone, listed once. */
  const AllTones: set<Tone> := {Professional, Academic, Casual, Executive, Persuasive}

  /** `Tone` has exactly five members. */
  lemma ToneHasFiveMembers()
    ensures forall t: Tone :: t in AllTones
    ensures |AllTones| == 5
  {
    forall t: Tone ensures t in AllTones {
      match t
      case Professional =>
      case Academic =>
      case Casual =>
      case Executive =>
      case Persuasive =>
    }
  }

  /** Distinct tones carry distinct display strings, so the tone can be read back from its name. */
  lemma ToneNameInjective(a: Tone, b: Tone)
    ensures ToneName(a) == ToneName(b) <==> a == b
    ensures ToneName(Executive) == "Executive Summary"
  {
  }

  /** The output formats named in the interface. */
  datatype FormatOption = Markdown | Html | PlainText | Pdf | WordDocument

  /** The label each format option carries. */
  function FormatOptionName(f: FormatOption): string
  {
    match f
    case Markdown => "Markdown"
    case Html => "HTML"
    case PlainText => "Plain Text"
    case Pdf => "PDF"
    case WordDocument => "Word Document"
  }

  const AllFormatOptions: set<FormatOption> := {Markdown, Html, PlainText, Pdf, WordDocument}

  /** `FormatOption` has exactly five members, with pairwise distinct strings. */
  lemma FormatOptionHasFiveMembers(a: FormatOption, b: FormatOption)
    ensures forall f: FormatOption :: f in AllFormatOptions
    ensures |AllFormatOptions| == 5
    ensures FormatOptionName(a) == FormatOptionName(b) <==> a == b
  {
    forall f: FormatOption ensures f in AllFormatOptions {
      match f
      case Markdown =>
      case Html =>
      case PlainText =>
      case Pdf =>
      case WordDocument =>
    }
  }

  /**
   * The formatting options record: all three fields are mandatory, so a
   * value of this type is always fully populated.
   */
  datatype FormattingOptions = FormattingOptions(tone: Tone, includeSummary: bool, fixGrammar: bool)
}
