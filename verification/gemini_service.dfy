/**
 * The prompt builder and the adapter around the external generation service
 * (services/geminiService.ts). The service itself is not modelled: the
 * adapter receives the service's reply to its one call as a parameter.
 */
module GeminiService {
  import opened Js
  import opened Types
  import opened TextLines

  // The fixed lines of the prompt template.
  const IntroLine := "    You are an expert professional editor and document formatter. "
  const TaskLine := "    Your task is to take the provided raw text and rewrite/format it to be highly professional and visually structured using Markdown."
  const ConfigurationHeading := "    Configuration:"
  const ToneLabel := "    - Tone: "
  const GrammarLabel := "    - Fix Grammar: "
  const SummaryLabel := "    - Include Summary: "
  const InstructionsHeading := "    Instructions:"
  const HeadersRule := "    1. Use Markdown headers (#, ##, ###) to organize sections logically."
  const ListsRule := "    2. Use bullet points or numbered lists to break up dense paragraphs."
  const BoldRule := "    3. Use bolding (**text**) for key terms or emphasis, but do not overuse it."
  const ReadyRule := "    4. Ensure the output is ready to be copied into a professional document or email."
  const NoFillerRule := "    5. Do NOT include any conversational filler before or after the content (e.g., \"Here is your formatted text\"). Just provide the formatted content."
  const RawTextHeading := "    Raw Text:"
  /** The indentation in front of the raw text. */
  const RawTextIndent := "    "
  /** The indentation of the template's closing line, after the raw text's newline. */
  const ClosingIndent := "  "

  // The values the two yes/no lines take.
  const GrammarYes := "Yes, ensure perfect grammar and punctuation."
  const GrammarNo := "No, keep original phrasing mostly intact."
  const SummaryYes := "Yes, add a brief executive summary at the top."
  const SummaryNo := "No."

  /** The two values of each yes/no line differ before the shorter one's line ends. */
  lemma ChoiceValuesDiffer()
    ensures |GrammarNo| < |GrammarYes| && GrammarYes[|GrammarNo|] != '\n'
    ensures |SummaryNo| < |SummaryYes| && SummaryYes[|SummaryNo|] != '\n'
  {
  }

  function ToneLine(t: Tone): string {
    ToneLabel + ToneName(t)
  }

  function GrammarLine(fixGrammar: bool): string {
    GrammarLabel + (if fixGrammar then GrammarYes else GrammarNo)
  }

  function SummaryLine(includeSummary: bool): string {
    SummaryLabel + (if includeSummary then SummaryYes else SummaryNo)
  }

  // Line numbers (from 0) in the prompt.
  const ToneLineNo := 5
  const GrammarLineNo := 6
  const SummaryLineNo := 7
  const RawTextHeadingLineNo := 16

  /** The lines of the template in front of the raw text's line. */
  function HeaderLines(options: FormattingOptions): (lines: seq<string>)
    ensures |lines| == RawTextHeadingLineNo + 1
  {
    [ "",
      IntroLine,
      TaskLine,
      "",
      ConfigurationHeading,
      ToneLine(options.tone),
      GrammarLine(options.fixGrammar),
      SummaryLine(options.includeSummary),
      "",
      InstructionsHeading,
      HeadersRule,
      ListsRule,
      BoldRule,
      ReadyRule,
      NoFillerRule,
      "",
      RawTextHeading ]
  }

  /** The instruction string sent to the service: the template of services/geminiService.ts:9-27. */
  function Prompt(text: string, options: FormattingOptions): string {
    Unlines(HeaderLines(options) + [RawTextIndent + text]) + ClosingIndent
  }

  /** Where header line `i` starts in every prompt built with `options`. */
  function HeaderLineStart(options: FormattingOptions, i: nat): nat
    requires i <= RawTextHeadingLineNo
  {
    LineStart(HeaderLines(options), i)
  }

  /** Where the raw text starts in the prompt. */
  function RawTextStart(options: FormattingOptions): nat {
    |Unlines(HeaderLines(options))| + |RawTextIndent|
  }

  /** Header line `i` is a whole line of the prompt, at the same place for every text. */
  lemma {:induction false} PromptHeaderLine(text: string, options: FormattingOptions, i: nat)
    requires 1 <= i <= RawTextHeadingLineNo
    ensures LineAt(Prompt(text, options), HeaderLineStart(options, i), HeaderLines(options)[i])
  {
    HeadLineAt(HeaderLines(options), [RawTextIndent + text], ClosingIndent, i);
  }

  /** The `- Tone:` line is a line of its own and holds the tone's string verbatim. */
  lemma PromptToneLine(text: string, options: FormattingOptions)
    ensures LineAt(Prompt(text, options), HeaderLineStart(options, ToneLineNo), ToneLabel + ToneName(options.tone))
  {
    PromptHeaderLine(text, options, ToneLineNo);
  }

  /**
   * The `- Fix Grammar:` line is a whole line and takes exactly one of two
   * values: the "Yes" directive exactly when grammar fixing is asked for,
   * the "No" directive exactly when it is not.
   */
  lemma PromptGrammarLine(text: string, options: FormattingOptions)
    ensures var p, k := Prompt(text, options), HeaderLineStart(options, GrammarLineNo);
      && (LineAt(p, k, GrammarLabel + GrammarYes) <==> options.fixGrammar)
      && (LineAt(p, k, GrammarLabel + GrammarNo) <==> !options.fixGrammar)
  {
    PromptHeaderLine(text, options, GrammarLineNo);
    ChoiceValuesDiffer();
    ChoiceLineAt(Prompt(text, options), HeaderLineStart(options, GrammarLineNo), GrammarLabel, GrammarYes, GrammarNo, options.fixGrammar);
  }

  /**
   * The `- Include Summary:` line is always present; it asks for a summary
   * exactly when one is wanted and reads "No." exactly when not.
   */
  lemma PromptSummaryLine(text: string, options: FormattingOptions)
    ensures var p, k := Prompt(text, options), HeaderLineStart(options, SummaryLineNo);
      && (LineAt(p, k, SummaryLabel + SummaryYes) <==> options.includeSummary)
      && (LineAt(p, k, SummaryLabel + SummaryNo) <==> !options.includeSummary)
  {
    PromptHeaderLine(text, options, SummaryLineNo);
    ChoiceValuesDiffer();
    ChoiceLineAt(Prompt(text, options), HeaderLineStart(options, SummaryLineNo), SummaryLabel, SummaryYes, SummaryNo, options.includeSummary);
  }

  /**
   * The raw text appears verbatim, after its indentation, in the prompt's
   * last line; only the newline and the closing indentation follow it.
   */
  lemma {:induction false} PromptRawTextSection(text: string, options: FormattingOptions)
    ensures var p, k := Prompt(text, options), RawTextStart(options);
      && k + |text| + 1 + |ClosingIndent| == |p|
      && p[k - |RawTextIndent|..k] == RawTextIndent
      && p[k..k + |text|] == text
      && p[k + |text|..] == "\n" + ClosingIndent
  {
    LastLine(HeaderLines(options), RawTextIndent, text, ClosingIndent);
  }

  /** The `Raw Text:` heading line ends right before the raw text's line starts. */
  lemma {:induction false} PromptRawTextFollowsHeading(text: string, options: FormattingOptions)
    ensures LineAt(Prompt(text, options), HeaderLineStart(options, RawTextHeadingLineNo), RawTextHeading)
    ensures HeaderLineStart(options, RawTextHeadingLineNo) + |RawTextHeading| + 1 + |RawTextIndent| == RawTextStart(options)
  {
    PromptHeaderLine(text, options, RawTextHeadingLineNo);
    LastLineStart(HeaderLines(options));
  }

  /**
   * Every line in front of the `Raw Text:` heading (the configuration and
   * the numbered instructions among them) ends before the heading starts.
   */
  lemma {:induction false} PromptHeaderBeforeRawText(options: FormattingOptions, i: nat)
    requires i < RawTextHeadingLineNo
    ensures var lines := HeaderLines(options);
      LineStart(lines, i) + |lines[i]| < LineStart(lines, RawTextHeadingLineNo)
  {
    LineStartOrdered(HeaderLines(options), i, RawTextHeadingLineNo);
  }

  /** The tone line starts at the same place whatever the options. */
  lemma {:induction false} ToneLineStartFixed(options1: FormattingOptions, options2: FormattingOptions)
    ensures HeaderLineStart(options1, ToneLineNo) == HeaderLineStart(options2, ToneLineNo)
  {
    assert HeaderLines(options1)[..ToneLineNo] == HeaderLines(options2)[..ToneLineNo];
  }

  /** Two prompts that are equal were built with the same tone. */
  lemma {:induction false} PromptDeterminesTone(text1: string, options1: FormattingOptions, text2: string, options2: FormattingOptions)
    requires Prompt(text1, options1) == Prompt(text2, options2)
    ensures options1.tone == options2.tone
  {
    var p := Prompt(text1, options1);
    var k := HeaderLineStart(options1, ToneLineNo);
    ToneLineStartFixed(options1, options2);
    PromptToneLine(text1, options1);
    PromptToneLine(text2, options2);
    var n1, n2 := ToneName(options1.tone), ToneName(options2.tone);
    var l1, l2 := ToneLabel + n1, ToneLabel + n2;
    if |l1| < |l2| {
      LineAtAgree(p, k, l1, l2);
    } else if |l2| < |l1| {
      LineAtAgree(p, k, l2, l1);
    } else {
      assert n1 == l1[|ToneLabel|..] == l2[|ToneLabel|..] == n2;
    }
    ToneNameInjective(options1.tone, options2.tone);
  }

  /** Two equal prompts built with the same tone were built with the same grammar choice. */
  lemma {:induction false} PromptDeterminesGrammar(text1: string, options1: FormattingOptions, text2: string, options2: FormattingOptions)
    requires Prompt(text1, options1) == Prompt(text2, options2)
    requires options1.tone == options2.tone
    ensures options1.fixGrammar == options2.fixGrammar
  {
    assert HeaderLines(options1)[..GrammarLineNo] == HeaderLines(options2)[..GrammarLineNo];
    PromptGrammarLine(text1, options1);
    PromptGrammarLine(text2, options2);
  }

  /** Two equal prompts built with the same tone and grammar choice were built with the same summary choice. */
  lemma {:induction false} PromptDeterminesSummary(text1: string, options1: FormattingOptions, text2: string, options2: FormattingOptions)
    requires Prompt(text1, options1) == Prompt(text2, options2)
    requires options1.tone == options2.tone && options1.fixGrammar == options2.fixGrammar
    ensures options1.includeSummary == options2.includeSummary
  {
    assert HeaderLines(options1)[..SummaryLineNo] == HeaderLines(options2)[..SummaryLineNo];
    PromptSummaryLine(text1, options1);
    PromptSummaryLine(text2, options2);
  }

  /**
   * The prompt determines its inputs: two calls give the same prompt only
   * for the same text and the same options.
   */
  lemma {:induction false} PromptInjective(text1: string, options1: FormattingOptions, text2: string, options2: FormattingOptions)
    ensures Prompt(text1, options1) == Prompt(text2, options2) <==> text1 == text2 && options1 == options2
  {
    if Prompt(text1, options1) == Prompt(text2, options2) {
      PromptDeterminesTone(text1, options1, text2, options2);
      PromptDeterminesGrammar(text1, options1, text2, options2);
      PromptDeterminesSummary(text1, options1, text2, options2);
      LastLineInjective(HeaderLines(options1), RawTextIndent, text1, text2, ClosingIndent);
    }
  }

  /** What a successful reply without text is replaced by. */
  const EmptyReplySentinel := "Failed to generate formatted text."
  /** The message of the one error every service failure is turned into. */
  const ServiceFailureMessage := "Failed to connect to the formatting service."

  /**
   * What the generation service does with the one request it is sent: it
   * answers with a text that may be missing or empty, or the call throws.
   */
  datatype ServiceReply = Answered(text: Option<string>) | Failed

  /** How the returned promise settles: with a string, or rejected with an error message. */
  datatype Settlement = Resolved(value: string) | Rejected(message: string)

  /** How the adapter turns the service's reply into its own result. */
  function SettleReply(reply: ServiceReply): (r: Settlement)
    ensures r.Rejected? <==> reply.Failed?
    ensures r.Rejected? ==> r.message == ServiceFailureMessage
    ensures r.Resolved? ==> r.value != ""
    ensures reply.Answered? && reply.text.Some? && reply.text.value != "" ==> r == Resolved(reply.text.value)
    ensures reply.Answered? && (reply.text.None? || reply.text.value == "") ==> r == Resolved(EmptyReplySentinel)
  {
    match reply
    case Answered(Some(s)) => Resolved(if s != "" then s else EmptyReplySentinel)
    case Answered(None) => Resolved(EmptyReplySentinel)
    case Failed => Rejected(ServiceFailureMessage)
  }

  /**
   * `formatTextWithAI`: blank text resolves to "" without contacting the
   * service; any other text is sent as one prompt, and the reply is settled
   * by `SettleReply`. `sent` lists the prompts the service received.
   */
  method FormatTextWithAI(text: string, options: FormattingOptions, reply: ServiceReply)
    returns (r: Settlement, sent: seq<string>)
    ensures IsBlank(text) ==> r == Resolved("") && sent == []
    ensures !IsBlank(text) ==> sent == [Prompt(text, options)] && r == SettleReply(reply)
    ensures !IsBlank(text) && r.Resolved? ==> r.value != ""
  {
    if IsBlank(text) {
      return Resolved(""), [];
    }
    sent := [Prompt(text, options)];
    r := SettleReply(reply);
  }
}
