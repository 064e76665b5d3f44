# ProFormat AI core, modelled in Dafny

ProFormat AI is a single-page React application. The user pastes plain text,
picks a tone and two yes/no options, has an external text-generation service
rewrite the text as Markdown, and exports the result. This project models
the part of it that has contracts:

- **Types** (`types.dfy`): the `Tone` and `FormatOption` enumerations with
  their string values, and the `FormattingOptions` record. All three of its
  fields are mandatory, so an options value is always fully populated.
- **Prompt builder and generation adapter** (`gemini_service.dfy`): the
  instruction string built from the raw text and the options, and
  `formatTextWithAI`. The service's reply to the one call is a parameter:
  an answer whose text may be missing or empty, or a failure.
- **Request state machine** (`app.dfy`): the page's state variables
  `inputText`, `formattedText`, `isProcessing`, `error` and `options` as a
  class. `handleFormat` is split at its `await` into `BeginFormat` and
  `SettleFormat`. `handleClear` takes the user's confirmation as a parameter.
  `SelectPanel` is the rule that picks what the preview column shows.
- **Export** (`preview_area.dfy`): `handleDownload` as a pure function. For
  each of the five export types it gives what is handed to the browser: a file
  (its blob parts, MIME type and name), a PDF generation with its options, a
  notice, or nothing. The clock reading, the preview element's rendered HTML
  and whether the PDF generator has loaded are parameters.
- **Support** (`js.dfy`, `text_lines.dfy`): the JavaScript built-ins that
  the core uses. These are `String.prototype.trim` and the decimal rendering
  of `Date.now()` in a template literal. There are also lemmas that place the
  lines of multi-line text assembled line by line, the way the two template
  literals are.

The prompt is a Dafny function, so equal inputs always give the same prompt.
`PromptInjective` proves the converse as well: equal prompts come only from
equal inputs.

The model follows the code on points where its behaviour is easy to misread:

- The code has no request counter and no cancellation token. A late reply
  from an earlier request is not discarded.
- "Try Again" re-runs the format handler on the input and options as they
  are at that moment. It does not re-run a stored copy of the failed request.
- When no summary is wanted, the prompt still has the `- Include Summary:`
  line, with the value "No.".
- Blank input is checked twice: by the page and again by `formatTextWithAI`,
  which returns "" for it.
- Both the HTML export and the Word export start with a byte order mark.
- The PDF margin is the two-element list `[0.5, 0.5]`.

## Model

| member | source | states |
|---|---|---|
| Types.ToneName | types.ts:1-7 | each tone's string value contains no newline, so it stays within the prompt's `- Tone:` line |
| Types.ToneHasFiveMembers | types.ts:1-7 | every tone is one of the five listed, and there are exactly five |
| Types.ToneNameInjective | types.ts:2-6 | two tones have the same string value only if they are the same tone; Executive's value is "Executive Summary" |
| Types.FormatOptionHasFiveMembers | types.ts:9-15 | `FormatOption` has exactly five members, with pairwise distinct string values |
| Js.TrimStart | services/geminiService.ts:7 | `trim` removes exactly the longest run of whitespace at the start |
| Js.TrimEnd | services/geminiService.ts:7 | `trim` removes exactly the longest run of whitespace at the end |
| Js.Trim | services/geminiService.ts:7 | no contract of its own: `TrimEnd` after `TrimStart`, whose contracts state what is removed |
| Js.IsBlank | App.tsx:35 | no contract of its own; `BlankIffTrimEmpty` proves it is the `!text.trim()` test and `BlankIffAllWhiteSpace` says what it accepts |
| Js.BlankIffAllWhiteSpace | App.tsx:35 | a text is blank exactly when every one of its characters is whitespace |
| Js.BlankIffTrimEmpty | services/geminiService.ts:7 | the blank test is `!text.trim()`: a text is blank exactly when trimming it leaves "" |
| Js.Decimal | components/PreviewArea.tsx:22 | the clock reading is rendered as one or more digits with no leading zero |
| Js.DecimalRoundTrip | components/PreviewArea.tsx:22 | reading the rendered digits back gives the clock reading |
| Js.DecimalInjective | components/PreviewArea.tsx:22 | distinct clock readings render to distinct strings |
| GeminiService.Prompt | services/geminiService.ts:9-27 | no contract of its own; the `Prompt…` lemmas below place each line of the template and prove that the prompt determines its inputs |
| GeminiService.PromptHeaderLine | services/geminiService.ts:9-25 | each instruction line of the template is a whole line of the prompt, at a place that does not depend on the raw text |
| GeminiService.PromptToneLine | services/geminiService.ts:14 | the `- Tone:` line is a whole line that holds the tone's string verbatim |
| GeminiService.PromptGrammarLine | services/geminiService.ts:15 | the `- Fix Grammar:` line reads "Yes, ensure perfect grammar and punctuation." if and only if fixGrammar holds, and "No, keep original phrasing mostly intact." if and only if it does not |
| GeminiService.PromptSummaryLine | services/geminiService.ts:16 | the `- Include Summary:` line is always present; it reads "Yes, add a brief executive summary at the top." if and only if includeSummary holds, and "No." if and only if it does not |
| GeminiService.PromptRawTextSection | services/geminiService.ts:26-27 | the raw text appears verbatim in the last line, after its four-space indentation; only a newline and the closing indentation follow it |
| GeminiService.PromptRawTextFollowsHeading | services/geminiService.ts:25-26 | `Raw Text:` is a whole line, and it ends right before the raw text's line |
| GeminiService.PromptHeaderBeforeRawText | services/geminiService.ts:10-25 | every line in front of the `Raw Text:` heading ends before the heading starts: the intro, the configuration and the numbered instructions |
| GeminiService.PromptDeterminesTone | services/geminiService.ts:14 | two equal prompts were built with the same tone |
| GeminiService.PromptDeterminesGrammar | services/geminiService.ts:15 | two equal prompts built with the same tone were built with the same grammar choice |
| GeminiService.PromptDeterminesSummary | services/geminiService.ts:16 | two equal prompts built with the same tone and grammar choice were built with the same summary choice |
| GeminiService.PromptInjective | services/geminiService.ts:9-27 | two prompts are equal exactly when their texts and their options are equal |
| GeminiService.SettleReply | services/geminiService.ts:29-39 | the promise rejects, always with "Failed to connect to the formatting service.", exactly when the call fails; an answer with text resolves to that text; a missing or empty answer resolves to "Failed to generate formatted text."; a resolved value is never empty |
| GeminiService.FormatTextWithAI | services/geminiService.ts:6-40 | blank text resolves to "" and the service gets no request; otherwise the service gets exactly one request, which is the prompt for the text and options, and the reply is settled as `SettleReply` says, never resolving to "" |
| AppComponent.App.View | App.tsx:141-163 | no contract of its own: `SelectPanel` applied to the page's state, so it has the precedence `SelectPanel` states |
| AppComponent.SelectPanel | App.tsx:141-163 | the error panel shows exactly when the error is a non-empty string; otherwise the spinner shows exactly when processing; otherwise the preview shows, as a placeholder exactly when the formatted text is empty |
| AppComponent.App.constructor | App.tsx:9-18 | the page starts with empty input and result, no error and no processing, and with the options Professional tone, grammar fixing on and no summary |
| AppComponent.App.SetInputText | App.tsx:131 | editing the text area replaces the input text |
| AppComponent.App.SetOptions | App.tsx:89 | the toolbar replaces the options |
| AppComponent.App.BeginFormat | App.tsx:37-39 | before the service is called, processing is on, the error is cleared and the old result is cleared |
| AppComponent.App.SettleFormat | App.tsx:46-57 | a resolved call stores its result; a rejected one sets the generic error and leaves the result as it was; processing is off either way; the view then shows the error panel or the new result |
| AppComponent.App.HandleFormat | App.tsx:34-58 | blank input changes no state and sends nothing; otherwise exactly one prompt is sent, built from the current input and options. Afterwards processing is off. A failure leaves the result "" and sets the generic error. A success stores the returned text and leaves no error. The view is the error panel or a preview that is not a placeholder. The input and the options are unchanged. |
| AppComponent.App.TryAgain | App.tsx:146-148 | "Try Again" runs the format handler on the input and options as they are at that moment, not on those of the failed request. It sends their prompt and leaves exactly the state `HandleFormat` states: blank input changes nothing; otherwise processing is off, and the result or the generic error follows from the reply and shows in the view. |
| AppComponent.App.HandleClear | App.tsx:60-66 | a confirmed clear empties the input and the result and clears the error; options and processing are unchanged; an unconfirmed clear changes nothing |
| PreviewArea.Download | components/PreviewArea.tsx:20-91 | every type except pdf downloads a file whose MIME type and name extension match the type, named `proformat-export-<clock reading>` plus the extension; pdf does nothing without the element, and only shows the notice while the generator is loading |
| PreviewArea.FilenameStem | components/PreviewArea.tsx:22 | no contract of its own: `proformat-export-` and the clock reading in decimal; `FilenameUnique` proves it keeps distinct readings apart |
| PreviewArea.MimeType | components/PreviewArea.tsx:48-90 | no contract of its own: the MIME type of each type's blob; `Download` ties every file to it and `PassthroughExport` names the md and txt values |
| PreviewArea.BodyOf | components/PreviewArea.tsx:79 | no contract of its own: `element?.innerHTML \|\| content`; `MarkupExport` and `DocumentContentLine` show it is the exported body |
| PreviewArea.PdfExportOptions | components/PreviewArea.tsx:29-35 | no contract of its own; `PdfExport` states its margin, scale, unit, paper, orientation and `.pdf` name |
| PreviewArea.HtmlDocument | components/PreviewArea.tsx:60-82 | no contract of its own; `DocumentLineAt`, `DocumentOpensWithRoot`, `DocumentContentLine`, `MarkupForcesLightTheme` and `MarkupContentRules` place its lines |
| PreviewArea.Extension | components/PreviewArea.tsx:50-90 | every extension starts with a dot |
| PreviewArea.PassthroughExport | components/PreviewArea.tsx:48-91 | the md and txt exports hand over exactly the content, as text/markdown and text/plain respectively |
| PreviewArea.DocumentLineAt | components/PreviewArea.tsx:60-78 | each line of the wrapper document in front of the content division is a whole line at a place that depends on the root alone, never on the body |
| PreviewArea.DocumentOpensWithRoot | components/PreviewArea.tsx:60-61 | the wrapper document opens with an empty line and then the indented root element |
| PreviewArea.DocumentContentLine | components/PreviewArea.tsx:79 | the content division holds the body verbatim as a whole line, right after the head lines, whatever the body |
| PreviewArea.MarkupExport | components/PreviewArea.tsx:51-87 | the html and doc payloads are a byte order mark followed by the wrapper document. The document's root is the type's root element. Its body is the preview element's HTML, or the content when the element is missing or its HTML is empty. |
| PreviewArea.MarkupForcesLightTheme | components/PreviewArea.tsx:66 | both wrappers set `color: #111827; background: #ffffff;` in the body rule, at a place that depends on the root alone, whatever is exported |
| PreviewArea.MarkupContentRules | components/PreviewArea.tsx:74-75 | the two `.content` rules that force dark text are whole lines of both wrappers |
| PreviewArea.DocRootNamespaces | components/PreviewArea.tsx:55-56 | the Word root element declares the Office and the Word namespaces |
| PreviewArea.PdfExport | components/PreviewArea.tsx:26-44 | pdf does nothing without the element and only shows the retry-later notice while the generator is loading. Otherwise it generates from the element with margin [0.5, 0.5], scale 2, letter paper, portrait orientation, inches, and the file name ends in `.pdf`. |
| PreviewArea.FilenameUnique | components/PreviewArea.tsx:22 | two exports get the same file name only with the same clock reading and the same extension |

## Left out

- The Gemini client, its API key, the model name and the `generateContent` call (services/geminiService.ts:1-4, 30-33). This is an opaque network service. Its reply is the `ServiceReply` parameter. The `console.error` logging is also left out.
- The Markdown-to-HTML rendering of the preview. It is done by a library. The preview element's rendered HTML is a parameter (`None` when the element is missing).
- The browser capabilities: downloading a blob through an anchor, `window.print` (`handlePrint`), the clipboard (`handleCopy`), and the `copied` flag with its timer. `alert` becomes the `Notice` action and `confirm` becomes a parameter. The PDF rasterisation is represented by the `SavePdf` action and its options.
- The image quality 0.98 and `useCORS` are carried as values in the PDF options. No property is stated about them.
- The resize listener and the mobile tab switching (`activeTab`, `window.innerWidth`). They are layout, not state the core depends on.
- components/Toolbar.tsx: it is form widgets. Its one rule, the format button being disabled while processing or when the input is empty, is not part of this model.
- The `GeneratedContent` interface (types.ts:23-27). Nothing in the core uses it.
- AppComponent.App.HandleFormat: it runs from start to finish in one step. Events handled during the `await` are not modelled: edits, a clear, or a second format. The code has no protection against overlapping requests, and the model claims none.
- AppComponent.SelectPanel: the spinner carries the tone. It does not carry the lower-cased tone text that the page displays.
- Strings are sequences of Unicode characters. The UTF-8 encoding of the blob and of the byte order mark is not modelled.
- `Date.now()` is taken to be a non-negative integer.
