/**
 * The export stage of the preview pane (components/PreviewArea.tsx,
 * `handleDownload`): for each export type, what is handed to the browser.
 * The clock, the rendered preview element and the PDF generator's presence
 * are parameters; the browser's download, alert and PDF capabilities are
 * represented by the action the function returns.
 */
module PreviewArea {
  import opened Js
  import opened TextLines

  /** The argument of `handleDownload`. */
  datatype ExportType = Md | Html | Txt | Pdf | Doc

  /** The options object handed to the PDF generator. */
  datatype PdfOptions = PdfOptions(
    margin: seq<real>,
    filename: string,
    imageType: string,
    imageQuality: real,
    scale: int,
    useCors: bool,
    unit: string,
    format: string,
    orientation: string)

  /** What one call of `handleDownload` asks of the browser. */
  datatype DownloadAction =
    | Ignored                                                      // no preview element to print from
    | Notice(message: string)                                      // an alert, nothing saved
    | SavePdf(options: PdfOptions, source: string)                 // the PDF generator run on the preview element
    | SaveFile(parts: seq<string>, mimeType: string, filename: string)  // a blob downloaded under a name

  const FilenamePrefix := "proformat-export-"
  const PdfNotReadyNotice := "PDF generator is initializing. Please try again in a moment."
  const ByteOrderMark := "\U{FEFF}"

  /** The document roots: plain HTML, and HTML that declares Word's namespaces. */
  const HtmlRoot := "<!DOCTYPE html><html>"
  const OfficeNamespace := "xmlns:o='urn:schemas-microsoft-com:office:office'"
  const WordNamespace := "xmlns:w='urn:schemas-microsoft-com:office:word'"
  const Html40Namespace := "xmlns='http://www.w3.org/TR/REC-html40'"
  /** The Word root: the Office namespace, then the rest of the element. */
  const DocRoot := "<html " + OfficeNamespace + DocRootRest
  /** The Word namespace, then the HTML 4.0 namespace and the closing bracket. */
  const DocRootRest := " " + WordNamespace + " " + Html40Namespace + ">"

  /** The exported document's colours: dark text on white, whatever the page's theme. */
  const LightColors := "color: #111827; background: #ffffff;"
  const BodyLayout := "body { font-family: 'Inter', sans-serif; line-height: 1.6; max-width: 800px; margin: 2rem auto; padding: 0 1rem; "
  const HeadingsRule := "h1, h2, h3, h4, h5, h6 { color: #111827; font-weight: 700; margin-top: 1.5em; margin-bottom: 0.5em; }"
  const ParagraphRule := "p { margin-bottom: 1em; }"
  const ListRule := "ul, ol { margin-bottom: 1em; padding-left: 1.5em; }"
  const ListItemRule := "li { margin-bottom: 0.25em; }"
  const StrongRule := "strong { font-weight: 600; }"
  const BlockquoteRule := "blockquote { border-left: 4px solid #e5e7eb; padding-left: 1em; color: #4b5563; font-style: italic; }"
  const ForceColorComment := "/* Force text color for export, ignoring current theme */"
  const ContentRule := ".content { color: #111827 !important; }"
  const ContentChildrenRule := ".content * { color: #111827; }"
  const StyleIndent := "            "
  const HeadOpen := "        <head>"
  const MetaCharset := "          <meta charset=\"utf-8\">"
  const TitleLine := "          <title>Formatted Document</title>"
  const StyleOpen := "          <style>"
  const StyleClose := "          </style>"
  const HeadClose := "        </head>"
  const BodyOpen := "        <body>"
  const BodyClose := "        </body>"
  const HtmlClose := "        </html>"
  const ContentOpen := "          <div class=\"content\">"
  const ContentClose := "</div>"

  // Line numbers (from 0) in the exported document.
  const BodyRuleLineNo := 6
  const ContentRuleLineNo := 14
  const ContentChildrenRuleLineNo := 15
  const ContentLineNo := 19

  /** The lines of the wrapper document in front of the content division: the root, the head and its styles. */
  function HeadLines(root: string): (lines: seq<string>)
    ensures |lines| == ContentLineNo
  {
    [ "",
      "        " + root,
      HeadOpen,
      MetaCharset,
      TitleLine,
      StyleOpen,
      StyleIndent + BodyLayout + LightColors + " }",
      StyleIndent + HeadingsRule,
      StyleIndent + ParagraphRule,
      StyleIndent + ListRule,
      StyleIndent + ListItemRule,
      StyleIndent + StrongRule,
      StyleIndent + BlockquoteRule,
      StyleIndent + ForceColorComment,
      StyleIndent + ContentRule,
      StyleIndent + ContentChildrenRule,
      StyleClose,
      HeadClose,
      BodyOpen ]
  }

  /** The line holding the exported body inside the content division. */
  function ContentLine(body: string): string {
    ContentOpen + body + ContentClose
  }

  /** The content division's line and the lines that close the document. */
  function TailLines(body: string): seq<string> {
    [ContentLine(body), BodyClose, HtmlClose]
  }

  /** The wrapper document of components/PreviewArea.tsx:60-82 (the `htmlContent` template), with `root` and `body` filled in. */
  function HtmlDocument(root: string, body: string): string {
    Unlines(HeadLines(root) + TailLines(body)) + "      "
  }

  /** `element?.innerHTML || content`: the rendered HTML unless the element is missing or empty. */
  function BodyOf(preview: Option<string>, content: string): string {
    if preview.Some? && preview.value != "" then preview.value else content
  }

  /** The options for the PDF generator, for the file name stem `filename`. */
  function PdfExportOptions(filename: string): PdfOptions {
    PdfOptions(
      margin := [0.5, 0.5],
      filename := filename + ".pdf",
      imageType := "jpeg",
      imageQuality := 0.98,
      scale := 2,
      useCors := true,
      unit := "in",
      format := "letter",
      orientation := "portrait")
  }

  /** The name stem every export shares: the prefix and the clock reading in decimal. */
  function FilenameStem(now: nat): string {
    FilenamePrefix + Decimal(now)
  }

  /** The extension each export type's file gets. */
  function Extension(kind: ExportType): (ext: string)
    ensures |ext| >= 3 && ext[0] == '.'
  {
    match kind
    case Md => ".md"
    case Html => ".html"
    case Txt => ".txt"
    case Pdf => ".pdf"
    case Doc => ".doc"
  }

  /** The MIME type of each downloaded blob. */
  function MimeType(kind: ExportType): string
    requires kind != Pdf
  {
    match kind
    case Md => "text/markdown"
    case Html => "text/html"
    case Txt => "text/plain"
    case Doc => "application/msword"
  }

  /** The document root each markup export uses. */
  function Root(kind: ExportType): string
    requires kind == Html || kind == Doc
  {
    if kind == Doc then DocRoot else HtmlRoot
  }

  /** The HTML and Word branch: the wrapper document, with the type's root, behind a byte order mark. */
  function MarkupFile(kind: ExportType, body: string, filename: string): DownloadAction
    requires kind == Html || kind == Doc
  {
    SaveFile([ByteOrderMark, HtmlDocument(Root(kind), body)], MimeType(kind), filename + Extension(kind))
  }

  /** The text a blob holds: its parts one after another. */
  function Payload(parts: seq<string>): string {
    if parts == [] then "" else parts[0] + Payload(parts[1..])
  }

  /**
   * `handleDownload(kind)`, given the file's content, the preview element's
   * HTML (`None` when there is no element), the clock reading and whether
   * the PDF generator has loaded.
   */
  function Download(kind: ExportType, content: string, preview: Option<string>, now: nat, pdfGeneratorLoaded: bool): (action: DownloadAction)
    ensures action.SaveFile? <==> kind != Pdf
    ensures action.SaveFile? ==> action.mimeType == MimeType(kind) && action.filename == FilenameStem(now) + Extension(kind)
    ensures action.SavePdf? ==> action.options.filename == FilenameStem(now) + Extension(Pdf)
    ensures kind == Pdf ==> (action.Ignored? <==> preview.None?)
    ensures kind == Pdf ==> (action.Notice? <==> preview.Some? && !pdfGeneratorLoaded)
  {
    var filename := FilenameStem(now);
    if kind == Pdf then
      if preview.None? then Ignored
      else if pdfGeneratorLoaded then SavePdf(PdfExportOptions(filename), preview.value)
      else Notice(PdfNotReadyNotice)
    else if kind == Html || kind == Doc then
      MarkupFile(kind, BodyOf(preview, content), filename)
    else
      SaveFile([content], MimeType(kind), filename + Extension(kind))
  }

  /** Markdown and plain text exports hand over the content unchanged. */
  lemma PassthroughExport(kind: ExportType, content: string, preview: Option<string>, now: nat, loaded: bool)
    requires kind == Md || kind == Txt
    ensures var action := Download(kind, content, preview, now, loaded);
      && action.SaveFile?
      && Payload(action.parts) == content
      && action.mimeType == (if kind == Md then "text/markdown" else "text/plain")
  {
    assert [content][1..] == [];
  }

  /** The lines in front of the content division sit at places that depend on the root alone. */
  lemma {:induction false} DocumentLineAt(root: string, body: string, i: nat)
    requires 1 <= i < ContentLineNo
    ensures LineAt(HtmlDocument(root, body), LineStart(HeadLines(root), i), HeadLines(root)[i])
  {
    HeadLineAt(HeadLines(root), TailLines(body), "      ", i);
  }

  /** The wrapper document opens with an empty line and then the indented root element. */
  lemma {:induction false} DocumentOpensWithRoot(root: string, body: string)
    ensures LineAt(HtmlDocument(root, body), 1, "        " + root)
  {
    var lines := HeadLines(root) + TailLines(body);
    assert lines[0] == "" && lines[1] == "        " + root;
    SecondLineAt(lines, "      ");
  }

  /** The content division's line holds the body, right after the head, whatever the body. */
  lemma {:induction false} DocumentContentLine(root: string, body: string)
    ensures LineAt(HtmlDocument(root, body), |Unlines(HeadLines(root))|, ContentLine(body))
  {
    assert TailLines(body) == [ContentLine(body)] + [BodyClose, HtmlClose];
    LineAfterHead(HeadLines(root), ContentLine(body), [BodyClose, HtmlClose], "      ");
  }

  /**
   * HTML and Word exports hand over a byte order mark followed by the
   * wrapper document with the type's root element and, as body, the
   * preview's HTML or, failing that, the content.
   */
  lemma MarkupExport(kind: ExportType, content: string, preview: Option<string>, now: nat, loaded: bool)
    requires kind == Html || kind == Doc
    ensures var action := Download(kind, content, preview, now, loaded);
      && action.SaveFile?
      && Payload(action.parts) == ByteOrderMark + HtmlDocument(Root(kind), BodyOf(preview, content))
  {
    var doc := HtmlDocument(Root(kind), BodyOf(preview, content));
    assert Download(kind, content, preview, now, loaded) == MarkupFile(kind, BodyOf(preview, content), FilenameStem(now));
    assert [ByteOrderMark, doc][1..] == [doc] && [doc][1..] == [];
    assert Payload([ByteOrderMark, doc]) == ByteOrderMark + (doc + Payload([]));
  }

  /**
   * Both markup documents force the light palette: the body rule's line,
   * at a place that depends only on the root and never on the exported
   * text, sets dark text on a white background.
   */
  lemma {:induction false} MarkupForcesLightTheme(root: string, body: string)
    ensures OccursAt(HtmlDocument(root, body), LineStart(HeadLines(root), BodyRuleLineNo) + |StyleIndent + BodyLayout|, LightColors)
  {
    HeadLineOccurs(HeadLines(root), TailLines(body), "      ", BodyRuleLineNo, StyleIndent + BodyLayout, LightColors, " }");
  }

  /** The content rules, which also force dark text, are whole lines at places independent of the text. */
  lemma {:induction false} MarkupContentRules(root: string, body: string)
    ensures var doc, lines := HtmlDocument(root, body), HeadLines(root);
      && LineAt(doc, LineStart(lines, ContentRuleLineNo), StyleIndent + ContentRule)
      && LineAt(doc, LineStart(lines, ContentChildrenRuleLineNo), StyleIndent + ContentChildrenRule)
  {
    DocumentLineAt(root, body, ContentRuleLineNo);
    DocumentLineAt(root, body, ContentChildrenRuleLineNo);
  }

  /** The Word root declares the Office and Word namespaces. */
  lemma DocRootNamespaces()
    ensures OccursAt(DocRoot, 6, OfficeNamespace)
    ensures OccursAt(DocRoot, 7 + |OfficeNamespace|, WordNamespace)
  {
    OccursInConcat("<html ", OfficeNamespace, DocRootRest);
    OccursInConcat(" ", WordNamespace, " " + Html40Namespace + ">");
    OccursAtEnd("<html " + OfficeNamespace, DocRootRest);
    OccursWithin(DocRoot, 6 + |OfficeNamespace|, DocRootRest, 1, WordNamespace);
  }

  /**
   * The PDF export does nothing without a preview element, only shows the
   * retry-later notice while the generator is loading, and otherwise runs
   * the generator on the element with half-inch margins, scale 2, letter
   * paper in portrait orientation and a `.pdf` name.
   */
  lemma PdfExport(content: string, preview: Option<string>, now: nat, loaded: bool)
    ensures var action := Download(Pdf, content, preview, now, loaded);
      && (preview.None? ==> action == Ignored)
      && (preview.Some? && !loaded ==> action == Notice(PdfNotReadyNotice))
      && (preview.Some? && loaded ==>
            && action.SavePdf? && action.source == preview.value
            && action.options.margin == [0.5, 0.5]
            && action.options.scale == 2
            && action.options.format == "letter"
            && action.options.orientation == "portrait"
            && action.options.unit == "in"
            && action.options.filename == FilenameStem(now) + ".pdf")
  {
  }

  /**
   * File names identify the export: two downloads get the same name only
   * when they read the same clock value and have the same type's extension.
   */
  lemma {:induction false} FilenameUnique(now1: nat, kind1: ExportType, now2: nat, kind2: ExportType)
    ensures FilenameStem(now1) + Extension(kind1) == FilenameStem(now2) + Extension(kind2)
      <==> now1 == now2 && Extension(kind1) == Extension(kind2)
  {
    var d1, d2 := Decimal(now1), Decimal(now2);
    var e1, e2 := Extension(kind1), Extension(kind2);
    var n1, n2 := FilenameStem(now1) + e1, FilenameStem(now2) + e2;
    if n1 == n2 {
      assert n1[|FilenamePrefix|..] == d1 + e1;
      assert n2[|FilenamePrefix|..] == d2 + e2;
      assert d1 == (d1 + e1)[..|d1|];
      assert d2 == (d2 + e2)[..|d2|];
      DecimalInjective(now1, now2);
    }
  }
}
