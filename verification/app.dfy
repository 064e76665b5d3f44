/**
 * The page's request state machine (App.tsx): the four state variables and
 * the options, the format and clear handlers, and which panel the preview
 * column shows.
 */
module AppComponent {
  import opened Js
  import opened Types
  import opened GeminiService

  /** The one message every failed format request shows. */
  const GenericErrorMessage := "Something went wrong with the AI service. Please check your connection or API limit."

  /** The options the page starts with: professional tone, grammar fixing on, no summary. */
  const DefaultOptions := FormattingOptions(tone := Professional, includeSummary := false, fixGrammar := true)

  /** What the preview column shows. */
  datatype Panel =
    | ErrorPanel(message: string)     // the error box with its "Try Again" button
    | Spinner(tone: Tone)             // the progress indicator naming the tone
    | Preview(content: string, isPlaceholder: bool)

  /**
   * The display precedence: an error (a non-empty string, as JavaScript
   * truthiness has it) wins over processing, which wins over the preview;
   * the preview is a placeholder exactly when there is no formatted text.
   */
  function SelectPanel(error: Option<string>, isProcessing: bool, formattedText: string, tone: Tone): (panel: Panel)
    ensures panel.ErrorPanel? <==> error.Some? && error.value != ""
    ensures panel.ErrorPanel? ==> panel.message == error.value
    ensures panel.Spinner? <==> (error.None? || error.value == "") && isProcessing
    ensures panel.Spinner? ==> panel.tone == tone
    ensures panel.Preview? ==> panel.content == formattedText && (panel.isPlaceholder <==> formattedText == "")
  {
    if error.Some? && error.value != "" then ErrorPanel(error.value)
    else if isProcessing then Spinner(tone)
    else Preview(formattedText, formattedText == "")
  }

  class App {
    var inputText: string
    var formattedText: string
    var isProcessing: bool
    var error: Option<string>
    var options: FormattingOptions

    /** The error, when there is one, is the generic message. */
    ghost predicate Valid()
      reads this
    {
      error == None || error == Some(GenericErrorMessage)
    }

    /** The panel the preview column currently shows. */
    function View(): Panel
      reads this
    {
      SelectPanel(error, isProcessing, formattedText, options.tone)
    }

    /** The initial state: empty input and result, no error, idle, default options. */
    constructor ()
      ensures Valid()
      ensures inputText == "" && formattedText == "" && !isProcessing && error == None
      ensures options == DefaultOptions
    {
      inputText := "";
      formattedText := "";
      isProcessing := false;
      error := None;
      options := DefaultOptions;
    }

    /** The text area's change handler. */
    method SetInputText(text: string)
      modifies this`inputText
      ensures inputText == text
    {
      inputText := text;
    }

    /** The toolbar's options change handler. */
    method SetOptions(newOptions: FormattingOptions)
      modifies this`options
      ensures options == newOptions
    {
      options := newOptions;
    }

    /** What `handleFormat` does before it awaits the service. */
    method BeginFormat()
      modifies this`isProcessing, this`error, this`formattedText
      ensures Valid()
      ensures isProcessing && error == None && formattedText == ""
    {
      isProcessing := true;
      error := None;
      formattedText := "";
    }

    /**
     * What `handleFormat` does once the service call settles: store the
     * result, or replace whatever the adapter threw by the generic message;
     * in every case processing ends.
     */
    method SettleFormat(r: Settlement)
      requires Valid()
      modifies this`isProcessing, this`error, this`formattedText
      ensures Valid()
      ensures !isProcessing
      ensures r.Resolved? ==> formattedText == r.value && error == old(error)
      ensures r.Rejected? ==> formattedText == old(formattedText) && error == Some(GenericErrorMessage)
      ensures r.Rejected? ==> View() == ErrorPanel(GenericErrorMessage)
      ensures r.Resolved? && r.value != "" && old(error) == None ==> View() == Preview(r.value, false)
    {
      match r {
        case Resolved(result) =>
          formattedText := result;
        case Rejected(_) =>
          error := Some(GenericErrorMessage);
      }
      isProcessing := false;
    }

    /**
     * `handleFormat`, with the service's reply as a parameter. Blank input
     * changes nothing and reaches no service. Otherwise exactly one prompt,
     * built from the current input and options, is sent; afterwards the
     * result or the generic error is stored and processing is off, so the
     * preview column shows the error or a non-placeholder preview.
     */
    method HandleFormat(reply: ServiceReply) returns (sent: seq<string>)
      requires Valid()
      modifies this
      ensures Valid()
      ensures inputText == old(inputText) && options == old(options)
      ensures IsBlank(old(inputText)) ==>
        && sent == []
        && formattedText == old(formattedText) && isProcessing == old(isProcessing) && error == old(error)
      ensures !IsBlank(old(inputText)) ==>
        && sent == [Prompt(old(inputText), old(options))]
        && !isProcessing
        && (reply.Failed? ==> formattedText == "" && error == Some(GenericErrorMessage))
        && (reply.Answered? ==> formattedText == SettleReply(reply).value && error == None)
        && View() == (if reply.Failed? then ErrorPanel(GenericErrorMessage) else Preview(formattedText, false))
    {
      var text, opts := inputText, options;
      if IsBlank(text) {
        return [];
      }
      BeginFormat();
      var r;
      r, sent := FormatTextWithAI(text, opts, reply);
      assert r == SettleReply(reply) && (r.Resolved? ==> r.value != "");
      SettleFormat(r);
    }

    /**
     * The error panel's "Try Again" button: it runs `HandleFormat` again on
     * the input and options as they are now, not on those of the failed
     * request.
     */
    method TryAgain(reply: ServiceReply) returns (sent: seq<string>)
      requires Valid() && View().ErrorPanel?
      modifies this
      ensures Valid()
      ensures inputText == old(inputText) && options == old(options)
      ensures IsBlank(old(inputText)) ==>
        && sent == []
        && formattedText == old(formattedText) && isProcessing == old(isProcessing) && error == old(error)
      ensures !IsBlank(old(inputText)) ==>
        && sent == [Prompt(old(inputText), old(options))]
        && !isProcessing
        && (reply.Failed? ==> formattedText == "" && error == Some(GenericErrorMessage))
        && (reply.Answered? ==> formattedText == SettleReply(reply).value && error == None)
        && View() == (if reply.Failed? then ErrorPanel(GenericErrorMessage) else Preview(formattedText, false))
    {
      sent := HandleFormat(reply);
    }

    /** `handleClear`, with the user's answer to the confirmation dialog as a parameter. */
    method HandleClear(confirmed: bool)
      requires Valid()
      modifies this
      ensures Valid()
      ensures options == old(options) && isProcessing == old(isProcessing)
      ensures confirmed ==> inputText == "" && formattedText == "" && error == None
      ensures !confirmed ==> inputText == old(inputText) && formattedText == old(formattedText) && error == old(error)
    {
      if confirmed {
        inputText := "";
        formattedText := "";
        error := None;
      }
    }
  }
}
