/**
 * The popup page as an object: the result area's text, the summary-type selection,
 * the read-aloud globals and the engine's speaking flag, updated in place by one method
 * per handler of the page. Ghost logs record what the page asks of the platform:
 * `speechSynthesis` calls, clipboard writes and started summarisations.
 */
module Popup {
  import opened Wrappers
  import JsText
  import GeminiClient
  import Summarise
  import Speech

  /** A `keydown` event: its `code` and the tag name of its target element. */
  datatype KeyEvent = KeyEvent(code: string, targetTag: string)

  /** Events typed into a text field are left to the field. */
  predicate FromTextField(e: KeyEvent)
  {
    e.targetTag == "INPUT" || e.targetTag == "TEXTAREA"
  }

  /**
   * The key codes whose default browser behaviour the handler suppresses: Space, Tab and
   * exactly the digit keys that select a summary type.
   */
  predicate Suppressed(code: string): (b: bool)
    ensures b <==> code == "Space" || code == "Tab" || DigitSelection(code).Some?
  {
    code in {"Space", "Tab", "Digit1", "Digit2", "Digit3"}
  }

  /**
   * The summary type a digit key selects and the announcement made for it: Digit1, Digit2
   * and Digit3 pick the brief, detailed and bullet-point templates; other keys pick nothing.
   */
  function DigitSelection(code: string): (sel: Option<(string, string)>)
    ensures sel.Some? <==> code in {"Digit1", "Digit2", "Digit3"}
    ensures code == "Digit1" ==> sel.Some? && GeminiClient.KindOf(sel.value.0) == GeminiClient.Brief
    ensures code == "Digit2" ==> sel.Some? && GeminiClient.KindOf(sel.value.0) == GeminiClient.Detailed
    ensures code == "Digit3" ==> sel.Some? && GeminiClient.KindOf(sel.value.0) == GeminiClient.Bullets
  {
    if code == "Digit1" then Some(("brief", "Brief summary selected."))
    else if code == "Digit2" then Some(("detailed", "Detailed summary selected."))
    else if code == "Digit3" then Some(("bullets", "Bullet summary selected."))
    else None
  }

  /**
   * The clipboard writes `copySummaryToClipboard` makes for the result text: none when the
   * text is all white space, otherwise one write of the trimmed, non-empty text.
   */
  function ClipboardWrites(resultText: string): (w: seq<string>)
    ensures |w| <= 1
    ensures w == [] <==> forall i :: 0 <= i < |resultText| ==> JsText.IsJsWhitespace(resultText[i])
    ensures w != [] ==> w == [JsText.Trim(resultText)] && w[0] != ""
  {
    var text := JsText.Trim(resultText);
    if text == "" then [] else [text]
  }

  /**
   * The announcements `sayFeedback` makes when the popup opens: five spoken hints and no
   * other call on the reader.
   */
  function StartupAnnouncements(): (cs: seq<Speech.Call>)
    ensures |cs| == 5 && forall c :: c in cs ==> c.Feedback? && c.message != ""
  {
    [
      Speech.Feedback("Press 1 for brief summary"),
      Speech.Feedback("Press 2 for detailed summary"),
      Speech.Feedback("Press 3 for bullet points "),
      Speech.Feedback("Press tab to copy the summary"),
      Speech.Feedback(" Press spacebar key to start or stop reading")
    ]
  }

  class PopupState {
    /** The `innerText` of the result area. */
    var result: string
    /** The value of the summary-type selection. */
    var summaryType: string
    /** `currentUtterance`, by the text it reads. */
    var utterance: Option<string>
    /** `isPaused`. */
    var isPaused: bool
    /** `speechSynthesis.speaking`: set by every `speak`, cleared by `cancel` or an empty queue. */
    var engineSpeaking: bool

    /** Every call made on `speechSynthesis`, in order. */
    ghost var calls: seq<Speech.Call>
    /** Every text handed to `navigator.clipboard.writeText`, in order. */
    ghost var clipboard: seq<string>
    /** The summary type each started summarisation read, in order. */
    ghost var requests: seq<string>

    function Reader(): Speech.Reader
      reads this
    {
      Speech.Reader(utterance, isPaused, engineSpeaking)
    }

    ghost predicate Valid()
      reads this
    {
      Speech.Valid(Reader())
    }

    /** The popup as it opens: nothing read aloud yet, the start-up announcements queued. */
    constructor (initialType: string)
      ensures Valid() && Speech.ModeOf(Reader()) == Speech.Idle
      ensures result == "" && summaryType == initialType
      ensures engineSpeaking && calls == StartupAnnouncements()
      ensures clipboard == [] && requests == []
    {
      result := "";
      summaryType := initialType;
      utterance := None;
      isPaused := false;
      engineSpeaking := true;
      calls := StartupAnnouncements();
      clipboard := [];
      requests := [];
    }

    /** `sayFeedback(message)`. */
    method SayFeedback(message: string)
      requires Valid()
      modifies this`engineSpeaking, this`calls
      ensures Valid()
      ensures Reader() == Speech.Announce(old(Reader()), message).after
      ensures calls == old(calls) + Speech.Announce(old(Reader()), message).calls
    {
      calls := calls + [Speech.Feedback(message)];
      engineSpeaking := true;
    }

    /** `stopSpeaking()`. */
    method StopSpeaking()
      modifies this`utterance, this`isPaused, this`engineSpeaking, this`calls
      ensures Valid()
      ensures Reader() == Speech.Stop(old(Reader())).after
      ensures calls == old(calls) + Speech.Stop(old(Reader())).calls
    {
      if engineSpeaking || isPaused {
        calls := calls + [Speech.Cancel];
        engineSpeaking := false;
      }
      utterance := None;
      isPaused := false;
    }

    /** `speakText(text)`. */
    method SpeakText(text: string)
      requires Valid()
      modifies this`utterance, this`isPaused, this`engineSpeaking, this`calls
      ensures Valid()
      ensures Reader() == Speech.SpeakText(old(Reader()), text).after
      ensures calls == old(calls) + Speech.SpeakText(old(Reader()), text).calls
    {
      if text == "" {
        return;
      }
      StopSpeaking();
      utterance := Some(text);
      calls := calls + [Speech.Speak(text)];
      engineSpeaking := true;
    }

    /** The `onend` handler of an utterance started by `SpeakText`. */
    method OnEnd()
      modifies this`utterance, this`isPaused
      ensures Valid()
      ensures Reader() == Speech.Ended(old(Reader()))
    {
      utterance := None;
      isPaused := false;
    }

    /** The platform has spoken or dropped everything queued, so `speaking` reads false. */
    method EngineIdle()
      requires Valid()
      modifies this`engineSpeaking
      ensures Valid()
      ensures !engineSpeaking
    {
      engineSpeaking := false;
    }

    /** `copySummaryToClipboard()`: the write is issued only for a non-blank result. */
    method CopySummary()
      modifies this`clipboard
      ensures clipboard == old(clipboard) + ClipboardWrites(result)
    {
      var text := JsText.Trim(result);
      if text == "" {
        return;
      }
      clipboard := clipboard + [text];
    }

    /** The continuation of a clipboard write that succeeded: the spoken confirmation. */
    method ClipboardWritten()
      requires Valid()
      modifies this`engineSpeaking, this`calls
      ensures Valid()
      ensures Reader() == Speech.Announce(old(Reader()), "Copied.").after
      ensures calls == old(calls) + [Speech.Feedback("Copied.")]
    {
      SayFeedback("Copied.");
    }

    /** The synchronous start of `runSummarise()`: the loading indicator replaces the result. */
    method RunSummarise()
      modifies this`result, this`requests
      ensures result == ""
      ensures requests == old(requests) + [summaryType]
    {
      result := "";
      requests := requests + [summaryType];
    }

    /**
     * The end of a `runSummarise()` that read `requestedType`: the result area shows the
     * outcome, and a summary is also read aloud.
     */
    method SummariseResolved(requestedType: string, apiKey: Option<string>,
                             article: Option<Summarise.ArticleReply>,
                             server: (string, string) -> GeminiClient.HttpReply)
      requires Valid()
      modifies this`result, this`utterance, this`isPaused, this`engineSpeaking, this`calls
      ensures Valid()
      ensures var c := Summarise.Complete(requestedType, apiKey, article, server);
        result == Summarise.Displayed(c) &&
        (c.ShowAndSpeak? ==>
           Reader() == Speech.SpeakText(old(Reader()), c.summary).after &&
           calls == old(calls) + Speech.SpeakText(old(Reader()), c.summary).calls &&
           Speech.ModeOf(Reader()) == Speech.Speaking) &&
        (c.Show? ==> Reader() == old(Reader()) && calls == old(calls))
    {
      var c := Summarise.Complete(requestedType, apiKey, article, server);
      match c
      case Show(message) =>
        result := message;
      case ShowAndSpeak(summary) =>
        result := summary;
        SpeakText(summary);
    }

    /** The Space branch of the `keydown` handler while an utterance exists: pause or resume. */
    method TogglePause()
      requires Valid() && utterance.Some?
      modifies this`isPaused, this`engineSpeaking, this`calls
      ensures Valid()
      ensures Reader() == Speech.TogglePause(old(Reader())).after
      ensures calls == old(calls) + Speech.TogglePause(old(Reader())).calls
    {
      if isPaused {
        calls := calls + [Speech.Resume];
        isPaused := false;
        SayFeedback("Resumed.");
      } else {
        calls := calls + [Speech.Pause];
        isPaused := true;
        SayFeedback("Paused.");
      }
    }

    /** The Space branch of the `keydown` handler while nothing is read: read `text` aloud. */
    method StartReading(text: string)
      requires Valid()
      modifies this`utterance, this`isPaused, this`engineSpeaking, this`calls
      ensures Valid()
      ensures Reader() == Speech.StartReading(old(Reader()), text).after
      ensures calls == old(calls) + Speech.StartReading(old(Reader()), text).calls
    {
      if text != "" {
        SpeakText(text);
        SayFeedback("Started reading.");
      }
    }

    /** The Space branch of the `keydown` handler. */
    method SpacePressed()
      requires Valid()
      modifies this`utterance, this`isPaused, this`engineSpeaking, this`calls
      ensures Valid()
      ensures Reader() == Speech.SpaceKey(old(Reader()), result).after
      ensures calls == old(calls) + Speech.SpaceKey(old(Reader()), result).calls
    {
      if utterance.Some? {
        TogglePause();
      } else {
        var text := JsText.Trim(result);
        StartReading(text);
      }
    }

    /** The Escape branch of the `keydown` handler. */
    method EscapePressed()
      requires Valid()
      modifies this`utterance, this`isPaused, this`engineSpeaking, this`calls
      ensures Valid()
      ensures Reader() == Speech.EscapeKey(old(Reader())).after
      ensures calls == old(calls) + Speech.EscapeKey(old(Reader())).calls
    {
      if utterance.Some? || isPaused {
        StopSpeaking();
        SayFeedback("Stopped.");
      }
    }

    /** The digit branch of the `keydown` handler: select a summary type, then summarise. */
    method DigitPressed(code: string)
      requires Valid() && DigitSelection(code).Some?
      modifies this`summaryType, this`result, this`requests, this`engineSpeaking, this`calls
      ensures Valid()
      ensures var (tag, message) := DigitSelection(code).value;
        summaryType == tag && result == "" && requests == old(requests) + [tag] &&
        Reader() == Speech.Announce(old(Reader()), message).after &&
        calls == old(calls) + [Speech.Feedback(message)]
    {
      var (tag, message) := DigitSelection(code).value;
      summaryType := tag;
      SayFeedback(message);
      RunSummarise();
    }

    /** The `keydown` handler; `prevented` tells whether it called `preventDefault()`. */
    method KeyDown(e: KeyEvent) returns (prevented: bool)
      requires Valid()
      modifies this
      ensures Valid()
      ensures FromTextField(e) ==> !prevented && unchanged(this)
      ensures !FromTextField(e) ==> prevented == Suppressed(e.code)
      ensures !FromTextField(e) && e.code == "Space" ==>
        var s := Speech.SpaceKey(old(Reader()), old(result));
        Reader() == s.after && calls == old(calls) + s.calls &&
        result == old(result) && summaryType == old(summaryType) &&
        clipboard == old(clipboard) && requests == old(requests)
      ensures !FromTextField(e) && e.code == "Escape" ==>
        var s := Speech.EscapeKey(old(Reader()));
        Reader() == s.after && calls == old(calls) + s.calls &&
        result == old(result) && summaryType == old(summaryType) &&
        clipboard == old(clipboard) && requests == old(requests)
      ensures !FromTextField(e) && e.code == "Tab" ==>
        clipboard == old(clipboard) + ClipboardWrites(old(result)) &&
        Reader() == old(Reader()) && calls == old(calls) &&
        result == old(result) && summaryType == old(summaryType) && requests == old(requests)
      ensures !FromTextField(e) && DigitSelection(e.code).Some? ==>
        var (tag, message) := DigitSelection(e.code).value;
        summaryType == tag && result == "" && requests == old(requests) + [tag] &&
        Reader() == Speech.Announce(old(Reader()), message).after &&
        calls == old(calls) + [Speech.Feedback(message)] && clipboard == old(clipboard)
      ensures !Suppressed(e.code) && e.code != "Escape" ==> unchanged(this)
    {
      if FromTextField(e) {
        return false;
      }
      prevented := false;
      if e.code == "Space" {
        prevented := true;
        SpacePressed();
      }
      if e.code == "Escape" {
        EscapePressed();
      }
      if e.code == "Tab" {
        prevented := true;
        CopySummary();
      }
      if e.code in {"Digit1", "Digit2", "Digit3"} {
        prevented := true;
        DigitPressed(e.code);
      }
    }
  }
}
