/**
 * The read-aloud state of the popup as values: the two globals `currentUtterance` and
 * `isPaused`, the engine's `speechSynthesis.speaking` flag, and the calls each step
 * makes on `speechSynthesis`. The class in module Popup is proved against these steps.
 */
module Speech {
  import opened Wrappers
  import JsText

  /** A call on `window.speechSynthesis`; `Feedback` is the `speak` of a short announcement. */
  datatype Call = Speak(text: string) | Feedback(message: string) | Pause | Resume | Cancel

  /**
   * `currentUtterance` (the text of the utterance, `None` for `null`), `isPaused`, and
   * the engine's `speaking` flag.
   */
  datatype Reader = Reader(utterance: Option<string>, isPaused: bool, engineSpeaking: bool)

  /** The reader after a step, and the calls the step made, in order. */
  datatype Step = Step(after: Reader, calls: seq<Call>)

  /** The three states of the read-aloud feature. */
  datatype Mode = Idle | Speaking | Paused

  /** The states the popup can reach: a pause needs an utterance, and utterances are never empty. */
  predicate Valid(r: Reader)
  {
    (r.isPaused ==> r.utterance.Some?) && (r.utterance.Some? ==> r.utterance.value != "")
  }

  function ModeOf(r: Reader): Mode
  {
    if r.utterance.None? then Idle else if r.isPaused then Paused else Speaking
  }

  /** `sayFeedback(message)`: queues an announcement, which keeps the engine speaking. */
  function Announce(r: Reader, message: string): (s: Step)
    ensures s.after.utterance == r.utterance && s.after.isPaused == r.isPaused
    ensures s.after.engineSpeaking
    ensures s.calls == [Feedback(message)]
  {
    Step(r.(engineSpeaking := true), [Feedback(message)])
  }

  /**
   * `stopSpeaking()`: leaves the reader idle with the engine silent; it cancels exactly
   * when the engine was speaking or the reader was paused.
   */
  function Stop(r: Reader): (s: Step)
    ensures ModeOf(s.after) == Idle && Valid(s.after)
    ensures s.after == Reader(None, false, false)
    ensures Cancel in s.calls <==> r.engineSpeaking || r.isPaused
    ensures forall c :: c in s.calls ==> c == Cancel
    ensures |s.calls| <= 1
  {
    Step(Reader(None, false, false), if r.engineSpeaking || r.isPaused then [Cancel] else [])
  }

  /** Stopping a reader that was just stopped changes nothing and calls nothing. */
  lemma StopTwice(r: Reader)
    ensures Stop(Stop(r).after) == Step(Stop(r).after, [])
  {
  }

  /**
   * `speakText(text)`: empty text is ignored; otherwise the reader is stopped and then
   * speaks `text`, unpaused, with one `speak` after the stop's calls.
   */
  function SpeakText(r: Reader, text: string): (s: Step)
    ensures text == "" ==> s == Step(r, [])
    ensures text != "" ==> ModeOf(s.after) == Speaking && Valid(s.after)
    ensures text != "" ==> s.after == Reader(Some(text), false, true)
    ensures text != "" ==> s.calls == Stop(r).calls + [Speak(text)]
    ensures text != "" ==>
      s.calls[|s.calls| - 1] == Speak(text) && forall i :: 0 <= i < |s.calls| - 1 ==> s.calls[i] == Cancel
    ensures Cancel in s.calls <==> text != "" && (r.engineSpeaking || r.isPaused)
  {
    if text == "" then Step(r, [])
    else
      var stopped := Stop(r);
      Step(Reader(Some(text), false, true), stopped.calls + [Speak(text)])
  }

  /** The utterance's `onend` handler: back to idle; the engine's flag is its own business. */
  function Ended(r: Reader): (after: Reader)
    ensures ModeOf(after) == Idle && Valid(after)
    ensures after.engineSpeaking == r.engineSpeaking
  {
    r.(utterance := None, isPaused := false)
  }

  /** Speaking `text` and then reaching its end leaves the reader idle and unpaused. */
  lemma SpeakThenEnd(r: Reader, text: string)
    requires text != ""
    ensures Ended(SpeakText(r, text).after) == Reader(None, false, true)
  {
  }

  /** Space while an utterance exists: resume a paused reader or pause a speaking one, and say so. */
  function TogglePause(r: Reader): (s: Step)
    requires r.utterance.Some?
    ensures s.after.utterance == r.utterance && s.after.isPaused == !r.isPaused && s.after.engineSpeaking
    ensures s.calls == if r.isPaused then [Resume, Feedback("Resumed.")] else [Pause, Feedback("Paused.")]
  {
    if r.isPaused then
      Step(r.(isPaused := false, engineSpeaking := true), [Resume, Feedback("Resumed.")])
    else
      Step(r.(isPaused := true, engineSpeaking := true), [Pause, Feedback("Paused.")])
  }

  /** Space while nothing is read: speak the trimmed result text `text`, if there is any. */
  function StartReading(r: Reader, text: string): (s: Step)
    ensures text == "" ==> s == Step(r, [])
    ensures text != "" ==>
      s.after == Reader(Some(text), false, true) &&
      s.calls == Stop(r).calls + [Speak(text), Feedback("Started reading.")]
  {
    if text == "" then Step(r, [])
    else
      var spoken := SpeakText(r, text);
      var announced := Announce(spoken.after, "Started reading.");
      Step(announced.after, spoken.calls + announced.calls)
  }

  /**
   * The Space key: with an utterance it toggles the pause (calling `resume` or `pause`
   * and announcing it); without one it starts reading the trimmed result text, if any.
   */
  function SpaceKey(r: Reader, resultText: string): (s: Step)
    ensures r.utterance.Some? ==>
      s.after.utterance == r.utterance && s.after.isPaused == !r.isPaused &&
      |s.calls| == 2 && s.calls[0] == (if r.isPaused then Resume else Pause)
    ensures r.utterance.None? && JsText.Trim(resultText) == "" ==> s == Step(r, [])
    ensures r.utterance.None? && JsText.Trim(resultText) != "" ==>
      ModeOf(s.after) == Speaking && s.after.utterance == Some(JsText.Trim(resultText)) &&
      Speak(JsText.Trim(resultText)) in s.calls
    ensures Valid(r) ==> Valid(s.after)
  {
    if r.utterance.Some? then TogglePause(r) else StartReading(r, JsText.Trim(resultText))
  }

  /** Pressing Space twice while an utterance exists restores the pause flag. */
  lemma SpaceTwice(r: Reader, text1: string, text2: string)
    requires r.utterance.Some?
    ensures SpaceKey(SpaceKey(r, text1).after, text2).after == r.(engineSpeaking := true)
  {
  }

  /** The Escape key: stops the reader when an utterance exists or it is paused, and announces it. */
  function EscapeKey(r: Reader): (s: Step)
    ensures r.utterance.Some? || r.isPaused ==>
      ModeOf(s.after) == Idle && s.calls == Stop(r).calls + [Feedback("Stopped.")]
    ensures Valid(r) && ModeOf(r) == Idle ==> s == Step(r, [])
    ensures Valid(s.after)
  {
    if r.utterance.Some? || r.isPaused then
      var stopped := Stop(r);
      var announced := Announce(stopped.after, "Stopped.");
      Step(announced.after, stopped.calls + announced.calls)
    else Step(r, [])
  }

  /**
   * A whole reading session from an idle, silent reader: speak, pause, resume, stop. The
   * calls are exactly one `speak`, `pause`, `resume` and `cancel`, with the announcements.
   */
  lemma ReadingSession(text: string)
    requires JsText.Trim(text) == text && text != ""
    ensures var s0 := Reader(None, false, false);
      var s1 := SpeakText(s0, text);
      var s2 := SpaceKey(s1.after, text);
      var s3 := SpaceKey(s2.after, text);
      var s4 := EscapeKey(s3.after);
      ModeOf(s1.after) == Speaking && ModeOf(s2.after) == Paused &&
      ModeOf(s3.after) == Speaking && ModeOf(s4.after) == Idle &&
      s1.calls + s2.calls + s3.calls + s4.calls ==
        [Speak(text), Pause, Feedback("Paused."), Resume, Feedback("Resumed."), Cancel, Feedback("Stopped.")]
  {
  }
}
