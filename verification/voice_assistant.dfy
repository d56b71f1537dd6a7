/** The voice assistant dialog: a microphone button, the transcription,
    and a button that sends the transcription either to navigation or to
    the caller as text. */
module VoiceAssistant {
  import opened Common
  import opened Text
  import opened Recording

  /** The phrases the mock recognizer picks from. */
  const MockTranscriptions: seq<string> := [
    "I need to book an appointment with Dr. Smith",
    "Show me my recent blood test results",
    "Order my regular blood pressure medication",
    "When is my next appointment?",
    "I'm having chest pain, please help",
    "Go to appointments",
    "Open reports",
    "Show pharmacy",
    "View my profile"
  ]

  const NavigationKeywords: seq<string> := ["go to", "open", "show", "view"]

  /** `isNavigationCommand`: the lower-cased text includes one of the
      navigation keywords. */
  predicate IsNavigationCommand(t: string) {
    MentionsAny(Lower(t), NavigationKeywords)
  }

  /** The caption of the send button, written as four separate tests. */
  function ButtonLabel(t: string): (caption: string)
    ensures caption == "Navigate" || caption == "Use as Input"
  {
    var l := Lower(t);
    if Contains(l, "go to") || Contains(l, "open") || Contains(l, "show") || Contains(l, "view")
    then "Navigate" else "Use as Input"
  }

  /** The caption says "Navigate" exactly when the send button would
      navigate (given a navigation callback). */
  lemma LabelMatchesClassifier(t: string)
    ensures ButtonLabel(t) == "Navigate" <==> IsNavigationCommand(t)
  {
    var l, k := Lower(t), NavigationKeywords;
    assert k[0] == "go to" && k[1] == "open" && k[2] == "show" && k[3] == "view";
    if IsNavigationCommand(t) {
      var i :| 0 <= i < |k| && Contains(l, k[i]);
      assert i == 0 || i == 1 || i == 2 || i == 3;
    }
  }

  /** What the send button does: the callback it calls, with what text, and
      whether the dialog closes. */
  datatype UseOutcome = UseOutcome(navigate: Option<string>, useInput: Option<string>, closes: bool)

  /** `handleUseInput`: nothing at all for an empty transcription;
      otherwise a navigation command goes lower-cased to `onNavigate` when
      there is one, anything else goes unchanged to `onUseInput` when there
      is one, and the dialog closes. */
  function UseInput(t: string, hasNavigate: bool, hasUseInput: bool): (o: UseOutcome)
    ensures t == "" ==> o == UseOutcome(None, None, false)
    ensures t != "" ==> o.closes
    ensures o.navigate.Some? <==> t != "" && IsNavigationCommand(t) && hasNavigate
    ensures o.navigate.Some? ==> o.navigate.value == Lower(t) && IsLower(o.navigate.value)
    ensures o.useInput.Some? <==> t != "" && !(IsNavigationCommand(t) && hasNavigate) && hasUseInput
    ensures o.useInput.Some? ==> o.useInput.value == t
  {
    LowerIsLower(t);
    if t == "" then UseOutcome(None, None, false)
    else if IsNavigationCommand(t) && hasNavigate then UseOutcome(Some(Lower(t)), None, true)
    else if hasUseInput then UseOutcome(None, Some(t), true)
    else UseOutcome(None, None, true)
  }

  /** At most one of the two callbacks is called. */
  lemma NeverBothCallbacks(t: string, hasNavigate: bool, hasUseInput: bool)
    ensures !(UseInput(t, hasNavigate, hasUseInput).navigate.Some?
              && UseInput(t, hasNavigate, hasUseInput).useInput.Some?)
  {
  }

  /** The dialog. */
  class VoiceAssistant {
    var isRecording: bool
    var transcription: string
    var showTranscription: bool

    constructor ()
      ensures State() == Idle
    {
      isRecording, transcription, showTranscription := false, "", false;
    }

    function State(): Recorder
      reads this
    {
      Recorder(isRecording, transcription, showTranscription)
    }

    /** The microphone button (and "Try Again"); returns the captured flag
        of the timer it schedules, if any. */
    method HandleToggleRecording() returns (timer: Option<bool>)
      modifies this
      ensures State() == Toggle(old(State())).next
      ensures timer == Toggle(old(State())).timer
    {
      if !isRecording {
        timer := Some(isRecording);
        isRecording, transcription, showTranscription := true, "", false;
      } else {
        isRecording := false;
        timer := None;
      }
    }

    /** A scheduled timer firing with the phrase the recognizer picked. */
    method TimerFires(captured: bool, phrase: string)
      requires phrase in MockTranscriptions
      modifies this
      ensures State() == Fire(old(State()), captured, phrase)
    {
      if captured {
        isRecording, transcription, showTranscription := false, phrase, true;
      }
    }

    /** The send button; it leaves the dialog's own state alone. */
    method HandleUseInput(hasNavigate: bool, hasUseInput: bool) returns (o: UseOutcome)
      ensures o == UseInput(transcription, hasNavigate, hasUseInput)
    {
      o := UseInput(transcription, hasNavigate, hasUseInput);
    }
  }
}
