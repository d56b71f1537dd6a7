/** The voice navigator dialog: a microphone button and an execute button
    that hands the heard command to navigation. */
module VoiceNavigator {
  import opened Common
  import opened Text
  import opened Recording

  /** The commands the mock recognizer picks from. */
  const NavigationCommands: seq<string> := [
    "Go to appointments", "Open reports", "Show pharmacy", "View profile",
    "Go to home", "Show medicines", "Book appointment", "View cart"
  ]

  /** What the execute button does. */
  datatype ExecuteOutcome = ExecuteOutcome(navigate: Option<string>, closes: bool)

  /** `handleExecuteCommand`: with a navigation callback and a non-empty
      transcription, navigate with the lower-cased text and close;
      otherwise do nothing. */
  function Execute(t: string, hasNavigate: bool): (o: ExecuteOutcome)
    ensures o.navigate.Some? <==> hasNavigate && t != ""
    ensures o.closes <==> o.navigate.Some?
    ensures o.navigate.Some? ==> o.navigate.value == Lower(t) && IsLower(o.navigate.value)
  {
    LowerIsLower(t);
    if hasNavigate && t != "" then ExecuteOutcome(Some(Lower(t)), true)
    else ExecuteOutcome(None, false)
  }

  /** The dialog. */
  class VoiceNavigator {
    var isRecording: bool
    var transcription: string
    var showTranscription: bool

    constructor ()
      ensures State() == Idle
    {
      isRecording, transcription, showTranscription := false, "", false;
    }

    function State(): Recorder
      reads this
    {
      Recorder(isRecording, transcription, showTranscription)
    }

    method HandleToggleRecording() returns (timer: Option<bool>)
      modifies this
      ensures State() == Toggle(old(State())).next
      ensures timer == Toggle(old(State())).timer
    {
      if !isRecording {
        timer := Some(isRecording);
        isRecording, transcription, showTranscription := true, "", false;
      } else {
        isRecording := false;
        timer := None;
      }
    }

    method TimerFires(captured: bool, phrase: string)
      requires phrase in NavigationCommands
      modifies this
      ensures State() == Fire(old(State()), captured, phrase)
    {
      if captured {
        isRecording, transcription, showTranscription := false, phrase, true;
      }
    }

    /** The execute button; it leaves the dialog's own state alone. */
    method HandleExecuteCommand(hasNavigate: bool) returns (o: ExecuteOutcome)
      ensures o == Execute(transcription, hasNavigate)
    {
      if hasNavigate && transcription != "" {
        LowerIsLower(transcription);
        o := ExecuteOutcome(Some(Lower(transcription)), true);
      } else {
        o := ExecuteOutcome(None, false);
      }
    }
  }
}
