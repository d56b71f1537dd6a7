/** A text field with a microphone: typed text goes straight to the
    caller, and a heard transcription goes to the caller on "Use This". */
module VoiceInput {
  import opened Common
  import opened Recording

  const MockTranscriptions: seq<string> := [
    "Dr. Sarah Wilson",
    "I have been experiencing chest pain",
    "Amlodipine 5mg",
    "Tomorrow at 2 PM",
    "Blood pressure medication",
    "Dr. Smith",
    "I need a follow-up appointment"
  ]

  /** The field. */
  class VoiceInput {
    var isRecording: bool
    var showTranscription: bool
    var transcription: string

    constructor ()
      ensures State() == Idle
    {
      isRecording, showTranscription, transcription := false, false, "";
    }

    function State(): Recorder
      reads this
    {
      Recorder(isRecording, transcription, showTranscription)
    }

    /** The microphone button. */
    method HandleVoiceInput() returns (timer: Option<bool>)
      modifies this
      ensures State() == Toggle(old(State())).next
      ensures timer == Toggle(old(State())).timer
    {
      if !isRecording {
        timer := Some(isRecording);
        isRecording, showTranscription, transcription := true, false, "";
      } else {
        isRecording := false;
        timer := None;
      }
    }

    method TimerFires(captured: bool, phrase: string)
      requires phrase in MockTranscriptions
      modifies this
      ensures State() == Fire(old(State()), captured, phrase)
    {
      if captured {
        isRecording, transcription, showTranscription := false, phrase, true;
      }
    }

    /** "Use This": the transcription goes to `onChange`, then is cleared
        and hidden; this is the `Consume` event of the shared recorder. */
    method HandleUseTranscription() returns (sent: string)
      modifies this
      ensures sent == old(transcription)
      ensures State() == old(State()).(transcription := "", showTranscription := false)
    {
      sent := transcription;
      showTranscription, transcription := false, "";
    }

    /** "Cancel": hides the panel and keeps the transcription; this is the
        `Dismiss` event of the shared recorder. */
    method Cancel()
      modifies this
      ensures State() == old(State()).(showTranscription := false)
    {
      showTranscription := false;
    }

    /** Typing: the field's text goes to `onChange` as typed. */
    method HandleTyped(text: string) returns (sent: string)
      ensures sent == text
    {
      sent := text;
    }
  }
}
