/** The microphone logic shared by the voice assistant, the voice navigator
    and the voice input field: a press starts or stops a mock recording, and
    starting schedules a timer that writes a transcription only when the
    recording flag it captured at the press was set. */
module Recording {
  import opened Common

  /** The three state fields the voice components share. */
  datatype Recorder = Recorder(isRecording: bool, transcription: string, showTranscription: bool)

  const Idle := Recorder(false, "", false)

  /** A press of the microphone button: the next state, and the captured
      flag of the timer it schedules, if it schedules one. */
  datatype Press = Press(next: Recorder, timer: Option<bool>)

  /** `handleToggleRecording`: when not recording, start afresh with an
      empty hidden transcription and schedule a timer whose callback holds
      the `isRecording` of this press; when recording, stop and keep the
      transcription. */
  function Toggle(r: Recorder): (p: Press)
    ensures p.timer.Some? <==> !r.isRecording
    ensures p.timer.Some? ==> p.timer.value == r.isRecording
    ensures p.next.isRecording <==> !r.isRecording
    ensures !r.isRecording ==> p.next.transcription == "" && !p.next.showTranscription
    ensures r.isRecording ==> p.next.transcription == r.transcription
                              && p.next.showTranscription == r.showTranscription
  {
    if !r.isRecording then Press(Recorder(true, "", false), Some(r.isRecording))
    else Press(r.(isRecording := false), None)
  }

  /** The timer callback: with the captured flag set it shows `phrase` and
      stops; otherwise it does nothing. */
  function Fire(r: Recorder, captured: bool, phrase: string): (r': Recorder)
    ensures !captured ==> r' == r
    ensures captured ==> r'.transcription == phrase && r'.showTranscription && !r'.isRecording
  {
    if captured then Recorder(false, phrase, true) else r
  }

  /** Every timer is scheduled by a press made while not recording, so the
      flag it captured is false and its callback changes nothing. */
  lemma ScheduledTimersAreStale(r: Recorder, s: Recorder, phrase: string)
    requires Toggle(r).timer.Some?
    ensures Toggle(r).timer == Some(false)
    ensures Fire(s, Toggle(r).timer.value, phrase) == s
  {
  }

  /** What can happen to a recorder: a press, the firing of the `k`-th
      pending timer, and the input field's Cancel (`Dismiss`) and Use This
      (`Consume`) buttons. */
  datatype Event = Pressed | TimerFired(k: nat, phrase: string) | Dismiss | Consume

  /** The recorder and its pending timers' captured flags after the
      events. A timer fires at most once; firing one that is not pending
      does nothing. */
  function Run(r: Recorder, pending: seq<bool>, events: seq<Event>): (Recorder, seq<bool>)
    decreases |events|
  {
    if events == [] then (r, pending)
    else match events[0]
      case Pressed =>
        var p := Toggle(r);
        Run(p.next, if p.timer.Some? then pending + [p.timer.value] else pending, events[1..])
      case TimerFired(k, phrase) =>
        if k < |pending| then Run(Fire(r, pending[k], phrase), pending[..k] + pending[k + 1..], events[1..])
        else Run(r, pending, events[1..])
      case Dismiss => Run(r.(showTranscription := false), pending, events[1..])
      case Consume => Run(r.(transcription := "", showTranscription := false), pending, events[1..])
  }

  /** No transcription shown or stored, and no pending timer that would
      write one. */
  predicate Quiet(r: Recorder, pending: seq<bool>) {
    r.transcription == "" && !r.showTranscription
    && forall i :: 0 <= i < |pending| ==> !pending[i]
  }

  /** As written, no transcription ever appears: from a quiet recorder,
      whatever is pressed and whenever the timers fire, the transcription
      stays empty and hidden. */
  lemma {:induction false} NoTranscriptionEver(r: Recorder, pending: seq<bool>, events: seq<Event>)
    requires Quiet(r, pending)
    ensures Quiet(Run(r, pending, events).0, Run(r, pending, events).1)
    decreases |events|
  {
    if events != [] {
      match events[0]
      case Pressed =>
        var p := Toggle(r);
        var pending' := if p.timer.Some? then pending + [p.timer.value] else pending;
        assert Quiet(p.next, pending');
        NoTranscriptionEver(p.next, pending', events[1..]);
      case TimerFired(k, phrase) =>
        if k < |pending| {
          var pending' := pending[..k] + pending[k + 1..];
          assert forall i :: 0 <= i < |pending'| ==> pending'[i] == (if i < k then pending[i] else pending[i + 1]);
          NoTranscriptionEver(Fire(r, pending[k], phrase), pending', events[1..]);
        } else {
          NoTranscriptionEver(r, pending, events[1..]);
        }
      case Dismiss =>
        NoTranscriptionEver(r.(showTranscription := false), pending, events[1..]);
      case Consume =>
        NoTranscriptionEver(r.(transcription := "", showTranscription := false), pending, events[1..]);
    }
  }

  /** In particular, starting idle with no timers. */
  lemma IdleStaysQuiet(events: seq<Event>)
    ensures Run(Idle, [], events).0.transcription == ""
    ensures !Run(Idle, [], events).0.showTranscription
  {
    NoTranscriptionEver(Idle, [], events);
  }
}
