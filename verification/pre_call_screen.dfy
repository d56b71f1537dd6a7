/** The pre-call screen: camera and microphone toggles, and a Join button
    held disabled until the simulated system check reports ready. */
module PreCallScreen {

  /** The Join button's caption. */
  function JoinCaption(isReady: bool): (c: string)
    ensures c == "Join Call" <==> isReady
  {
    if isReady then "Join Call" else "Preparing..."
  }

  /** The screen. */
  class PreCallScreen {
    var cameraEnabled: bool
    var micEnabled: bool
    var isReady: bool

    constructor ()
      ensures cameraEnabled && micEnabled && !isReady && !JoinEnabled()
    {
      cameraEnabled, micEnabled, isReady := true, true, false;
    }

    /** Join is disabled while the check is running. */
    predicate JoinEnabled()
      reads this
    {
      isReady
    }

    /** The two-second system check finishing. */
    method CheckFinished()
      modifies this
      ensures isReady && JoinEnabled()
      ensures cameraEnabled == old(cameraEnabled) && micEnabled == old(micEnabled)
    {
      isReady := true;
    }

    method ToggleCamera()
      modifies this
      ensures cameraEnabled == !old(cameraEnabled)
      ensures micEnabled == old(micEnabled) && isReady == old(isReady)
    {
      cameraEnabled := !cameraEnabled;
    }

    method ToggleMic()
      modifies this
      ensures micEnabled == !old(micEnabled)
      ensures cameraEnabled == old(cameraEnabled) && isReady == old(isReady)
    {
      micEnabled := !micEnabled;
    }

    /** A press on Join: a disabled button ignores it, so `onJoinCall` is
        called exactly when the check has finished. Toggling camera or
        microphone plays no part. */
    method PressJoin() returns (joins: bool)
      ensures joins <==> isReady
    {
      joins := isReady;
    }
  }
}
