/** The in-call screen: camera, microphone and chat toggles, and a call
    timer shown as minutes and seconds. */
module InCallScreen {
  import opened Decimal

  /** `formatDuration`: whole minutes and the remaining seconds, each as a
      numeral padded to at least two digits, joined by ':'. */
  function FormatDuration(seconds: nat): string {
    PadStart(NatToString(seconds / 60), 2) + [':'] + PadStart(NatToString(seconds % 60), 2)
  }

  /** A number below one hundred has at most two digits. */
  lemma ShortNumeral(n: nat)
    ensures n < 100 ==> |NatToString(n)| <= 2
  {
    if 10 <= n < 100 {
      assert NatToString(n) == NatToString(n / 10) + [DigitChar(n % 10)];
    }
  }

  /** A padded numeral keeps its value, and one below one hundred padded to
      two places is exactly two digits. */
  lemma PaddedField(n: nat)
    ensures AllDigits(PadStart(NatToString(n), 2))
    ensures ParseNat(PadStart(NatToString(n), 2)) == n
    ensures n < 100 ==> |PadStart(NatToString(n), 2)| == 2
    ensures |PadStart(NatToString(n), 2)| >= 2
  {
    ShortNumeral(n);
    ParsePadStart(NatToString(n), 2);
    ParseNatToString(n);
  }

  /** A display whose minutes field (before the last ':') reads as `mins`
      and whose two-digit seconds field reads as `secs`. */
  predicate ShowsTime(r: string, mins: nat, secs: nat) {
    && |r| >= 5 && r[|r| - 3] == ':'
    && AllDigits(r[..|r| - 3]) && AllDigits(r[|r| - 2..])
    && ParseNat(r[..|r| - 3]) == mins && ParseNat(r[|r| - 2..]) == secs
  }

  /** The display shows `seconds / 60` in full in the minutes field, however
      many digits that takes, and `seconds % 60` in the two-digit seconds
      field; below a hundred minutes it is five characters. */
  lemma {:induction false} FormatDurationFields(seconds: nat)
    ensures ShowsTime(FormatDuration(seconds), seconds / 60, seconds % 60)
    ensures seconds < 6000 ==> |FormatDuration(seconds)| == 5
  {
    var mins, secs := seconds / 60, seconds % 60;
    var m, s := PadStart(NatToString(mins), 2), PadStart(NatToString(secs), 2);
    PaddedField(mins);
    PaddedField(secs);
    JoinedFields(m, s, mins, secs);
    assert FormatDuration(seconds) == m + [':'] + s;
    assert seconds < 6000 ==> mins < 100;
  }

  /** Joining two digit fields by ':' keeps each field readable. */
  lemma JoinedFields(m: string, s: string, a: nat, b: nat)
    requires AllDigits(m) && AllDigits(s) && |m| >= 2 && |s| == 2
    requires ParseNat(m) == a && ParseNat(s) == b
    ensures ShowsTime(m + [':'] + s, a, b) && |m + [':'] + s| == |m| + 3
  {
    var r := m + [':'] + s;
    assert r[..|r| - 3] == m && r[|r| - 2..] == s;
  }

  /** Reading a display back: the minutes before the last ':' times sixty,
      plus the two digits after it. */
  function ParseDuration(r: string): nat
    requires |r| >= 3 && AllDigits(r[..|r| - 3]) && AllDigits(r[|r| - 2..])
  {
    ParseNat(r[..|r| - 3]) * 60 + ParseNat(r[|r| - 2..])
  }

  /** The display reads back as the duration. */
  lemma {:induction false} FormatDurationRoundTrip(seconds: nat)
    ensures ShowsTime(FormatDuration(seconds), seconds / 60, seconds % 60)
    ensures ParseDuration(FormatDuration(seconds)) == seconds
  {
    FormatDurationFields(seconds);
    ReadBack(FormatDuration(seconds), seconds / 60, seconds % 60);
    MinutesAndSeconds(seconds);
  }

  lemma MinutesAndSeconds(seconds: nat)
    ensures (seconds / 60) * 60 + seconds % 60 == seconds
  {
  }

  lemma ReadBack(r: string, mins: nat, secs: nat)
    requires ShowsTime(r, mins, secs)
    ensures ParseDuration(r) == mins * 60 + secs
  {
  }

  /** Two different durations never show the same text. */
  lemma FormatDurationInjective(a: nat, b: nat)
    requires FormatDuration(a) == FormatDuration(b)
    ensures a == b
  {
    FormatDurationRoundTrip(a);
    FormatDurationRoundTrip(b);
  }

  /** The screen. */
  class InCallScreen {
    var cameraEnabled: bool
    var micEnabled: bool
    var callDuration: nat
    var showChat: bool

    constructor ()
      ensures cameraEnabled && micEnabled && callDuration == 0 && !showChat
    {
      cameraEnabled, micEnabled, callDuration, showChat := true, true, 0, false;
    }

    /** The timer text shown at the top of the screen. */
    function Display(): (r: string)
      reads this
      ensures ShowsTime(r, callDuration / 60, callDuration % 60)
      ensures ParseDuration(r) == callDuration
    {
      FormatDurationRoundTrip(callDuration);
      FormatDuration(callDuration)
    }

    /** One firing of the one-second interval. */
    method Tick()
      modifies this
      ensures callDuration == old(callDuration) + 1
      ensures cameraEnabled == old(cameraEnabled) && micEnabled == old(micEnabled) && showChat == old(showChat)
    {
      callDuration := callDuration + 1;
    }

    method ToggleCamera()
      modifies this
      ensures cameraEnabled == !old(cameraEnabled)
      ensures micEnabled == old(micEnabled) && showChat == old(showChat) && callDuration == old(callDuration)
    {
      cameraEnabled := !cameraEnabled;
    }

    method ToggleMic()
      modifies this
      ensures micEnabled == !old(micEnabled)
      ensures cameraEnabled == old(cameraEnabled) && showChat == old(showChat) && callDuration == old(callDuration)
    {
      micEnabled := !micEnabled;
    }

    /** The chat button. */
    method ToggleChat()
      modifies this
      ensures showChat == !old(showChat)
      ensures cameraEnabled == old(cameraEnabled) && micEnabled == old(micEnabled) && callDuration == old(callDuration)
    {
      showChat := !showChat;
    }

    /** The chat panel's close button. */
    method CloseChat()
      modifies this
      ensures !showChat
      ensures cameraEnabled == old(cameraEnabled) && micEnabled == old(micEnabled) && callDuration == old(callDuration)
    {
      showChat := false;
    }
  }
}
