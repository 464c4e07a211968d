/**
 * The call-controls panel as functions of the call state: the heading, the
 * `MM:SS` duration readout, and which buttons and controls are visible.
 */
module CallControls {
  import opened RetellTypes
  import opened JsString
  import UseRetellCall

  // ---------------------------------------------------------------------
  // The duration readout
  // ---------------------------------------------------------------------

  /**
   * Whole minutes (rounded down) and the remainder of a number of seconds;
   * for a non-negative count, a proper minutes-and-seconds split.
   */
  function MinutesAndSeconds(seconds: int): (parts: (int, int))
    ensures seconds >= 0 ==> 0 <= parts.0 && 0 <= parts.1 < 60 && parts.0 * 60 + parts.1 == seconds
  {
    (seconds / 60, Remainder(seconds, 60))
  }

  /** Minutes, a colon and seconds, each field left-padded with `0` to at least two characters. */
  function FormatDuration(seconds: int): (text: string)
    ensures seconds >= 0 ==> |text| >= 5 && text[|text| - 3] == ':'
    ensures seconds >= 0 ==> IsDecimal(text[..|text| - 3]) && IsDecimal(text[|text| - 2..])
  {
    var parts := MinutesAndSeconds(seconds);
    Readout(TwoDigits(parts.0), TwoDigits(parts.1))
  }

  /** Two fields joined by a colon; with digit fields, the colon sits before the last two characters. */
  function Readout(minutes: string, secs: string): (text: string)
    ensures |minutes| >= 2 && |secs| == 2 && IsDecimal(minutes) && IsDecimal(secs) ==>
      |text| >= 5 && text[|text| - 3] == ':' && IsDecimal(text[..|text| - 3]) && IsDecimal(text[|text| - 2..])
  {
    var text := minutes + ":" + secs;
    assert |secs| == 2 ==> text[..|text| - 3] == minutes && text[|text| - 2..] == secs;
    text
  }

  /**
   * `n.toString().padStart(2, '0')`: for a non-negative number, a digit string
   * of at least two characters; exactly two below 100.
   */
  function TwoDigits(n: int): (p: string)
    ensures n >= 0 ==> |p| >= 2 && (n < 100 ==> |p| == 2) && IsDecimal(p)
  {
    var s := IntToString(n);
    var p := PadStart(s, 2, '0');
    assert n >= 0 ==> IsDecimal(p) by {
      if n >= 0 {
        assert p == p[..|p| - |s|] + s;
      }
    }
    p
  }

  /** The padded field reads back as the number it was made from. */
  lemma TwoDigitsValue(n: nat)
    ensures DecimalValue(TwoDigits(n)) == n
  {
    var s := NatToString(n);
    var p := PadStart(s, 2, '0');
    var zeros := p[..|p| - |s|];
    assert p == zeros + s;
    LeadingZerosIgnored(zeros, s);
    DecimalValueOfNatToString(n);
  }

  /** Below 100 minutes the readout is exactly five characters, `DD:DD`. */
  lemma FormatDurationShape(seconds: int)
    requires 0 <= seconds < 6000
    ensures var text := FormatDuration(seconds);
      |text| == 5 && text[2] == ':'
      && IsDigit(text[0]) && IsDigit(text[1]) && IsDigit(text[3]) && IsDigit(text[4])
  {
    var parts := MinutesAndSeconds(seconds);
    assert parts.0 < 100;
    var text := FormatDuration(seconds);
    assert |text| == 5;
    assert text[..2][0] == text[0] && text[..2][1] == text[1];
    assert text[3..][0] == text[3] && text[3..][1] == text[4];
  }

  /** The readout never truncates: the minutes field keeps every digit of the minutes. */
  lemma FormatDurationKeepsAllMinuteDigits(seconds: int)
    requires seconds >= 0
    ensures var minutes := NatToString(seconds / 60);
      |FormatDuration(seconds)| == (if |minutes| < 2 then 2 else |minutes|) + 3
  {
  }

  /** Reads minutes and seconds back out of a `MM:SS` readout. */
  function ParseDuration(text: string): (seconds: Option<nat>)
  {
    var fields := Split(text, ':');
    if |fields| == 2 && fields[0] != "" && fields[1] != "" && IsDecimal(fields[0]) && IsDecimal(fields[1])
    then Some(DecimalValue(fields[0]) * 60 + DecimalValue(fields[1]))
    else None
  }

  lemma DecimalHasNoColon(s: string)
    requires IsDecimal(s)
    ensures ':' !in s
  {
    assert forall i :: 0 <= i < |s| ==> s[i] != ':';
  }

  /** Two digit fields around a colon read back as minutes and seconds. */
  lemma ParseReadoutFields(text: string, minutes: string, secs: string, seconds: nat)
    requires minutes != "" && secs != "" && IsDecimal(minutes) && IsDecimal(secs)
    requires text == minutes + ":" + secs
    requires DecimalValue(minutes) * 60 + DecimalValue(secs) == seconds
    ensures ParseDuration(text) == Some(seconds)
  {
    var fields := [minutes, secs];
    assert fields[1..] == [secs];
    assert Join(fields, ':') == text;
    DecimalHasNoColon(minutes);
    DecimalHasNoColon(secs);
    SplitJoin(fields, ':');
  }

  /** Reading back a readout gives the number of seconds it was made from. */
  lemma FormatDurationRoundTrip(seconds: nat)
    ensures ParseDuration(FormatDuration(seconds)) == Some(seconds)
  {
    var parts := MinutesAndSeconds(seconds);
    var minutes := TwoDigits(parts.0);
    var secs := TwoDigits(parts.1);
    var text := FormatDuration(seconds);
    assert text == minutes + ":" + secs;
    TwoDigitsValue(parts.0);
    TwoDigitsValue(parts.1);
    ParseReadoutFields(text, minutes, secs, seconds);
  }

  /** Different durations never show the same readout. */
  lemma FormatDurationInjective(a: nat, b: nat)
    requires FormatDuration(a) == FormatDuration(b)
    ensures a == b
  {
    FormatDurationRoundTrip(a);
    FormatDurationRoundTrip(b);
  }

  /** The readout under the heading: shown only while connected. */
  function DurationReadout(state: CallState): (readout: Option<string>)
    ensures readout.Some? <==> state.status == Connected
    ensures readout.Some? ==> readout.value == FormatDuration(state.duration)
  {
    if state.status == Connected then Some(FormatDuration(state.duration)) else None
  }

  // ---------------------------------------------------------------------
  // The heading
  // ---------------------------------------------------------------------

  /** `{cond && 'text'}`: the text when the condition holds; React renders `false` as nothing. */
  function ShowIf(cond: bool, text: string): (shown: string)
  {
    if cond then text else ""
  }

  /** The five conditional texts of the heading, rendered one after the other. */
  function Heading(s: Status): (heading: string)
  {
    ShowIf(s == Idle, "Ready to Call")
    + ShowIf(s == Connecting, "Connecting...")
    + ShowIf(s == Connected, "Connected")
    + ShowIf(s == Disconnected, "Call Ended")
    + ShowIf(s == Error, "Connection Error")
  }

  /** Exactly one of the five texts shows for each status. */
  lemma HeadingByStatus(s: Status)
    ensures Heading(s) == match s
      case Idle => "Ready to Call"
      case Connecting => "Connecting..."
      case Connected => "Connected"
      case Disconnected => "Call Ended"
      case Error => "Connection Error"
  {
  }

  /** The heading tells every status apart. */
  lemma HeadingDistinct(a: Status, b: Status)
    requires Heading(a) == Heading(b)
    ensures a == b
  {
    HeadingByStatus(a);
    HeadingByStatus(b);
  }

  /** The error line below the heading shows when the state holds a non-empty message. */
  predicate ShowsErrorText(state: CallState)
  {
    state.error.Some? && state.error.value != ""
  }

  /**
   * After an `error` event the panel always shows an error line; after a
   * failed start it does exactly when the failure's message is non-empty.
   */
  lemma ErrorLineAfterFailures(prev: CallState, message: string, thrown: UseRetellCall.Thrown)
    ensures ShowsErrorText(UseRetellCall.OnErrorEvent(prev, message))
    ensures ShowsErrorText(UseRetellCall.OnStartFailure(prev, thrown)) <==>
      (thrown.OtherValue? || thrown.message != "")
  {
  }

  // ---------------------------------------------------------------------
  // Buttons and secondary controls
  // ---------------------------------------------------------------------

  /** The three primary buttons. */
  datatype Button = StartButton | CancelButton | EndButton

  /** What a button's click invokes on the hook. */
  datatype Command = StartCallCommand | StopCallCommand

  function ButtonCommand(b: Button): (command: Command)
  {
    match b
    case StartButton => StartCallCommand
    case CancelButton => StopCallCommand
    case EndButton => StopCallCommand
  }

  predicate ShowsStartButton(s: Status)
  {
    s == Idle || s == Disconnected || s == Error
  }

  predicate ShowsCancelButton(s: Status)
  {
    s == Connecting
  }

  predicate ShowsEndButton(s: Status)
  {
    s == Connected
  }

  /** The mute button and the volume slider. */
  predicate ShowsSecondaryControls(s: Status)
  {
    s == Connected
  }

  /** The buttons each visibility condition lets through. */
  function VisibleButtons(s: Status): (buttons: set<Button>)
  {
    (if ShowsStartButton(s) then {StartButton} else {})
    + (if ShowsCancelButton(s) then {CancelButton} else {})
    + (if ShowsEndButton(s) then {EndButton} else {})
  }

  /**
   * Every status shows exactly one primary button; it stops the call exactly
   * while the call is connecting or connected.
   */
  lemma ExactlyOnePrimaryButton(s: Status)
    ensures |VisibleButtons(s)| == 1
    ensures VisibleButtons(s) == match s
      case Idle => {StartButton}
      case Disconnected => {StartButton}
      case Error => {StartButton}
      case Connecting => {CancelButton}
      case Connected => {EndButton}
    ensures forall b :: b in VisibleButtons(s) ==>
      (ButtonCommand(b) == StopCallCommand <==> s == Connecting || s == Connected)
  {
  }

  /**
   * The mute and volume controls show exactly when the end button does, and
   * the duration readout shows exactly when they do.
   */
  lemma CallControlsOnlyWhileConnected(state: CallState)
    ensures ShowsSecondaryControls(state.status) <==> EndButton in VisibleButtons(state.status)
    ensures DurationReadout(state).Some? <==> ShowsSecondaryControls(state.status)
  {
  }
}
