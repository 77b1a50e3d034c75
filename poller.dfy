/**
  `processMessage` of lovense-sillytavern-plugin/script.js, the earlier and
  smaller plugin: it only knows the single-intensity `"VIBRATE": n` command,
  keeps no state between messages and so sends the same call again each time
  it looks at the same message.
*/
module Poller {
  import opened Wrappers
  import opened Scan
  import opened Commands
  import opened Effects
  import opened Render
  import Session

  /** The call the plugin sends for the chat's last message, if any: none while
      disconnected or for an absent or empty message; otherwise the intensity of
      the leftmost `"VIBRATE": <digits>` (the same regex as the main script's
      single-VIBRATE one), when it lies within 0..100. */
  function Poll(connected: bool, message: Option<string>): (c: Option<DeviceCall>)
    ensures c.Some? ==> connected && message.Some? && FindSingleVibrate(message.value).Some?
    ensures c.Some? ==> var n := FindSingleVibrate(message.value).value.value;
      n <= 100 && c.value == Vibrate(Fraction(n))
  {
    if !connected || message.None? || message.value == "" then None
    else
      match FindSingleVibrate(message.value)
      case None => None
      case Some(m) => if m.value <= 100 then Some(Vibrate(Fraction(m.value))) else None
  }

  /** The plugin sends a call exactly when some `"VIBRATE": <digits>` occurs and
      the leftmost one is at most 100. */
  lemma PollSendsIffVibrate(connected: bool, text: string)
    ensures Poll(connected, Some(text)).Some? <==>
      connected && FindSingleVibrate(text).Some? && FindSingleVibrate(text).value.value <= 100
    ensures Poll(connected, Some(text)).None? && connected && FindSingleVibrate(text).None? ==>
      forall q, h | 0 <= q <= |text| :: !Matches(SingleVibrateRegex, text, q, h)
  {
    if FindSingleVibrate(text).Some? {
      assert text != "";
    }
  }

  /** A message that starts with `"VIBRATE": v` makes the plugin send intensity
      `v` / 100, or nothing when `v` is over 100. */
  lemma {:induction false} PollRoundTrip(v: nat, rest: string)
    requires rest == [] || !IsDigit(rest[0])
    ensures Poll(true, Some(VibrateText(v) + rest)) == if v <= 100 then Some(Vibrate(Fraction(v))) else None
  {
    SingleVibrateRoundTrip(v, rest);
  }

  /** On a message whose first command is a single VIBRATE, the main script
      sends the same call as the plugin the first time it sees the message, and
      nothing the second time, where the plugin sends the call again. */
  lemma {:induction false} SameFirstCallNoRepeat(s: Session.SessionState, text: string,
                                                 parse: string -> Option<PatternCommand>, ok: bool, ok': bool)
    requires Session.IsNew(s, true, Some(text))
    requires FindMultiVibrate(text).None? && FindSingleVibrate(text).Some?
    ensures var r := Session.Process(s, true, Some(text), parse, ok);
      && r.call == Poll(true, Some(text))
      && Session.Process(r.state, true, Some(text), parse, ok').call.None?
  {
    var n := FindSingleVibrate(text).value.value;
    assert Session.Recognise(text) == Some(Session.SingleVibrate(n));
    Session.ProcessTwiceIsProcessOnce(s, true, Some(text), parse, ok, ok');
  }

  /** The same holds for `processMessage` as written. */
  lemma {:induction false} SameFirstCallNoRepeatAsWritten(s: Session.SessionState, text: string,
                                                          parse: string -> Option<PatternCommand>, ok: bool, ok': bool)
    requires Session.IsNew(s, true, Some(text))
    requires FindMultiVibrate(text).None? && FindSingleVibrate(text).Some?
    ensures var r := Session.ProcessAsWritten(s, true, Some(text), parse, ok);
      && r.call == Poll(true, Some(text))
      && Session.ProcessAsWritten(r.state, true, Some(text), parse, ok').call.None?
  {
    var n := FindSingleVibrate(text).value.value;
    assert Session.Recognise(text) == Some(Session.SingleVibrate(n));
    Session.ProcessAsWrittenTwiceIsOnce(s, true, Some(text), parse, ok, ok');
  }
}
