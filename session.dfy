/**
  `processMessage` of script.js: reading the newest chat message, skipping one
  already handled, recognising the first command in it, stopping what runs,
  and starting what the command asks for. The module-level variables it keeps
  between messages (`lastProcessedMessage`, the two timer ids, `isStroking`)
  and the loops and timers it leaves behind form a `SessionState`; the timer
  callbacks and the resumptions of a suspended `strokerLoop` are step
  functions over it, and the class `Extension` holds the state and updates it
  in place.
*/
module Session {
  import opened Wrappers
  import opened Scan
  import opened Commands
  import opened Effects

  /** A command found in a message, with its captured numbers or brace group. */
  datatype Command =
    | MultiVibrate(json: string)
    | SingleVibrate(percent: nat)
    | LinearCmd(linear: LinearArgs)
    | LinearSpeedCmd(speed: LinearSpeedArgs)

  /** Everything `processMessage` leaves behind:
      - `lastProcessed`: `lastProcessedMessage` (None for its initial `null`);
      - `vibration`: the pattern whose `setTimeout` is armed (`vibrateIntervalId`);
      - `stroke`: the LINEAR stroke whose `setInterval` runs (`strokerIntervalId`);
      - `isStroking`: the flag every `strokerLoop` checks;
      - `loops`: the `strokerLoop`s suspended on their device call, each with its
        own `isAtStart` and `currentStep`. */
  datatype SessionState = SessionState(
    lastProcessed: Option<string>,
    vibration: Option<Pattern>,
    stroke: Option<Stroke>,
    isStroking: bool,
    loops: seq<Ramp>)

  /** The state when the page loads. */
  const Initial: SessionState := SessionState(None, None, None, false, [])

  /** What one step does: the state after it and the device call it sends, if any. */
  datatype Step = Step(state: SessionState, call: Option<DeviceCall>)

  predicate WellFormed(s: SessionState) {
    forall i | 0 <= i < |s.loops| :: ValidRamp(s.loops[i])
  }

  /** The four regexes are all tried; the first of multi-VIBRATE, single VIBRATE,
      LINEAR and LINEAR_SPEED that matches decides the command. */
  function Recognise(text: string): (c: Option<Command>)
    ensures FindMultiVibrate(text).Some? ==> c == Some(MultiVibrate(FindMultiVibrate(text).value.value))
    ensures FindMultiVibrate(text).None? && FindSingleVibrate(text).Some? ==>
      c == Some(SingleVibrate(FindSingleVibrate(text).value.value))
    ensures FindMultiVibrate(text).None? && FindSingleVibrate(text).None? && FindLinear(text).Some? ==>
      c == Some(LinearCmd(FindLinear(text).value.value))
    ensures FindMultiVibrate(text).None? && FindSingleVibrate(text).None? && FindLinear(text).None? ==>
      c == (if FindLinearSpeed(text).Some? then Some(LinearSpeedCmd(FindLinearSpeed(text).value.value)) else None)
  {
    match FindMultiVibrate(text)
    case Some(m) => Some(MultiVibrate(m.value))
    case None =>
      match FindSingleVibrate(text)
      case Some(v) => Some(SingleVibrate(v.value))
      case None =>
        match FindLinear(text)
        case Some(l) => Some(LinearCmd(l.value))
        case None =>
          match FindLinearSpeed(text)
          case Some(l) => Some(LinearSpeedCmd(l.value))
          case None => None
  }

  /** Some regex of the four matches `t` at `q`. */
  ghost predicate AnyMatch(t: string, q: nat, h: Hit)
    requires q <= |t|
  {
    Matches(MultiVibrateRegex, t, q, h) || Matches(SingleVibrateRegex, t, q, h)
    || Matches(LinearRegex, t, q, h) || Matches(LinearSpeedRegex, t, q, h)
  }

  /** The match `Recognise` relies on, where it starts and what it yields. */
  lemma RecognisedAt(text: string) returns (q: nat, h: Hit)
    requires Recognise(text).Some?
    ensures q <= |text| && AnyMatch(text, q, h)
  {
    var m, v, l, ls := FindMultiVibrate(text), FindSingleVibrate(text), FindLinear(text), FindLinearSpeed(text);
    if m.Some? {
      q, h := m.value.offset, Hit(m.value.end, [Text(m.value.value)]);
    } else if v.Some? {
      q, h := v.value.offset, Hit(v.value.end, [Number(v.value.value)]);
    } else if l.Some? {
      var a := l.value.value;
      q, h := l.value.offset, Hit(l.value.end, [Number(a.startPos), Number(a.endPos), Number(a.duration)]);
    } else {
      var a := ls.value.value;
      q, h := ls.value.offset, Hit(ls.value.end, [Number(a.startPos), Number(a.endPos), Number(a.startDur),
                                                   Number(a.endDur), Number(a.steps)]);
    }
  }

  /** A message holds a command exactly when one of the four regexes matches
      somewhere in it. */
  lemma RecogniseIffSomeMatch(text: string)
    ensures Recognise(text).Some? <==> exists q: nat, h | q <= |text| :: AnyMatch(text, q, h)
  {
    if Recognise(text).Some? {
      var q, h := RecognisedAt(text);
    } else {
      forall q: nat, h | q <= |text|
        ensures !AnyMatch(text, q, h)
      {
        assert FindMultiVibrate(text).None? && FindSingleVibrate(text).None?;
        assert FindLinear(text).None? && FindLinearSpeed(text).None?;
      }
    }
  }

  /** `stopActions`: clears the pattern's timeout and the stroke's interval and
      lowers `isStroking`. Suspended `strokerLoop`s are not stopped: they end
      only when they resume and find the flag down. */
  function StopActions(s: SessionState): (r: SessionState)
    ensures r.vibration.None? && r.stroke.None? && !r.isStroking
    ensures r.lastProcessed == s.lastProcessed && r.loops == s.loops
  {
    s.(vibration := None, stroke := None, isStroking := false)
  }

  /** The intended `stopActions`: as above, and every running `strokerLoop` ends too. */
  function CancelAll(s: SessionState): (r: SessionState)
    ensures r.vibration.None? && r.stroke.None? && !r.isStroking && r.loops == []
    ensures r.lastProcessed == s.lastProcessed
  {
    StopActions(s).(loops := [])
  }

  /** One run of `executeVibration` on the armed pattern: it sends the entry's
      call, if the entry is playable, and arms the next run, unless that call
      was rejected, which ends the pattern. */
  function PlayPattern(s: SessionState, p: Pattern, ok: bool): (r: Step)
    ensures r.call == Fire(p).call
    ensures r.state == s.(vibration := if r.call.Some? && !ok then None else Some(Fire(p).next))
  {
    var b := Fire(p);
    Step(s.(vibration := if b.call.Some? && !ok then None else Some(b.next)), b.call)
  }

  /** Starting what a command asks for, once the previous actions are stopped.
      `parse` is `JSON.parse` followed by reading `pattern` and `interval` (None
      when it throws); `ok` is the outcome of the first device call. */
  function Dispatch(s: SessionState, cmd: Command, parse: string -> Option<PatternCommand>, ok: bool): (r: Step)
    ensures cmd.MultiVibrate? ==>
      r == (if parse(cmd.json).Some? && StartPattern(parse(cmd.json).value).Some?
            then PlayPattern(s, StartPattern(parse(cmd.json).value).value, ok) else Step(s, None))
    ensures cmd.SingleVibrate? ==>
      r.state == s && (r.call.Some? <==> cmd.percent <= 100)
      && (r.call.Some? ==> r.call.value == Vibrate(Fraction(cmd.percent)))
    ensures cmd.LinearCmd? ==>
      r.state == s.(stroke := Some(Stroke(cmd.linear, false)))
      && r.call == Some(Linear(Fraction(cmd.linear.endPos), cmd.linear.duration))
    ensures cmd.LinearSpeedCmd? && cmd.speed.steps > 1 ==>
      var r0 := Ramp(cmd.speed, true, 0);
      r.state == s.(isStroking := true, loops := s.loops + [r0]) && r.call == Some(RampMove(r0))
    ensures cmd.LinearSpeedCmd? && cmd.speed.steps <= 1 ==> r == Step(s, None)
  {
    match cmd
    case MultiVibrate(json) =>
      (match parse(json)
       case None => Step(s, None)
       case Some(c) =>
         match StartPattern(c)
         case None => Step(s, None)
         case Some(p) => PlayPattern(s, p, ok))
    case SingleVibrate(n) =>
      Step(s, if n <= 100 then Some(Vibrate(Fraction(n))) else None)
    case LinearCmd(a) =>
      var (call, stroke) := StartStroke(a);
      Step(s.(stroke := Some(stroke)), Some(call))
    case LinearSpeedCmd(a) =>
      match StartRamp(a)
      case None => Step(s, None)
      case Some(r0) => Step(s.(isStroking := true, loops := s.loops + [r0]), Some(RampMove(r0)))
  }

  /** Whether `processMessage` looks at `message` at all: a device is connected,
      the chat's last message has non-empty text, and that text differs from
      `lastProcessedMessage`. */
  predicate IsNew(s: SessionState, connected: bool, message: Option<string>)
    ensures IsNew(s, connected, message) ==> connected && message.Some? && message.value != ""
    ensures s.lastProcessed == message ==> !IsNew(s, connected, message)
  {
    connected && message.Some? && message.value != "" && s.lastProcessed != message
  }

  /** A new message holding `cmd`, as written: mark it, `stopActions`, and
      dispatch. The loops already running are all still there afterwards. */
  function HandleAsWritten(s: SessionState, message: string, cmd: Command,
                           parse: string -> Option<PatternCommand>, ok: bool): (r: Step)
    ensures r.state.lastProcessed == Some(message)
    ensures r.state.vibration.Some? ==> cmd.MultiVibrate?
    ensures r.state.stroke.Some? ==> cmd.LinearCmd?
    ensures s.loops <= r.state.loops && |r.state.loops| <= |s.loops| + 1
  {
    Dispatch(StopActions(s.(lastProcessed := Some(message))), cmd, parse, ok)
  }

  /** A new message holding `cmd`, with the intended `stopActions`: whatever ran
      before, afterwards at most the effect `cmd` starts is running. */
  function Handle(s: SessionState, message: string, cmd: Command,
                  parse: string -> Option<PatternCommand>, ok: bool): (r: Step)
    ensures r.state.lastProcessed == Some(message)
    ensures Invariant(r.state)
    ensures r.state.vibration.Some? ==> cmd.MultiVibrate?
    ensures r.state.stroke.Some? ==> cmd.LinearCmd?
    ensures r.state.loops != [] ==> cmd.LinearSpeedCmd?
  {
    Dispatch(CancelAll(s.(lastProcessed := Some(message))), cmd, parse, ok)
  }

  /** `processMessage` as written. */
  function ProcessAsWritten(s: SessionState, connected: bool, message: Option<string>,
                            parse: string -> Option<PatternCommand>, ok: bool): (r: Step)
    ensures !IsNew(s, connected, message) || Recognise(message.value).None? ==> r == Step(s, None)
    ensures IsNew(s, connected, message) && Recognise(message.value).Some? ==>
      r == HandleAsWritten(s, message.value, Recognise(message.value).value, parse, ok)
  {
    if !IsNew(s, connected, message) then Step(s, None)
    else
      match Recognise(message.value)
      case None => Step(s, None)
      case Some(cmd) => HandleAsWritten(s, message.value, cmd, parse, ok)
  }

  /** `processMessage` with the intended `stopActions`, which also ends every
      running `strokerLoop`. */
  function Process(s: SessionState, connected: bool, message: Option<string>,
                   parse: string -> Option<PatternCommand>, ok: bool): (r: Step)
    ensures !IsNew(s, connected, message) || Recognise(message.value).None? ==> r == Step(s, None)
    ensures IsNew(s, connected, message) && Recognise(message.value).Some? ==>
      r == Handle(s, message.value, Recognise(message.value).value, parse, ok)
  {
    if !IsNew(s, connected, message) then Step(s, None)
    else
      match Recognise(message.value)
      case None => Step(s, None)
      case Some(cmd) => Handle(s, message.value, cmd, parse, ok)
  }

  /** The `setTimeout` of the pattern fires: one more run of `executeVibration`. */
  function OnPatternTimeout(s: SessionState, ok: bool): (r: Step)
    ensures s.vibration.None? ==> r == Step(s, None)
    ensures s.vibration.Some? ==> r == PlayPattern(s, s.vibration.value, ok)
  {
    match s.vibration
    case None => Step(s, None)
    case Some(p) => PlayPattern(s, p, ok)
  }

  /** The `setInterval` of the LINEAR stroke fires. */
  function OnStrokeInterval(s: SessionState, ok: bool): (r: Step)
    ensures s.stroke.None? ==> r == Step(s, None)
    ensures s.stroke.Some? ==>
      r.call == Some(TickStroke(s.stroke.value, ok).0) && r.state == s.(stroke := Some(TickStroke(s.stroke.value, ok).1))
  {
    match s.stroke
    case None => Step(s, None)
    case Some(st) =>
      var (call, st') := TickStroke(st, ok);
      Step(s.(stroke := Some(st')), Some(call))
  }

  /** `loops` without the loop at `i`. */
  function Without(loops: seq<Ramp>, i: nat): (r: seq<Ramp>)
    requires i < |loops|
    ensures |r| == |loops| - 1
    ensures forall j | 0 <= j < |r| :: r[j] == loops[if j < i then j else j + 1]
  {
    loops[..i] + loops[i + 1..]
  }

  /** Loop `i` resumes after its device call settles (and, on success, after its
      wait): a rejection lowers the shared `isStroking` and ends the loop; a
      success advances the loop, which then sends its next move if `isStroking`
      is still up and ends otherwise. */
  function OnLoopResume(s: SessionState, i: nat, ok: bool): (r: Step)
    requires WellFormed(s) && i < |s.loops|
    ensures WellFormed(r.state)
    ensures !ok ==> r == Step(s.(isStroking := false, loops := Without(s.loops, i)), None)
    ensures ok && !s.isStroking ==> r == Step(s.(loops := Without(s.loops, i)), None)
    ensures ok && s.isStroking ==>
      r.state == s.(loops := s.loops[i := Advance(s.loops[i])]) && r.call == Some(RampMove(Advance(s.loops[i])))
  {
    var r0 := s.loops[i];
    if !ok then Step(s.(isStroking := false, loops := Without(s.loops, i)), None)
    else
      var r1 := Advance(r0);
      if s.isStroking then Step(s.(loops := s.loops[i := r1]), Some(RampMove(r1)))
      else Step(s.(loops := Without(s.loops, i)), None)
  }

  // ---------------------------------------------------------------------------
  // Properties
  // ---------------------------------------------------------------------------

  /** Handling a message a second time does nothing: either it held no command,
      or it is now `lastProcessedMessage`. */
  lemma {:induction false} ProcessTwiceIsProcessOnce(s: SessionState, connected: bool, message: Option<string>,
                                                     parse: string -> Option<PatternCommand>, ok: bool, ok': bool)
    ensures var s' := Process(s, connected, message, parse, ok).state;
      Process(s', connected, message, parse, ok') == Step(s', None)
  {
    var s' := Process(s, connected, message, parse, ok).state;
    if IsNew(s, connected, message) && Recognise(message.value).Some? {
      assert s'.lastProcessed == message;
    }
  }

  /** A message is marked as handled exactly when it is new and holds a command,
      whether or not the command then starts anything. */
  lemma MarkedIffCommand(s: SessionState, connected: bool, message: Option<string>,
                         parse: string -> Option<PatternCommand>, ok: bool)
    ensures var r := Process(s, connected, message, parse, ok);
      IsNew(s, connected, message) && Recognise(message.value).Some? <==> r.state.lastProcessed != s.lastProcessed
    ensures var r := Process(s, connected, message, parse, ok);
      r.state.lastProcessed != s.lastProcessed ==> r.state.lastProcessed == message
  {
  }

  /** A multi-VIBRATE command whose brace group does not parse stops what was
      running, starts nothing and sends nothing; the single-VIBRATE regex is not
      consulted, and the message stays marked. */
  lemma MultiParseFailureStopsAll(s: SessionState, connected: bool, text: string,
                                  parse: string -> Option<PatternCommand>, ok: bool)
    requires IsNew(s, connected, Some(text)) && FindMultiVibrate(text).Some?
    requires parse(FindMultiVibrate(text).value.value).None?
    ensures Process(s, connected, Some(text), parse, ok)
      == Step(SessionState(Some(text), None, None, false, []), None)
  {
  }

  /** As written, too, handling the same message a second time does nothing. */
  lemma {:induction false} ProcessAsWrittenTwiceIsOnce(s: SessionState, connected: bool, message: Option<string>,
                                                       parse: string -> Option<PatternCommand>, ok: bool, ok': bool)
    ensures var s' := ProcessAsWritten(s, connected, message, parse, ok).state;
      ProcessAsWritten(s', connected, message, parse, ok') == Step(s', None)
  {
    var s' := ProcessAsWritten(s, connected, message, parse, ok).state;
    if IsNew(s, connected, message) && Recognise(message.value).Some? {
      assert s'.lastProcessed == message;
    }
  }

  /** As written, a message is marked exactly when it is new and holds a command. */
  lemma MarkedIffCommandAsWritten(s: SessionState, connected: bool, message: Option<string>,
                                  parse: string -> Option<PatternCommand>, ok: bool)
    ensures var r := ProcessAsWritten(s, connected, message, parse, ok);
      IsNew(s, connected, message) && Recognise(message.value).Some? <==> r.state.lastProcessed != s.lastProcessed
    ensures var r := ProcessAsWritten(s, connected, message, parse, ok);
      r.state.lastProcessed != s.lastProcessed ==> r.state.lastProcessed == message
  {
  }

  /** As written, a multi-VIBRATE command whose brace group does not parse
      disarms the pattern and the stroke and lowers `isStroking`, but the
      suspended `strokerLoop`s are still there; nothing is sent. */
  lemma MultiParseFailureAsWritten(s: SessionState, connected: bool, text: string,
                                   parse: string -> Option<PatternCommand>, ok: bool)
    requires IsNew(s, connected, Some(text)) && FindMultiVibrate(text).Some?
    requires parse(FindMultiVibrate(text).value.value).None?
    ensures ProcessAsWritten(s, connected, Some(text), parse, ok)
      == Step(SessionState(Some(text), None, None, false, s.loops), None)
  {
  }

  /** The number of effects that keep sending calls on their own. */
  function LiveEffects(s: SessionState): (n: nat)
    ensures n == 0 <==> s.vibration.None? && s.stroke.None? && s.loops == []
  {
    (if s.vibration.Some? then 1 else 0) + (if s.stroke.Some? then 1 else 0) + |s.loops|
  }

  /** What the intended design keeps: at most one effect runs, and a
      `strokerLoop` runs exactly while `isStroking` is up. */
  predicate Invariant(s: SessionState)
    ensures Invariant(s) && s.isStroking ==> s.vibration.None? && s.stroke.None? && |s.loops| == 1
    ensures Invariant(s) && (s.vibration.Some? || s.stroke.Some?) ==> !s.isStroking && s.loops == []
    ensures Invariant(s) ==> s.vibration.None? || s.stroke.None?
  {
    WellFormed(s) && LiveEffects(s) <= 1 && (s.isStroking <==> |s.loops| == 1)
  }

  lemma InitialInvariant()
    ensures Invariant(Initial) && LiveEffects(Initial) == 0
  {
  }

  lemma {:induction false} ProcessKeepsInvariant(s: SessionState, connected: bool, message: Option<string>,
                                                 parse: string -> Option<PatternCommand>, ok: bool)
    requires Invariant(s)
    ensures Invariant(Process(s, connected, message, parse, ok).state)
  {
  }

  lemma {:induction false} OnPatternTimeoutKeepsInvariant(s: SessionState, ok: bool)
    requires Invariant(s)
    ensures Invariant(OnPatternTimeout(s, ok).state)
  {
  }

  lemma {:induction false} OnStrokeIntervalKeepsInvariant(s: SessionState, ok: bool)
    requires Invariant(s)
    ensures Invariant(OnStrokeInterval(s, ok).state)
  {
  }

  lemma {:induction false} OnLoopResumeKeepsInvariant(s: SessionState, i: nat, ok: bool)
    requires Invariant(s) && i < |s.loops|
    ensures Invariant(OnLoopResume(s, i, ok).state)
  {
    var r := OnLoopResume(s, i, ok).state;
    assert |r.loops| <= |s.loops|;
  }

  /** The two versions agree on everything but the suspended loops. */
  lemma {:induction false} HandleDiffersOnlyInLoops(s: SessionState, message: string, cmd: Command,
                                                    parse: string -> Option<PatternCommand>, ok: bool)
    ensures var a := HandleAsWritten(s, message, cmd, parse, ok);
      var b := Handle(s, message, cmd, parse, ok);
      a.call == b.call && a.state.(loops := []) == b.state.(loops := [])
  {
    var c := StopActions(s.(lastProcessed := Some(message)));
    assert CancelAll(s.(lastProcessed := Some(message))) == c.(loops := []);
  }

  lemma {:induction false} ProcessDiffersOnlyInLoops(s: SessionState, connected: bool, message: Option<string>,
                                                     parse: string -> Option<PatternCommand>, ok: bool)
    ensures var a := ProcessAsWritten(s, connected, message, parse, ok);
      var b := Process(s, connected, message, parse, ok);
      a.call == b.call && a.state.(loops := []) == b.state.(loops := [])
  {
    if IsNew(s, connected, message) && Recognise(message.value).Some? {
      HandleDiffersOnlyInLoops(s, message.value, Recognise(message.value).value, parse, ok);
    }
  }

  /** As written, a new LINEAR_SPEED command adds its loop to those already
      suspended and raises `isStroking` for all of them. */
  lemma {:induction false} LinearSpeedAsWritten(s: SessionState, m: string, a: LinearSpeedArgs,
                                                parse: string -> Option<PatternCommand>, ok: bool)
    requires IsNew(s, true, Some(m)) && Recognise(m) == Some(LinearSpeedCmd(a)) && a.steps > 1
    ensures var r := ProcessAsWritten(s, true, Some(m), parse, ok);
      && r.state == SessionState(Some(m), None, None, true, s.loops + [Ramp(a, true, 0)])
      && r.call == Some(RampMove(Ramp(a, true, 0)))
  {
  }

  /** With the intended `stopActions`, a new LINEAR_SPEED command leaves its own loop only. */
  lemma {:induction false} LinearSpeedIntended(s: SessionState, m: string, a: LinearSpeedArgs,
                                               parse: string -> Option<PatternCommand>, ok: bool)
    requires IsNew(s, true, Some(m)) && Recognise(m) == Some(LinearSpeedCmd(a)) && a.steps > 1
    ensures var r := Process(s, true, Some(m), parse, ok);
      && r.state == SessionState(Some(m), None, None, true, [Ramp(a, true, 0)])
      && r.call == Some(RampMove(Ramp(a, true, 0)))
  {
  }

  /** As written, a second LINEAR_SPEED message leaves the first `strokerLoop`
      running beside the new one: `stopActions` lowered `isStroking`, but the new
      command raised it again before the old loop resumed (what that loop then
      does is `StaleLoopResumes`). */
  lemma {:induction false} StaleRampSurvives(m1: string, m2: string, a1: LinearSpeedArgs, a2: LinearSpeedArgs,
                                             parse: string -> Option<PatternCommand>)
    requires m1 != "" && m2 != "" && m1 != m2
    requires Recognise(m1) == Some(LinearSpeedCmd(a1)) && a1.steps > 1
    requires Recognise(m2) == Some(LinearSpeedCmd(a2)) && a2.steps > 1
    ensures var s1 := SessionState(Some(m1), None, None, true, [Ramp(a1, true, 0)]);
      var s2 := SessionState(Some(m2), None, None, true, [Ramp(a1, true, 0), Ramp(a2, true, 0)]);
      && ProcessAsWritten(Initial, true, Some(m1), parse, true).state == s1
      && ProcessAsWritten(s1, true, Some(m2), parse, true).state == s2
      && LiveEffects(s2) == 2
  {
    LinearSpeedAsWritten(Initial, m1, a1, parse, true);
    var s1 := SessionState(Some(m1), None, None, true, [Ramp(a1, true, 0)]);
    LinearSpeedAsWritten(s1, m2, a2, parse, true);
  }

  /** In the state `StaleRampSurvives` reaches, the first loop, when it resumes,
      sends its next move and keeps running beside the second one. */
  lemma StaleLoopResumes(m2: string, a1: LinearSpeedArgs, a2: LinearSpeedArgs)
    requires a1.steps > 1 && a2.steps > 1
    ensures var s2 := SessionState(Some(m2), None, None, true, [Ramp(a1, true, 0), Ramp(a2, true, 0)]);
      && WellFormed(s2)
      && OnLoopResume(s2, 0, true)
         == Step(s2.(loops := [Advance(Ramp(a1, true, 0)), Ramp(a2, true, 0)]), Some(RampMove(Advance(Ramp(a1, true, 0)))))
  {
  }

  /** With the intended `stopActions` the same two messages leave only the second loop. */
  lemma {:induction false} SecondRampReplacesFirst(m1: string, m2: string, a1: LinearSpeedArgs, a2: LinearSpeedArgs,
                                                   parse: string -> Option<PatternCommand>)
    requires m1 != "" && m2 != "" && m1 != m2
    requires Recognise(m1) == Some(LinearSpeedCmd(a1)) && a1.steps > 1
    requires Recognise(m2) == Some(LinearSpeedCmd(a2)) && a2.steps > 1
    ensures var s1 := SessionState(Some(m1), None, None, true, [Ramp(a1, true, 0)]);
      var s2 := SessionState(Some(m2), None, None, true, [Ramp(a2, true, 0)]);
      && Process(Initial, true, Some(m1), parse, true).state == s1
      && Process(s1, true, Some(m2), parse, true).state == s2
      && LiveEffects(s2) == 1
  {
    LinearSpeedIntended(Initial, m1, a1, parse, true);
    var s1 := SessionState(Some(m1), None, None, true, [Ramp(a1, true, 0)]);
    LinearSpeedIntended(s1, m2, a2, parse, true);
  }

  // ---------------------------------------------------------------------------
  // The session object
  // ---------------------------------------------------------------------------

  /** The module-level state of script.js, updated in place by `processMessage`
      and by the timer callbacks it arms. */
  class Extension {
    var lastProcessed: Option<string>
    var vibration: Option<Pattern>
    var stroke: Option<Stroke>
    var isStroking: bool
    var loops: seq<Ramp>

    function State(): SessionState
      reads this
    {
      SessionState(lastProcessed, vibration, stroke, isStroking, loops)
    }

    predicate Valid()
      reads this
    {
      Invariant(State())
    }

    constructor ()
      ensures State() == Initial && Valid()
    {
      lastProcessed, vibration, stroke, isStroking, loops := None, None, None, false, [];
    }

    method Set(s: SessionState)
      modifies this
      ensures State() == s
    {
      lastProcessed, vibration, stroke, isStroking, loops := s.lastProcessed, s.vibration, s.stroke, s.isStroking, s.loops;
    }

    /** `processMessage`: returns the device call it sends, if any. */
    method ProcessMessage(connected: bool, message: Option<string>,
                          parse: string -> Option<PatternCommand>, ok: bool) returns (call: Option<DeviceCall>)
      requires Valid()
      modifies this
      ensures Valid()
      ensures State() == Process(old(State()), connected, message, parse, ok).state
      ensures call == Process(old(State()), connected, message, parse, ok).call
    {
      if !connected || message.None? || message.value == "" || lastProcessed == message {
        return None;
      }
      var cmd := Recognise(message.value);
      if cmd.None? {
        return None;
      }
      call := Execute(message.value, cmd.value, parse, ok);
    }

    /** What `processMessage` does once a new message holds a command: it
        marks the message, runs `stopActions` and dispatches the command. */
    method Execute(message: string, cmd: Command, parse: string -> Option<PatternCommand>, ok: bool)
      returns (call: Option<DeviceCall>)
      requires Valid()
      modifies this
      ensures Valid()
      ensures State() == Handle(old(State()), message, cmd, parse, ok).state
      ensures call == Handle(old(State()), message, cmd, parse, ok).call
    {
      ghost var s0 := State();
      lastProcessed := Some(message);
      // stopActions, and the loops it should have ended
      vibration, stroke, isStroking, loops := None, None, false, [];
      assert State() == CancelAll(s0.(lastProcessed := Some(message)));
      var r := Dispatch(State(), cmd, parse, ok);
      Set(r.state);
      call := r.call;
    }

    /** The pattern's timeout fires. */
    method FireVibration(ok: bool) returns (call: Option<DeviceCall>)
      requires Valid()
      modifies this
      ensures Valid()
      ensures State() == OnPatternTimeout(old(State()), ok).state
      ensures call == OnPatternTimeout(old(State()), ok).call
    {
      OnPatternTimeoutKeepsInvariant(State(), ok);
      if vibration.None? {
        return None;
      }
      var b := Fire(vibration.value);
      call := b.call;
      vibration := if call.Some? && !ok then None else Some(b.next);
    }

    /** The LINEAR stroke's interval fires. */
    method TickStroker(ok: bool) returns (call: Option<DeviceCall>)
      requires Valid()
      modifies this
      ensures Valid()
      ensures State() == OnStrokeInterval(old(State()), ok).state
      ensures call == OnStrokeInterval(old(State()), ok).call
    {
      OnStrokeIntervalKeepsInvariant(State(), ok);
      if stroke.None? {
        return None;
      }
      var (c, st) := TickStroke(stroke.value, ok);
      stroke := Some(st);
      call := Some(c);
    }

    /** Suspended loop `i` resumes. */
    method ResumeLoop(i: nat, ok: bool) returns (call: Option<DeviceCall>)
      requires Valid() && i < |loops|
      modifies this
      ensures Valid()
      ensures State() == OnLoopResume(old(State()), i, ok).state
      ensures call == OnLoopResume(old(State()), i, ok).call
    {
      OnLoopResumeKeepsInvariant(State(), i, ok);
      var r := loops[i];
      if !ok {
        isStroking := false;
        loops := Without(loops, i);
        return None;
      }
      // A loop runs only while `isStroking` is up, so after a success it
      // always goes on with its next move.
      r := Advance(r);
      loops := loops[i := r];
      call := Some(RampMove(r));
    }
  }
}
