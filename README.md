# Chat-driven device commands: a Dafny model

The repository is a SillyTavern extension that drives an Intiface/Buttplug
device from chat. While a device is connected, `processMessage` runs once a
second (`setInterval(processMessage, 1000)`) and reads the newest chat
message. It looks for a JSON-like command the character wrote in it and turns
that command into device calls.

Two versions of `processMessage` are modelled.

- **`script.js`**: the main extension. It knows four commands:
  - `"VIBRATE": {"pattern": [...], "interval": ...}`: a repeating vibration
    pattern;
  - `"VIBRATE": n`: one intensity;
  - `"LINEAR": {start_position, end_position, duration}`: a back-and-forth
    stroke;
  - `"LINEAR_SPEED": {start_position, end_position, start_duration,
    end_duration, steps}`: a stroke whose duration ramps from one value to
    another.

  It skips a message it has already handled. Before starting the new command
  it calls `stopActions`, which clears the pattern's timeout and the stroke's
  interval and lowers `isStroking`; a `strokerLoop` suspended on its device
  call is not stopped (see "## Findings"). The effects it starts keep
  themselves going with timers and an `async` loop.
- **`lovense-sillytavern-plugin/script.js`**: the earlier plugin. It only knows
  `"VIBRATE": n` and keeps no state.

The project has these modules:

- **`Scan`** (`scan.dfy`): a matcher for the regex fragment the commands are
  written in:
  - case-insensitive literals;
  - `\s*`;
  - `(?:")?`;
  - `(\d+)`;
  - `({[^}]+})`.

  `Run` follows the backtracking order of `RegExp.prototype.exec`. `Matches`
  is the declarative grammar, and `Find` is the leftmost search of
  `String.prototype.match`.
- **`Commands`** (`commands.dfy`): the four regexes as token lists, with
  extractors that return typed captures.
- **`Render`** (`render.dfy`): canonical command text, and the round trips
  proving that each regex reads back exactly what was written.
- **`Effects`** (`effects.dfy`): the three self-driving effects:
  - the pattern stepper `executeVibration`;
  - the LINEAR alternator;
  - the LINEAR_SPEED ramp, including `strokerLoop` as a loop method.
- **`Session`** (`session.dfy`): `processMessage` as a transition over the
  state it keeps between messages, with these parts:
  - `lastProcessedMessage`;
  - the armed timers;
  - `isStroking`;
  - the suspended loops;
  - the timer callbacks and loop resumptions as further steps;
  - the class `Extension`, which updates that state in place.
- **`Poller`** (`poller.dfy`): the plugin's `processMessage`.

**Parameters and arithmetic**
- A connected device, the chat's last message and the outcome of each device
  call are parameters.
- `JSON.parse` of a multi-VIBRATE brace group is a parameter
  `parse: string -> Option<PatternCommand>`, where None means it threw.
- Intensities and positions are integer percents sent as `percent / 100`.
  They are computed exactly as reals.
- `Math.round` is `floor(x + 1/2)` over exact rationals.

**Failed device calls**

- Vibration pattern: a rejected call ends the pattern, because `executeVibration` does not re-arm its timer.
- LINEAR stroke: the failure is logged and the stroke goes on.
- `strokerLoop`: the failure lowers the shared `isStroking`, which ends every loop.

## Model

| member | source | states |
|---|---|---|
| Scan.IsSpace | script.js:192-195 | JavaScript's `\s`; no space is a digit, a letter or any of the punctuation the command regexes spell out |
| Scan.Fold | script.js:192-195 | the `i` flag on ASCII keywords: nothing folds to an upper-case letter, a letter folds to the lower case of the same letter, and everything else is left alone |
| Scan.Value | script.js:261 | `parseInt(s, 10)` of a digit run is 0 exactly when every digit is `0` |
| Scan.ValueOfShow | script.js:261 | `parseInt` of the decimal numeral of `n` is `n`; a captured digit run denotes the number it spells |
| Scan.Run | script.js:192-195 | the backtracking matcher at one start; a hit ends within the text at or after its start, and `RunSound`, `RunComplete` and `RunEndsAfterDigits` state what it matches |
| Scan.Backtrack | script.js:192-195 | a greedy quantifier gives characters back one at a time: it picks the largest split point in range from which the rest matches, and fails only if the rest matches from none |
| Scan.RunSound | script.js:192-195 | whatever the backtracking matcher returns at a start is a match of the regex grammar there |
| Scan.RunComplete | script.js:192-195 | whenever the grammar matches at a start, the backtracking matcher finds a match there |
| Scan.RunEndsAfterDigits | script.js:193-195 | `(\d+)` is greedy: a match of a regex ending in `(\d+)` ends where the digit run ends, never inside it |
| Scan.FindFrom | script.js:197-200 | the search returns the first start offset at which the matcher succeeds, and none exists before it |
| Scan.FindIsLeftmostMatch | script.js:197-200 | `match` reports the leftmost offset where the regex matches, with a valid match; it reports nothing only if the regex matches nowhere |
| Commands.Locate | script.js:197-200 | the leftmost match of a command regex, with the hit the matcher returns there; its captures' kinds (number or text) are the regex's groups in order |
| Commands.FindMultiVibrate | script.js:192 | the leftmost `"VIBRATE": {…}`, its brace group as text; none exactly when the regex matches nowhere |
| Commands.FindSingleVibrate | script.js:193 | the leftmost `"VIBRATE": <digits>` and the number of its whole digit run, since the match never stops before a further digit; none exactly when the regex matches nowhere |
| Commands.FindLinear | script.js:194 | the leftmost LINEAR record, its three numbers in key order |
| Commands.FindLinearSpeed | script.js:195 | the leftmost LINEAR_SPEED record, its five numbers in key order |
| Commands.ShapeOfRecord | script.js:194-195 | a record regex has exactly one numeric capture group per key, so the `length === 4` and `length === 6` tests always pass on a match |
| Commands.RunFits | script.js:192-195 | a match carries one capture per group of its regex, in order: a number for each `(\d+)` and a text for each brace group |
| Render.SingleVibrateRoundTrip | script.js:193 | `"VIBRATE": v` followed by a non-digit reads back as intensity `v` at offset 0 |
| Render.MultiVibrateRoundTrip | script.js:192 | `"VIBRATE": {inner}` reads back the whole brace group, braces included |
| Render.LinearRoundTrip | script.js:194 | the canonical LINEAR record reads back its three numbers |
| Render.LinearSpeedRoundTrip | script.js:195 | the canonical LINEAR_SPEED record reads back its five numbers |
| Render.RunRecord | script.js:194-195 | from wherever a record is written in its regex's key order, the record regex matches up to its closing brace and captures its numbers in order |
| Effects.StartPattern | script.js:227-230 | a pattern starts exactly when `pattern` is an array and `interval` is truthy; a single interval becomes a one-element list |
| Effects.Fire | script.js:232-253 | one run plays entry `patternIndex` (reset to 0 past the end) exactly when it is a number within 0..100, sends it as percent / 100, and waits `intervals[patternIndex % length]` |
| Effects.Wait | script.js:245-252 | `setTimeout`'s delay: the slot's interval when it is a non-negative number, 0 for a negative one or for a missing one (an empty interval list) |
| Effects.PatternRepeats | script.js:232-253 | from a fresh start, run `k` plays entry `k mod n` and waits the delay of that slot: the pattern loops forever |
| Effects.EmptyPatternIdles | script.js:232-253 | an empty `pattern` is re-armed forever: every run resets the index to 0, sends nothing and waits the delay of slot 0 |
| Effects.SlotAfter | script.js:233-235 | after `k` runs the index has wrapped to `k mod n` |
| Effects.SingleIntervalIsConstant | script.js:229 | with one positive number as `interval`, every run waits exactly that long |
| Effects.StartStroke | script.js:283-286 | the first LINEAR move goes to `endPos`, and `isAtStart` flips whatever its outcome |
| Effects.TickStroke | script.js:288-296 | an interval callback moves to the current target; the target flips only when the move succeeds |
| Effects.Strokes | script.js:288-296 | a run of interval callbacks sends one move per callback |
| Effects.StrokesAlternate | script.js:288-296 | each move goes where the successes before it point; a failed move is repeated |
| Effects.LinearStrokesFromStart | script.js:283-296 | with every move succeeding, a LINEAR stroke goes end, start, end, … |
| Effects.StartRamp | script.js:305-311 | a LINEAR_SPEED command starts a loop exactly when `steps > 1`, at step 0 heading for the end |
| Effects.InterpolatedBetween | script.js:315 | at every step the interpolated duration lies between `startDur` and `endDur`, in either order |
| Effects.Round | script.js:316 | `Math.round`: the integer within half of `x`, a half rounded up |
| Effects.StepDuration | script.js:315-316 | the rounded interpolated duration starts at `startDur`, ends at `endDur` and stays between them |
| Effects.StepDurationMonotone | script.js:315-316 | the durations move monotonically from `startDur` towards `endDur` |
| Effects.RampExample | script.js:315-316 | 1000 ms to 200 ms over 5 steps gives 1000, 800, 600, 400, 200 |
| Effects.Advance | script.js:329-333 | after a success the target flips and the step advances, wrapping to 0 after the last |
| Effects.AdvancedFromStart | script.js:329-333 | pass `n` of a fresh loop is at step `n mod steps`, heading for the end on even passes |
| Effects.RampMoves | script.js:313-338 | the loop's moves alternate end and start and follow the duration ramp, starting over after the last step |
| Effects.LeadingSuccesses | script.js:334-337 | the first failed call ends the loop |
| Effects.StrokerLoop | script.js:313-338 | `strokerLoop` sends the moves of the ramp until a call fails; it waits each step's duration after a success and stops on the first failure |
| Session.Recognise | script.js:197-200 | the command dispatched is that of the first regex, in the order multi-VIBRATE, single VIBRATE, LINEAR, LINEAR_SPEED, that matches |
| Session.RecogniseIffSomeMatch | script.js:203-207 | a message holds a command exactly when one of the four regexes matches somewhere in it |
| Session.StopActions | script.js:209-220 | `stopActions` disarms the pattern and the stroke and lowers `isStroking`; suspended loops stay |
| Session.CancelAll | script.js:209-222 | the intended `stopActions`, which also ends every loop |
| Session.PlayPattern | script.js:232-253 | a run sends the entry's call, if any, and re-arms unless that call was rejected |
| Session.Dispatch | script.js:224-343 | what each command starts and the call it sends first; a parse failure, an out-of-range intensity or `steps <= 1` start nothing |
| Session.IsNew | script.js:180-187 | a message is looked at only while connected and only if its text is non-empty; the message last processed is never new |
| Session.HandleAsWritten | script.js:203-343 | a new message with a command is marked, and after it only the effect of that command can be armed; suspended loops stay and at most one is added |
| Session.Handle | script.js:203-343 | the same with the intended `stopActions`: the message is marked, the invariant holds afterwards, and whatever runs was started by this command |
| Session.ProcessAsWritten | script.js:179-344 | no effect while disconnected, on an empty or already-handled message, or on one without a command; otherwise mark it, stop, and dispatch |
| Session.Process | script.js:179-344 | the same with the intended `stopActions` |
| Session.OnPatternTimeout | script.js:252 | the pattern's timeout fires one more run when armed and does nothing otherwise |
| Session.OnStrokeInterval | script.js:288 | the stroke's interval fires one tick when armed |
| Session.OnLoopResume | script.js:313-338 | a resumed loop: a failure lowers the shared flag and ends it; a success advances it, and it sends its next move only if `isStroking` is up |
| Session.Without | script.js:313-338 | removing a finished loop keeps the others in order |
| Session.ProcessTwiceIsProcessOnce | script.js:185-187 | with the intended `stopActions`, handling the same message a second time does nothing |
| Session.ProcessAsWrittenTwiceIsOnce | script.js:185-187 | as written, too, handling the same message a second time does nothing |
| Session.MarkedIffCommand | script.js:203-207 | with the intended `stopActions`, a message is marked as handled exactly when it is new and holds a command |
| Session.MarkedIffCommandAsWritten | script.js:203-207 | as written, too, a message is marked exactly when it is new and holds a command |
| Session.MultiParseFailureStopsAll | script.js:224-259 | with the intended `stopActions`, a multi-VIBRATE whose brace group does not parse stops everything and starts nothing, with no fallback to single VIBRATE |
| Session.MultiParseFailureAsWritten | script.js:209-259 | as written, the same message disarms the pattern and the stroke and lowers `isStroking`, but keeps the suspended loops; nothing is sent and there is no fallback |
| Session.LiveEffects | script.js:174-177 | the count of self-driving effects is zero exactly when none is armed |
| Session.Invariant | script.js:174-177 | the intended state: at most one effect runs; while `isStroking` is up exactly one loop runs and nothing else; an armed pattern or stroke runs alone |
| Session.InitialInvariant | script.js:174-177 | the page starts with nothing running |
| Session.ProcessKeepsInvariant | script.js:179-344 | with the intended `stopActions`, at most one effect runs after any message, and a loop runs exactly while `isStroking` is up |
| Session.OnPatternTimeoutKeepsInvariant | script.js:232-253 | a pattern run keeps that invariant |
| Session.OnStrokeIntervalKeepsInvariant | script.js:288-296 | a stroke tick keeps that invariant |
| Session.OnLoopResumeKeepsInvariant | script.js:313-338 | a loop resumption keeps that invariant |
| Session.ProcessDiffersOnlyInLoops | script.js:209-222 | the as-written and intended versions agree on everything but the suspended loops |
| Session.HandleDiffersOnlyInLoops | script.js:209-222 | for a given command, the as-written and intended versions agree on everything but the suspended loops |
| Session.LinearSpeedAsWritten | script.js:298-312 | as written, a new LINEAR_SPEED message with `steps > 1` raises `isStroking`, adds its loop beside the suspended ones and sends its first move |
| Session.LinearSpeedIntended | script.js:298-312 | with the intended `stopActions`, the same message leaves its own loop as the only one |
| Session.StaleRampSurvives | script.js:209-222 | as written, after two LINEAR_SPEED messages both loops stay suspended with `isStroking` up, so two effects are live |
| Session.StaleLoopResumes | script.js:313-338 | in that state the first loop, resuming after a success, sends its next move and stays beside the second |
| Session.SecondRampReplacesFirst | script.js:298-343 | with the intended `stopActions`, only the second loop remains |
| Session.Extension.constructor | script.js:174-177 | the session starts in the initial state, invariant holding |
| Session.Extension.ProcessMessage | script.js:179-344 | the in-place update is the intended transition and keeps the invariant |
| Session.Extension.Execute | script.js:203-343 | marking, stopping and dispatching in place is `Handle` and keeps the invariant |
| Session.Extension.FireVibration | script.js:232-253 | the in-place pattern run is `OnPatternTimeout` and keeps the invariant |
| Session.Extension.TickStroker | script.js:288-296 | the in-place stroke tick is `OnStrokeInterval` and keeps the invariant |
| Session.Extension.ResumeLoop | script.js:313-338 | the in-place loop resumption is `OnLoopResume` and keeps the invariant |
| Poller.Poll | lovense-sillytavern-plugin/script.js:111-131 | a call is sent only when connected, for the leftmost `"VIBRATE": n` with `n` at most 100, as `n / 100` |
| Poller.PollSendsIffVibrate | lovense-sillytavern-plugin/script.js:117-131 | a call is sent exactly when the regex matches and the leftmost number is at most 100 |
| Poller.PollRoundTrip | lovense-sillytavern-plugin/script.js:120-127 | a message starting with `"VIBRATE": v` sends `v / 100`, or nothing above 100 |
| Poller.SameFirstCallNoRepeat | lovense-sillytavern-plugin/script.js:111-131 | on a single-VIBRATE message, the main script with the intended `stopActions` sends the plugin's call first, then skips the message, whereas the plugin sends the call again on every pass |
| Poller.SameFirstCallNoRepeatAsWritten | lovense-sillytavern-plugin/script.js:111-131 | the same for the main script as written |

## Findings

| source | as written | input that shows it | evidently intended | confidence | as-written member | corrected member |
|---|---|---|---|---|---|---|
| script.js:209-222 | `stopActions` only lowers the shared `isStroking`, and the next LINEAR_SPEED raises it again before the old `strokerLoop` resumes | two different messages in a row, each holding a LINEAR_SPEED record with `steps > 1` and no other command: two loops then drive the device at once | a new command ends every running `strokerLoop` | not executed | Session.StaleRampSurvives | Session.SecondRampReplacesFirst |

`Session.ProcessAsWritten` is the code as written. `Session.Process` is the
corrected transition; the class `Extension` and the invariant lemmas use it.

## Left out

- Connecting, scanning and device removal (`connect`, `disconnect`, `handleDeviceRemoved`) and the Buttplug client are left out. A connected device is a boolean parameter.
- The manual controls (sliders, Start/Stop Stroking buttons) and every DOM update (status line, slider values, interval display) are left out.
- Timers and promises are left out. Each timer callback or loop resumption is one step, and the outcome of each device call is a parameter. Interleaving inside a step is not modelled. One example: a message handled while `executeVibration` awaits its call, after which that call re-arms the old pattern.
- `JSON.parse` and the reading of `pattern`/`interval` are a parameter. Pattern entries are whole numbers or not numbers at all. Fractional values, numeric strings and non-number interval entries are not modelled.
- JavaScript numbers are not modelled. Captured integers are unbounded, so very long digit runs, which `parseInt` turns into imprecise floats, are exact here. Durations and intensities are exact reals rather than doubles.
- String offsets count code points rather than UTF-16 units. The `i` flag folds only ASCII letters, which is all the keywords need.
- Effects.StrokerLoop: runs one loop alone against a list of outcomes. The loop interleaved with other messages is `Session.OnLoopResume`.
- Session.Extension.ResumeLoop: under the invariant a loop only exists while `isStroking` is up. The method therefore has no branch for a successful resumption with the flag down, which the as-written `Session.OnLoopResume` covers.
- Session.StaleRampSurvives: is stated for any two messages recognised as LINEAR_SPEED rather than for a fixed text. No lemma proves that a particular string is recognised as LINEAR_SPEED and as nothing else.
