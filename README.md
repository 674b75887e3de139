# Cognitive-assessment engine, modelled in Dafny

This project models the part of a browser-based assessment suite that scores answers. There are
three measurements: a focus monitor fed by gaze samples, a digit-span memory task (a forward
phase, then a backward phase) and an n-back test. A stepper runs the two tests in order. The
focus monitor runs around them: starting the digit-span task starts it, and the finish step
stops it and bundles the three scores. The React components become Dafny classes. Their fields are the
components' state and refs. Their methods are the source's handlers, effects and timer callbacks.
Each of these is one explicit event:

- `Sample(x, y, w, h)`: a gaze sample.
- `Tick`: a metrics-interval tick.
- `StopwatchTick`: a stopwatch tick.
- `ShowTick`: a show-interval tick.
- `Timeout`: an n-back deadline passing.
- `Respond(b)`: an answer button.
- `Edit(s)` and `Submit`: typing into the digit field, and submitting it.
- `GoNext` and `GoPrev`: the stepper's buttons.

Pure logic is written as functions with lemmas about them:

- the rounding;
- the mean;
- the hit test;
- the correctness check;
- the expected-match rule;
- the accuracy count;
- the progress percentage;
- the step label.

`Math.round(a / b)` with `a >= 0` and `b > 0` is modelled exactly as `(2a + b) / (2b)` in
integer division, which rounds halves up. Randomness is an input: each generator takes the
sequence of integer draws `Math.floor(Math.random() * k)` that it consumes. Callbacks appear as
return values. `Stop` returns the average handed to `onTimerStop`. `Submit` returns the score
handed to `onScore`. The n-back events return the accuracy handed to `onComplete`. `GoNext`
returns whether `onFinish` ran.

Files: `scoring.dfy` has the shared rounding. The other files are one per component:
`attention_focus.dfy`, `digit_span.dfy`, `cognitive_load.dfy`, `steps.dfy` and `session.dfy`
(the assessment page's finish step).

Some behaviour of the code as written is worth stating plainly:

- The gaze hit region is strict on all four sides (`x > w/4`, `x < 3w/4`, and likewise for `y`):
  a sample on the quarter lines is not a hit.
- The n-back letters are drawn independently, so they may repeat, adjacent positions included.
- The digit-span length is never changed: both phases use length 3. `results.forward` and
  `results.backward` start at 0, and each becomes 3 or 2 once its phase is submitted.
- The progress percentage is at least 1 only when there are at most 200 steps.
  `Steps.PercentZeroAtFirstOf201` shows 0% for the first of 201 steps.
- During the first second of the backward show stage the last forward digit is still on
  display, since only the show interval's ticks change the displayed digit.

## Model

| member | source | states |
|---|---|---|
| Scoring.RoundDiv | src/components/AttentionFocusWrapper.js:140 | `Math.round(a/b)` is the unique `r` with `2br <= 2a+b < 2b(r+1)`: the quotient rounded half up |
| Scoring.RoundDivUnique | src/components/AttentionFocusWrapper.js:140 | that characterisation has exactly one solution, so the integer formula equals the rounded quotient |
| Scoring.RoundDivAtMost | src/components/AttentionFocusWrapper.js:146 | a rounded quotient stays within any integer bound of the exact quotient |
| Scoring.RoundedPercentBounds | src/components/CognitiveLoadTest.js:80 | rounding `100·part/total` gives at most 100 when `part <= total`, and exactly 100 when `part == total` |
| Scoring.Percentage | src/components/CognitiveLoadTest.js:80 | `total > 0 ? round(100·part/total) : 0`: 0 without data, in `[0,100]` when `part <= total`, 100 when all count, 0 when none does |
| AttentionFocus.Sum | src/components/AttentionFocusWrapper.js:145 | the left-fold sum `reduce((acc, val) => acc + val, 0)` |
| AttentionFocus.SumAppend | src/components/AttentionFocusWrapper.js:142-145 | pushing a ratio adds exactly that ratio to the sum |
| AttentionFocus.SumAtMost | src/components/AttentionFocusWrapper.js:145 | ratios each at most `k` sum to at most `k·length` |
| AttentionFocus.Mean | src/components/AttentionFocusWrapper.js:144-146 | the rounded mean: 0 for an empty history, otherwise `round(sum/length)`, and in `[0,100]` for percentages |
| AttentionFocus.RollingAverageExample | src/components/AttentionFocusWrapper.js:144-147 | ratios 80, 60, 100 publish rolling averages 80, 70, 80 |
| AttentionFocus.InCentre | src/components/AttentionFocusWrapper.js:124-131 | the hit test with the source's margins: a hit lies strictly inside the viewport, and a viewport of width or height 0 has no hits |
| AttentionFocus.InCentreIsMiddleHalf | src/components/AttentionFocusWrapper.js:124-131 | a sample is a hit iff `w/4 < x < 3w/4` and `h/4 < y < 3h/4`, strictly |
| AttentionFocus.FocusRatio | src/components/AttentionFocusWrapper.js:138-140 | the bucket ratio is 0 with no samples, `round(100·hits/total)` otherwise, and in `[0,100]` when `hits <= total` |
| AttentionFocus.FocusMonitor.constructor | src/components/AttentionFocusWrapper.js:19-28 | starts stopped, engine not loaded, every counter 0, history empty |
| AttentionFocus.FocusMonitor.EngineLoaded | src/components/AttentionFocusWrapper.js:38-41 | the gaze library handle becomes available, and nothing else changes |
| AttentionFocus.FocusMonitor.Start | src/components/AttentionFocusWrapper.js:111-119 | no-op when running or with no engine; otherwise history emptied, hits, total, focus, average and elapsed zeroed, running set |
| AttentionFocus.FocusMonitor.Sample | src/components/AttentionFocusWrapper.js:123-134 | while running, `total` grows by 1 and `hits` by 1 iff the sample is in the centre region (so `hits <= total` is kept); ignored otherwise |
| AttentionFocus.FocusMonitor.Tick | src/components/AttentionFocusWrapper.js:137-151 | appends `FocusRatio(hits,total)` to the history, publishes it and `Mean(history)` (both in `[0,100]`), resets hits and total |
| AttentionFocus.FocusMonitor.StopwatchTick | src/components/AttentionFocusWrapper.js:154-156 | elapsed time grows by exactly 1 while running, and no scoring state changes |
| AttentionFocus.FocusMonitor.Stop | src/components/AttentionFocusWrapper.js:160-181 | returns nothing when not running; otherwise stops and returns `Mean(history)` (the last published average, 0 without ticks) with the history unchanged |
| AttentionFocus.FourOfFiveBucket | src/components/AttentionFocusWrapper.js:123-134 | five samples, four of them in the centre, count 4 hits out of 5 while running and leave the history as it is |
| AttentionFocus.ThreeOfFiveBucket | src/components/AttentionFocusWrapper.js:123-134 | five samples, two of them on the quarter lines, count 3 hits out of 5 |
| AttentionFocus.RollingAverageScenario | src/components/AttentionFocusWrapper.js:123-181 | buckets of 4/5, 3/5 and 1/1 hits give history `[80,60,100]`, averages 80, 70, 80, stop reports 80, and a second stop reports nothing |
| DigitSpan.Kept | src/components/DigitSpanTask.js:29-34 | the digits rejection sampling keeps: never more than the draws, and at least one when there is a draw |
| DigitSpan.KeptAdjacentDistinct | src/components/DigitSpanTask.js:31-33 | the digits kept by rejection never repeat adjacently |
| DigitSpan.KeptDigits | src/components/DigitSpanTask.js:30 | every kept digit is `floor(random·9)+1`, so in 1..9 |
| DigitSpan.KeptPrefix | src/components/DigitSpanTask.js:29-34 | more draws never change the digits already kept |
| DigitSpan.KeptWithoutRepeats | src/components/DigitSpanTask.js:31-33 | a draw is rejected only when it repeats the previous one: repeat-free draws are all kept |
| DigitSpan.GenerateSequence | src/components/DigitSpanTask.js:27-36 | the loop returns exactly `len` digits, each in 1..9, adjacent-distinct, namely the first `len` digits kept from the draws |
| DigitSpan.Reverse | src/components/DigitSpanTask.js:71 | `[...sequence].reverse()`: same length, element `i` is element `len-1-i` |
| DigitSpan.ParseDigit | src/components/DigitSpanTask.js:72 | `parseInt(c, 10)` yields a value 0..9 exactly for a digit character, `NaN` otherwise |
| DigitSpan.IsDigitString | src/components/DigitSpanTask.js:150 | `^\d*$` accepts exactly the strings each character of which `parseInt` reads as a number |
| DigitSpan.IsCorrect | src/components/DigitSpanTask.js:72-75 | a correct answer has the expected length and holds only digits |
| DigitSpan.Spell | src/components/DigitSpanTask.js:72 | the text that writes out a digit sequence: one digit character per element |
| DigitSpan.IsCorrectIffSpelled | src/components/DigitSpanTask.js:72-75 | an answer is correct iff it is exactly the expected digits written out (both directions) |
| DigitSpan.ExpectedAnswer | src/components/DigitSpanTask.js:71 | the expected answer is the shown sequence forwards and its reverse backwards |
| DigitSpan.TwoAttemptScore | src/components/DigitSpanTask.js:104-106 | over two attempts the score is 50 per correct one: 0, 50 or 100 |
| DigitSpan.DigitSpanTask.constructor | src/components/DigitSpanTask.js:16-24 | forward mode, length 3, no sequence, instructions stage, empty input, results `{0,0}`, counters 0 |
| DigitSpan.DigitSpanTask.StartTask | src/components/DigitSpanTask.js:55-66 | forward mode, length 3, a fresh 3-digit sequence from the draws, show stage from its first digit, empty input, results `{0,0}`, counters 0 |
| DigitSpan.DigitSpanTask.ShowTick | src/components/DigitSpanTask.js:42-49 | each tick shows the next digit `sequence[idx]`, and after the last it enters the input stage |
| DigitSpan.DigitSpanTask.RunShowStage | src/components/DigitSpanTask.js:39-52 | the digits shown during a show stage are exactly the sequence, in order; the input stage then begins with the last digit still on display |
| DigitSpan.DigitSpanTask.Edit | src/components/DigitSpanTask.js:150 | the field takes a new value only if it matches `^\d*$`, so it only ever holds digits |
| DigitSpan.DigitSpanTask.DoneScore | src/components/DigitSpanTask.js:164 | the done screen's `round(100·correct/attempts)`, 0 without attempts, at most 100 |
| DigitSpan.DigitSpanTask.Submit | src/components/DigitSpanTask.js:69-110 | counts the attempt, counts it correct iff the answer matches the expected one, and leaves the displayed digit alone; forwards it starts the backward phase and reports nothing; backwards it reports `round(100·correct/attempts)`, which equals the done screen's score and is 50 per correct attempt |
| DigitSpan.DigitSpanTask.SubmitForward | src/components/DigitSpanTask.js:80-93 | `results.forward` becomes 3 or 2, `results.backward` is kept, and the backward phase starts with a fresh sequence from the draws, an empty field and the displayed digit unchanged |
| DigitSpan.DigitSpanTask.SubmitBackward | src/components/DigitSpanTask.js:94-109 | `results.backward` becomes 3 or 2, the task is done, sequence, field and display are kept, and the returned score equals the done screen's and is 50 per correct attempt |
| DigitSpan.ForwardPhase | src/components/DigitSpanTask.js:55-93 | start, show, answer: the backward show stage follows with the second sequence and an empty field, one attempt counted, correct iff the forward answer was |
| DigitSpan.BackwardPhase | src/components/DigitSpanTask.js:39-110 | show, answer: the task is done and the reported score is 50 per correct attempt over both, equal to the done screen's |
| DigitSpan.WholeTask | src/components/DigitSpanTask.js:55-110 | start, show, answer, show, answer: the single reported score is 50 times the number of correct answers and equals the done screen's |
| CognitiveLoad.Letters | src/components/CognitiveLoadTest.js:29-31 | one letter A–Z per draw, equal letters exactly where the draws are equal (repeats allowed) |
| CognitiveLoad.ExpectedMatch | src/components/CognitiveLoadTest.js:48 | no match is expected in the first `n` positions, and with lag 0 every position matches |
| CognitiveLoad.ExpectedMatchOnDraws | src/components/CognitiveLoadTest.js:29-31 | on generated letters a match is expected exactly where the draw equals the draw `n` positions back |
| CognitiveLoad.ExpectedMatchExample | src/components/CognitiveLoadTest.js:48 | for A,B,A,A,C with n = 2 the expected matches are F,F,T,F,F |
| CognitiveLoad.Scored | src/components/CognitiveLoadTest.js:78 | a record scores exactly when its response is the expected answer, a `null` response never |
| CognitiveLoad.ShownAsMatch | src/components/CognitiveLoadTest.js:124 | the screen's `r.response === r.match`: false for a `null` response, otherwise whether the answer is the expected one |
| CognitiveLoad.CountScored | src/components/CognitiveLoadTest.js:78 | the number of records whose answer equals the expected one is at most the number of records |
| CognitiveLoad.CountShown | src/components/CognitiveLoadTest.js:124 | the results screen's count is at most the number of records |
| CognitiveLoad.CountsAgree | src/components/CognitiveLoadTest.js:78 | the screen filter `r.response === r.match` and the effect filter count the same records, because `null` equals no boolean |
| CognitiveLoad.ShownAccuracy | src/components/CognitiveLoadTest.js:124-126 | the accuracy on the results screen: 0 with no records and at most 100 |
| CognitiveLoad.ScreenShowsReportedAccuracy | src/components/CognitiveLoadTest.js:124-126 | the accuracy on the results screen equals the one reported to `onComplete` |
| CognitiveLoad.Accuracy | src/components/CognitiveLoadTest.js:76-82 | `round(100·valid/total)`, 0 with no records, always in `[0,100]` |
| CognitiveLoad.CountAllScored | src/components/CognitiveLoadTest.js:78 | when every record is answered correctly, the count is the number of records |
| CognitiveLoad.CountNoneAnswered | src/components/CognitiveLoadTest.js:78 | when every deadline passed, the count is 0 |
| CognitiveLoad.AccuracyExtremes | src/components/CognitiveLoadTest.js:78-80 | all answers right give 100, and all timeouts give 0 |
| CognitiveLoad.Script | src/components/CognitiveLoadTest.js:48-56 | the records of a run: one per answered position, with the position's expected match |
| CognitiveLoad.ScriptStep | src/components/CognitiveLoadTest.js:52-56 | closing one more position appends exactly that position's record |
| CognitiveLoad.CognitiveLoadTest.constructor | src/components/CognitiveLoadTest.js:20-25 | instructions stage, empty sequence and records, index 0 |
| CognitiveLoad.CognitiveLoadTest.Settle | src/components/CognitiveLoadTest.js:39-49 | past the last position the results stage begins and the accuracy is reported, the letter and expected match on display being kept; otherwise the position's letter and expected match go on display |
| CognitiveLoad.CognitiveLoadTest.StartTest | src/components/CognitiveLoadTest.js:28-35 | `sequenceLength` letters from the draws, no records, index 0, test stage (results at once, reporting 0, when the length is 0) |
| CognitiveLoad.CognitiveLoadTest.Timeout | src/components/CognitiveLoadTest.js:52-56 | appends `{match, response: null}` and advances the index by exactly 1, keeping `responses.length == currentIdx` |
| CognitiveLoad.CognitiveLoadTest.Respond | src/components/CognitiveLoadTest.js:62-73 | ignored outside the test; otherwise appends `{match: expectMatch, response}` and advances by 1, reporting the accuracy once the last position is closed |
| CognitiveLoad.Answer | src/components/CognitiveLoadTest.js:52-73 | closing a position by answering or by timeout appends one record with that position's expected match |
| CognitiveLoad.WholeTest | src/components/CognitiveLoadTest.js:28-82 | a whole run ends in the results stage with exactly one record per position, and the accuracy is reported exactly once |
| Steps.Percent | src/components/Stepper.js:22 | no finite value with no steps; otherwise `round(100·(current+1)/total)` |
| Steps.PercentRange | src/components/Stepper.js:22 | on a valid index the percentage is at most 100, exactly 100 at the last step, and at least 1 for at most 200 steps |
| Steps.PercentZeroAtFirstOf201 | src/components/Stepper.js:22 | the lower bound 1 fails at 201 steps: the first step shows 0% |
| Steps.PercentMonotone | src/components/Stepper.js:22 | progress never decreases as the index advances |
| Steps.Decimal | src/components/Stepper.js:35 | a number is written as a non-empty string of digits without a leading zero |
| Steps.DecimalRoundTrip | src/components/Stepper.js:35 | the digits written for a number read back as that number |
| Steps.StepLabel | src/components/Stepper.js:35 | the label is `labels[current]` if present and non-empty, else `"Step "` followed by the decimal digits of `current+1` without a leading zero, so it is never empty |
| Steps.Stepper.constructor | src/components/Stepper.js:11-14 | the index starts at the first step |
| Steps.Stepper.GoPrev | src/components/Stepper.js:16 | decrements when `current > 0` and is a no-op at 0; `current < total` (or 0 with no steps) is kept |
| Steps.Stepper.GoNext | src/components/Stepper.js:17-20 | before the last step it increments without finishing; at the last step it finishes and the index stays; the index bound is kept |
| Session.Next | src/app/attention/page.js:21-30 | before the last step only advances and leaves the monitor unchanged; at the last step stops the monitor, keeping its other fields, and builds `{digitSpanScore, cognitiveLoadScore, averageFocusLevel}` with the monitor's mean, or `undefined` when it was not running |
| Session.StartDigitSpan | src/app/attention/page.js:51 | starting the digit-span task also calls the monitor's `start`: a stopped monitor restarts from an empty history, a running one (or one without the gaze library) is left unchanged; the task starts its forward show stage with results `{0,0}` and the displayed digit kept |
| Session.EndToEndScenario | src/app/attention/page.js:45-47 | focus ratios 90, 70, 80 with scores 100 and 75 give the result `{100, 75, 80}` |

## Left out

- Gaze-library setup, preview DOM polling and teardown (`begin`, `end`, `clearGazeListener`, moving the
  preview elements): these are calls into a foreign library. The engine is only an "available" flag
  plus a stream of samples.
- Real timers and React scheduling. Intervals, timeouts and effects are explicit events, each
  seeing the state that the previous event left. So interleavings in which a stale closure fires
  before a re-render are not modelled. One example is a click handled after a deadline's update
  was queued but before the re-render.
- Events that the page only delivers in one stage carry that stage as a precondition.
  Submits and edits happen in the input stage, show ticks in the show stage, and n-back
  deadlines in the test stage. Handlers whose guards are written in code are modelled as
  no-ops when those guards fail: `start`, `stop` and `handleRespond`.
- CognitiveLoad.Respond: with events atomic, the guard `prev.length === currentIdx` always holds,
  so the case where it fails and the index still advances is unreachable in this model.
- Floating point: every `Math.round(x / y * 100)` is exact rational rounding, so IEEE
  artefacts of the division are not modelled. Gaze coordinates are `real`, and the viewport size
  is a natural number.
- Randomness: the draws are parameters that all lemmas quantify over. DigitSpan.GenerateSequence,
  StartTask and Submit require enough accepted draws for the rejection loop to finish. The
  source loops until it gets them.
- The results effect re-running when the parent passes a new `onComplete` function is not
  modelled. In the model the accuracy is reported once per run.
- `onStart` is modelled only through the page's wiring (`Session.StartDigitSpan`). The page
  passes no `onStop`, so that callback does nothing there. The `webgazer.end()` call made on stop is
  a call into the gaze library.
- The `onScore` and `onComplete` callbacks only store the scores in page state. `Session.Next`
  takes the two scores the page last stored as parameters.
- Authentication, the personalization HTTP client, local persistence, page layout and static
  templates are not part of this model.
