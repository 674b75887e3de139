/** The assessment page: the stepper's finish button stops the focus monitor and bundles its
    final average with the two test scores that the page last received. */
module Session {
  import opened Scoring
  import AttentionFocus
  import DigitSpan
  import Steps

  /** `{ digitSpanScore, cognitiveLoadScore, averageFocusLevel }`; the average is `undefined`
      (None) when the monitor was not running, since `stop()` then returns nothing. */
  datatype SessionResult = SessionResult(digitSpanScore: nat, cognitiveLoadScore: nat, averageFocusLevel: Option<nat>)

  /** The "Next"/"Finish" button: before the last step it only advances; at the last step
      `onFinish` runs `onFinalize(stop())`. */
  method Next(stepper: Steps.Stepper, monitor: AttentionFocus.FocusMonitor,
              digitSpanScore: nat, cognitiveLoadScore: nat)
      returns (result: Option<SessionResult>)
    requires stepper.Valid() && monitor.Valid()
    modifies stepper, monitor
    ensures stepper.Valid() && monitor.Valid()
    ensures old(stepper.current) + 1 < stepper.total ==>
              result == None && stepper.current == old(stepper.current) + 1 && unchanged(monitor)
    ensures old(stepper.current) + 1 >= stepper.total ==>
              result.Some? && stepper.current == old(stepper.current) && !monitor.running &&
              result.value.digitSpanScore == digitSpanScore &&
              result.value.cognitiveLoadScore == cognitiveLoadScore
    ensures old(stepper.current) + 1 >= stepper.total && old(monitor.running) ==>
              result.value.averageFocusLevel == Some(AttentionFocus.Mean(old(monitor.history)))
    ensures old(stepper.current) + 1 >= stepper.total && !old(monitor.running) ==>
              result.value.averageFocusLevel == None
    ensures monitor.history == old(monitor.history) && monitor.available == old(monitor.available)
    ensures monitor.hits == old(monitor.hits) && monitor.total == old(monitor.total)
    ensures monitor.focusLevel == old(monitor.focusLevel)
    ensures monitor.averageFocusLevel == old(monitor.averageFocusLevel)
    ensures monitor.elapsedTime == old(monitor.elapsedTime)
  {
    var finished := stepper.GoNext();
    if finished {
      var avg := monitor.Stop();
      result := Some(SessionResult(digitSpanScore, cognitiveLoadScore, avg));
    } else {
      result := None;
    }
  }

  /** The digit-span task's start button: `startTask` runs and then its `onStart` callback,
      which the page wires to the monitor's `start`. The monitor restarts from an empty history
      unless it is already running (or the gaze library is not loaded), in which case it keeps
      every field. */
  method StartDigitSpan(task: DigitSpan.DigitSpanTask, monitor: AttentionFocus.FocusMonitor, draws: seq<int>)
    requires task.Valid() && monitor.Valid()
    requires DigitSpan.DrawsInRange(draws) && DigitSpan.InitialLength <= |DigitSpan.Kept(draws)|
    modifies task, monitor
    ensures task.Valid() && monitor.Valid()
    ensures task.stage == DigitSpan.Show && task.mode == DigitSpan.Forward && task.showIdx == 0
    ensures task.sequence == DigitSpan.Kept(draws)[..DigitSpan.InitialLength]
    ensures task.attempts == 0 && task.correctCount == 0 && task.input == ""
    ensures task.results == DigitSpan.Spans(0, 0) && task.currentDigit == old(task.currentDigit)
    ensures old(monitor.running) || !old(monitor.available) ==> unchanged(monitor)
    ensures !old(monitor.running) && old(monitor.available) ==>
              monitor.running && monitor.available && monitor.history == [] &&
              monitor.hits == 0 && monitor.total == 0 && monitor.elapsedTime == 0
  {
    task.StartTask(draws);
    monitor.Start();
  }

  /** Three buckets with ratios 90, 70 and 80, a digit-span score of 100 and an n-back accuracy
      of 75 finish as `{100, 75, 80}`. */
  method EndToEndScenario(stepper: Steps.Stepper, monitor: AttentionFocus.FocusMonitor)
      returns (result: Option<SessionResult>)
    requires stepper.Valid() && monitor.Valid()
    requires stepper.total == 2 && stepper.current == 1
    requires monitor.running && monitor.history == [90, 70, 80]
    modifies stepper, monitor
    ensures result == Some(SessionResult(100, 75, Some(80)))
  {
    assert AttentionFocus.Sum([90, 70, 80]) == 240 by {
      AttentionFocus.SumAppend([], 90);
      AttentionFocus.SumAppend([90], 70);
      AttentionFocus.SumAppend([90, 70], 80);
    }
    result := Next(stepper, monitor, 100, 75);
  }
}
