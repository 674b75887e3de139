/** The focus monitor: gaze samples are classified as hits when they fall in the centre of the
    viewport, each interval tick turns the bucket's counts into a percentage appended to a
    history, and stopping the monitor reports the rounded mean of that history. */
module AttentionFocus {
  import opened Scoring

  /** `arr.reduce((acc, val) => acc + val, 0)`: a left fold, so the last element is added last. */
  function Sum(s: seq<nat>): nat
  {
    if s == [] then 0 else Sum(s[..|s| - 1]) + s[|s| - 1]
  }

  lemma SumAppend(s: seq<nat>, x: nat)
    ensures Sum(s + [x]) == Sum(s) + x
  {
    assert (s + [x])[..|s|] == s;
  }

  /** Every element at most `k` bounds the sum by `k` per element. */
  lemma {:induction false} SumAtMost(s: seq<nat>, k: nat)
    requires forall i :: 0 <= i < |s| ==> s[i] <= k
    ensures Sum(s) <= k * |s|
  {
    if s != [] {
      SumAtMost(s[..|s| - 1], k);
    }
  }

  /** `arr.length > 0 ? Math.round(sum / arr.length) : 0`, the rolling and the final average. */
  function Mean(s: seq<nat>): (r: nat)
    ensures s == [] ==> r == 0
    ensures s != [] ==> 2 * |s| * r <= 2 * Sum(s) + |s| < 2 * |s| * (r + 1)
    ensures (forall i :: 0 <= i < |s| ==> s[i] <= 100) ==> r <= 100
  {
    if |s| > 0 then
      if forall i :: 0 <= i < |s| ==> s[i] <= 100 then
        SumAtMost(s, 100);
        RoundDivAtMost(Sum(s), |s|, 100);
        RoundDiv(Sum(s), |s|)
      else RoundDiv(Sum(s), |s|)
    else 0
  }

  /** The rolling averages published after bucket ratios 80, 60 and 100. */
  lemma RollingAverageExample()
    ensures Mean([80]) == 80 && Mean([80, 60]) == 70 && Mean([80, 60, 100]) == 80
  {
    assert Sum([80]) == 80 by { SumAppend([], 80); }
    assert Sum([80, 60]) == 140 by { SumAppend([80], 60); }
    assert Sum([80, 60, 100]) == 240 by { SumAppend([80, 60], 100); }
  }

  /** The gaze hit test as written: strictly inside the rectangle spanning the middle half of
      the viewport on both axes, with the margins computed as `w * 0.25` around `w / 2`. */
  predicate InCentre(x: real, y: real, width: nat, height: nat)
    ensures InCentre(x, y, width, height) ==> 0.0 < x < width as real && 0.0 < y < height as real
    ensures width == 0 || height == 0 ==> !InCentre(x, y, width, height)
  {
    var w, h := width as real, height as real;
    var marginX, marginY := w * 0.25, h * 0.25;
    var cx, cy := w / 2.0, h / 2.0;
    x > cx - marginX && x < cx + marginX && y > cy - marginY && y < cy + marginY
  }

  /** The hit region is the open rectangle between the quarter and three-quarter lines. */
  lemma InCentreIsMiddleHalf(x: real, y: real, width: nat, height: nat)
    ensures InCentre(x, y, width, height) <==>
              width as real / 4.0 < x < 3.0 * width as real / 4.0 &&
              height as real / 4.0 < y < 3.0 * height as real / 4.0
  {
  }

  /** `total > 0 ? Math.round((hits / total) * 100) : 0`. */
  function FocusRatio(hits: nat, total: nat): (lvl: nat)
    ensures hits <= total ==> lvl <= 100
    ensures total == 0 ==> lvl == 0
    ensures total > 0 ==> 2 * total * lvl <= 200 * hits + total < 2 * total * (lvl + 1)
  {
    Percentage(hits, total)
  }

  /** The wrapper's state: `available` is `webgazerRef.current` being set, `hits`, `total` and
      `history` are the refs, the rest are the React state variables. */
  class FocusMonitor {
    var available: bool
    var running: bool
    var hits: nat
    var total: nat
    var history: seq<nat>
    var focusLevel: nat
    var averageFocusLevel: nat
    var elapsedTime: nat

    /** Counts never exceed samples, every ratio is a percentage, the current focus level is the
        latest ratio and the published average is always the mean of the history. */
    ghost predicate Valid()
      reads this
    {
      && hits <= total
      && (forall i :: 0 <= i < |history| ==> history[i] <= 100)
      && focusLevel == (if history == [] then 0 else history[|history| - 1])
      && averageFocusLevel == Mean(history)
    }

    constructor ()
      ensures Valid()
      ensures !available && !running
      ensures hits == 0 && total == 0 && history == []
      ensures focusLevel == 0 && averageFocusLevel == 0 && elapsedTime == 0
    {
      available, running := false, false;
      hits, total, history := 0, 0, [];
      focusLevel, averageFocusLevel, elapsedTime := 0, 0, 0;
    }

    /** The dynamic import of the gaze library resolved and its handle was stored. */
    method EngineLoaded()
      requires Valid()
      modifies this
      ensures Valid() && available
      ensures running == old(running) && hits == old(hits) && total == old(total)
      ensures history == old(history) && focusLevel == old(focusLevel)
      ensures averageFocusLevel == old(averageFocusLevel) && elapsedTime == old(elapsedTime)
    {
      available := true;
    }

    /** Ignored while running or before the gaze library is loaded; otherwise every counter
        and the history are cleared and the monitor runs. */
    method Start()
      requires Valid()
      modifies this
      ensures Valid() && available == old(available)
      ensures old(running) || !old(available) ==> unchanged(this)
      ensures !old(running) && old(available) ==>
                running && hits == 0 && total == 0 && history == [] &&
                focusLevel == 0 && averageFocusLevel == 0 && elapsedTime == 0
    {
      if running || !available {
        return;
      }
      history := [];
      hits, total := 0, 0;
      focusLevel, averageFocusLevel, elapsedTime := 0, 0, 0;
      running := true;
    }

    /** The gaze listener: attached only while running. Each sample is counted, and counted as a
        hit exactly when it lies strictly inside the centre region of a `width` by `height`
        viewport. */
    method Sample(x: real, y: real, width: nat, height: nat)
      requires Valid()
      modifies this
      ensures Valid()
      ensures running ==> total == old(total) + 1
      ensures running ==> hits == old(hits) + (if InCentre(x, y, width, height) then 1 else 0)
      ensures !running ==> total == old(total) && hits == old(hits)
      ensures available == old(available) && running == old(running)
      ensures history == old(history) && focusLevel == old(focusLevel)
      ensures averageFocusLevel == old(averageFocusLevel) && elapsedTime == old(elapsedTime)
    {
      if !running {
        return;
      }
      total := total + 1;
      if InCentre(x, y, width, height) {
        hits := hits + 1;
      }
    }

    /** The metrics interval: the bucket's ratio is appended to the history and published with
        the new rolling average, and the bucket's counters restart from zero. */
    method Tick()
      requires Valid()
      modifies this
      ensures Valid()
      ensures old(running) ==> history == old(history) + [FocusRatio(old(hits), old(total))]
      ensures old(running) ==> hits == 0 && total == 0
      ensures old(running) ==> focusLevel == FocusRatio(old(hits), old(total))
      ensures old(running) ==> averageFocusLevel == Mean(history) && averageFocusLevel <= 100
      ensures !old(running) ==>
                hits == old(hits) && total == old(total) && history == old(history) &&
                focusLevel == old(focusLevel) && averageFocusLevel == old(averageFocusLevel)
      ensures available == old(available) && running == old(running)
      ensures elapsedTime == old(elapsedTime)
    {
      if !running {
        return;
      }
      var lvl := FocusRatio(hits, total);
      focusLevel := lvl;
      history := history + [lvl];
      averageFocusLevel := Mean(history);
      hits, total := 0, 0;
    }

    /** The stopwatch interval: one second more, nothing that is scored changes. */
    method StopwatchTick()
      requires Valid()
      modifies this
      ensures Valid()
      ensures elapsedTime == old(elapsedTime) + (if running then 1 else 0)
      ensures available == old(available) && running == old(running)
      ensures hits == old(hits) && total == old(total) && history == old(history)
      ensures focusLevel == old(focusLevel) && averageFocusLevel == old(averageFocusLevel)
    {
      if running {
        elapsedTime := elapsedTime + 1;
      }
    }

    /** Returns nothing when not running. Otherwise the monitor stops and the mean of the whole
        history, which is the last average a tick published (0 without ticks), is handed to
        `onTimerStop` and returned. The history itself is left as it is. */
    method Stop() returns (avg: Option<nat>)
      requires Valid()
      modifies this
      ensures Valid() && !running
      ensures !old(running) ==> avg == None
      ensures old(running) ==> avg == Some(Mean(history)) && avg.value <= 100
      ensures old(running) ==> avg == Some(old(averageFocusLevel))
      ensures available == old(available) && hits == old(hits) && total == old(total)
      ensures history == old(history) && focusLevel == old(focusLevel)
      ensures averageFocusLevel == old(averageFocusLevel) && elapsedTime == old(elapsedTime)
    {
      if !running {
        return None;
      }
      running := false;
      var mean := Mean(history);
      averageFocusLevel := mean;
      avg := Some(mean);
    }
  }

  /** A bucket of five samples of which four lie in the centre of a 100 by 100 viewport. */
  method FourOfFiveBucket(m: FocusMonitor)
    requires m.Valid() && m.running && m.hits == 0 && m.total == 0
    modifies m
    ensures m.Valid() && m.running && m.hits == 4 && m.total == 5 && m.history == old(m.history)
  {
    m.Sample(50.0, 50.0, 100, 100);
    m.Sample(40.0, 60.0, 100, 100);
    m.Sample(30.0, 70.0, 100, 100);
    assert m.hits == 3 && m.total == 3;
    m.Sample(60.0, 40.0, 100, 100);
    m.Sample(10.0, 50.0, 100, 100);
  }

  /** A bucket of five samples of which three are hits; the two on the border are not. */
  method ThreeOfFiveBucket(m: FocusMonitor)
    requires m.Valid() && m.running && m.hits == 0 && m.total == 0
    modifies m
    ensures m.Valid() && m.running && m.hits == 3 && m.total == 5 && m.history == old(m.history)
  {
    m.Sample(50.0, 50.0, 100, 100);
    m.Sample(50.0, 50.0, 100, 100);
    m.Sample(50.0, 50.0, 100, 100);
    assert m.hits == 3 && m.total == 3;
    m.Sample(25.0, 50.0, 100, 100);
    m.Sample(50.0, 75.0, 100, 100);
  }

  /** A monitored session whose three buckets have ratios 80, 60 and 100: the averages published
      after the ticks are 80, 70 and 80, and stopping reports 80. */
  method RollingAverageScenario()
  {
    var m := new FocusMonitor();
    m.EngineLoaded();
    m.Start();
    FourOfFiveBucket(m);
    assert FocusRatio(4, 5) == 80;
    m.Tick();
    assert m.history == [80];
    assert m.averageFocusLevel == 80 by { RollingAverageExample(); }
    ThreeOfFiveBucket(m);
    assert FocusRatio(3, 5) == 60;
    m.Tick();
    assert m.history == [80, 60];
    assert m.averageFocusLevel == 70 by { RollingAverageExample(); }
    // third bucket: a single sample, a hit
    m.Sample(50.0, 50.0, 100, 100);
    assert FocusRatio(1, 1) == 100;
    m.Tick();
    assert m.history == [80, 60, 100];
    assert m.averageFocusLevel == 80 by { RollingAverageExample(); }
    m.StopwatchTick();
    var avg := m.Stop();
    assert avg == Some(80);
    var again := m.Stop();
    assert again == None;
  }
}
