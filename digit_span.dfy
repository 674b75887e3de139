/** The digit-span task: a sequence of three digits (1..9, no digit twice in a row) is shown one
    digit per second, the user types it back forwards, then a fresh sequence is shown and typed
    back in reverse, and the share of correct attempts is the score. */
module DigitSpan {
  import opened Scoring

  /** `INITIAL_LENGTH`: the length both phases start at (and, as written, keep). */
  const InitialLength: nat := 3

  predicate AdjacentDistinct(s: seq<int>)
  {
    forall i :: 0 < i < |s| ==> s[i] != s[i - 1]
  }

  predicate DigitsOneToNine(s: seq<int>)
  {
    forall i :: 0 <= i < |s| ==> 1 <= s[i] <= 9
  }

  /** Each draw is `Math.floor(Math.random() * 9)`. */
  predicate DrawsInRange(draws: seq<int>)
  {
    forall i :: 0 <= i < |draws| ==> 0 <= draws[i] < 9
  }

  /** The digits rejection sampling keeps from a stream of draws when it never stops early:
      the digit `draw + 1` is kept unless it equals the digit kept last. */
  function Kept(draws: seq<int>): (kept: seq<int>)
    ensures |kept| <= |draws|
    ensures draws != [] ==> |kept| >= 1
  {
    if draws == [] then []
    else
      var prev, d := Kept(draws[..|draws| - 1]), draws[|draws| - 1] + 1;
      if prev != [] && d == prev[|prev| - 1] then prev else prev + [d]
  }

  /** Rejection only ever removes a repeat: kept digits are pairwise distinct from their
      neighbours. */
  lemma {:induction false} KeptAdjacentDistinct(draws: seq<int>)
    ensures AdjacentDistinct(Kept(draws))
  {
    if draws != [] {
      KeptAdjacentDistinct(draws[..|draws| - 1]);
    }
  }

  lemma {:induction false} KeptDigits(draws: seq<int>)
    requires DrawsInRange(draws)
    ensures DigitsOneToNine(Kept(draws))
  {
    if draws != [] {
      KeptDigits(draws[..|draws| - 1]);
    }
  }

  /** A longer prefix of the stream never changes the digits already kept. */
  lemma {:induction false} KeptPrefix(draws: seq<int>, k: nat)
    requires k <= |draws|
    ensures Kept(draws[..k]) <= Kept(draws)
  {
    if k < |draws| {
      var init := draws[..|draws| - 1];
      assert init[..k] == draws[..k];
      KeptPrefix(init, k);
    } else {
      assert draws[..k] == draws;
    }
  }

  /** When no two consecutive draws are equal, nothing is rejected. */
  lemma {:induction false} KeptWithoutRepeats(draws: seq<int>)
    requires AdjacentDistinct(draws)
    ensures Kept(draws) == seq(|draws|, i requires 0 <= i < |draws| => draws[i] + 1)
  {
    if draws != [] {
      var init := draws[..|draws| - 1];
      KeptWithoutRepeats(init);
    }
  }

  /** `generateSequence(len)`: draws are consumed until `len` digits are kept. The stream must
      hold enough accepted draws for the loop to finish. */
  method GenerateSequence(len: nat, draws: seq<int>) returns (result: seq<int>)
    requires DrawsInRange(draws) && len <= |Kept(draws)|
    ensures |result| == len
    ensures result == Kept(draws)[..len]
    ensures AdjacentDistinct(result) && DigitsOneToNine(result)
  {
    result := [];
    var k := 0;
    while |result| < len
      invariant 0 <= k <= |draws|
      invariant result == Kept(draws[..k])
      invariant |result| <= len
      invariant k == |draws| ==> result == Kept(draws)
      decreases |draws| - k
    {
      var rand := draws[k] + 1;
      assert draws[..k + 1][..k] == draws[..k];
      if |result| == 0 || rand != result[|result| - 1] {
        result := result + [rand];
      }
      k := k + 1;
      assert k == |draws| ==> draws[..k] == draws;
    }
    KeptPrefix(draws, k);
    KeptAdjacentDistinct(draws);
    KeptDigits(draws);
  }

  function Reverse(s: seq<int>): (r: seq<int>)
    ensures |r| == |s|
    ensures forall i :: 0 <= i < |s| ==> r[i] == s[|s| - 1 - i]
  {
    if s == [] then [] else Reverse(s[1..]) + [s[0]]
  }

  /** The input filter `/^\d*$/`: exactly the strings every character of which `parseInt` reads
      as a number. */
  predicate IsDigitString(s: string)
    ensures IsDigitString(s) <==> forall i :: 0 <= i < |s| ==> ParseDigit(s[i]).Some?
  {
    forall i :: 0 <= i < |s| ==> '0' <= s[i] <= '9'
  }

  /** `parseInt(c, 10)` of one character: its value, or `NaN` (None) for a non-digit. */
  function ParseDigit(c: char): (r: Option<int>)
    ensures r.Some? <==> '0' <= c <= '9'
    ensures r.Some? ==> 0 <= r.value <= 9
  {
    if '0' <= c <= '9' then Some(c as int - '0' as int) else None
  }

  function DigitChar(d: int): char
    requires 0 <= d <= 9
  {
    ('0' as int + d) as char
  }

  /** The text that spells a digit sequence. */
  function Spell(s: seq<int>): (r: string)
    requires forall i :: 0 <= i < |s| ==> 0 <= s[i] <= 9
    ensures |r| == |s| && IsDigitString(r)
  {
    seq(|s|, i requires 0 <= i < |s| => DigitChar(s[i]))
  }

  /** `userSeq.length === correctSeq.length && userSeq.every((d, i) => d === correctSeq[i])`. */
  predicate IsCorrect(input: string, expected: seq<int>)
    ensures IsCorrect(input, expected) ==> |input| == |expected| && IsDigitString(input)
  {
    |input| == |expected| && forall i :: 0 <= i < |input| ==> ParseDigit(input[i]) == Some(expected[i])
  }

  /** An answer is correct exactly when it is the expected digits written out. */
  lemma IsCorrectIffSpelled(input: string, expected: seq<int>)
    requires forall i :: 0 <= i < |expected| ==> 0 <= expected[i] <= 9
    ensures IsCorrect(input, expected) <==> input == Spell(expected)
  {
    if IsCorrect(input, expected) {
      forall i | 0 <= i < |input|
        ensures input[i] == Spell(expected)[i]
      {
        assert ParseDigit(input[i]) == Some(expected[i]);
      }
    }
    if input == Spell(expected) {
      forall i | 0 <= i < |input|
        ensures ParseDigit(input[i]) == Some(expected[i])
      {
        assert input[i] == DigitChar(expected[i]);
      }
    }
  }

  datatype Stage = Instructions | Show | Input | Done
  datatype Mode = Forward | Backward
  datatype Spans = Spans(forward: int, backward: int)

  /** The sequence the user must type: as shown forwards, reversed backwards. */
  function ExpectedAnswer(mode: Mode, sequence: seq<int>): (r: seq<int>)
    ensures mode == Forward ==> r == sequence
    ensures mode == Backward ==>
              |r| == |sequence| && forall i :: 0 <= i < |r| ==> r[i] == sequence[|sequence| - 1 - i]
  {
    if mode == Forward then sequence else Reverse(sequence)
  }

  /** Scores that two attempts can give: 0, 50 or 100. */
  lemma TwoAttemptScore(correct: nat)
    requires correct <= 2
    ensures Percentage(correct, 2) == 50 * correct
  {
    if correct == 1 {
      RoundDivUnique(100, 2, 50);
    }
  }

  /** The component's state; `showIdx` is the `idx` counter of the show effect. */
  class DigitSpanTask {
    var mode: Mode
    var length: int
    var sequence: seq<int>
    var stage: Stage
    var currentDigit: Option<int>
    var input: string
    var results: Spans
    var attempts: nat
    var correctCount: nat
    var showIdx: nat

    /** The stage determines the attempt counters, every shown sequence has three adjacent-distinct
        digits, the field holds digits only, and the digit on screen during the show stage is
        the last one stepped to. */
    ghost predicate Valid()
      reads this
    {
      && length == InitialLength
      && IsDigitString(input)
      && showIdx <= |sequence|
      && correctCount <= attempts
      && (stage != Instructions ==>
            |sequence| == length && AdjacentDistinct(sequence) && DigitsOneToNine(sequence))
      && (stage == Instructions ==> mode == Forward && attempts == 0 && sequence == [] && showIdx == 0)
      && ((stage == Show || stage == Input) && mode == Forward ==> attempts == 0)
      && ((stage == Show || stage == Input) && mode == Backward ==> attempts == 1)
      && (stage == Done ==> mode == Backward && attempts == 2)
      && (stage == Input ==> showIdx == |sequence|)
      && (stage == Show && showIdx > 0 ==> currentDigit == Some(sequence[showIdx - 1]))
    }

    constructor ()
      ensures Valid()
      ensures mode == Forward && length == InitialLength && sequence == [] && stage == Instructions
      ensures currentDigit == None && input == "" && results == Spans(0, 0)
      ensures attempts == 0 && correctCount == 0
    {
      mode, length, sequence, stage := Forward, InitialLength, [], Instructions;
      currentDigit, input, results := None, "", Spans(0, 0);
      attempts, correctCount, showIdx := 0, 0, 0;
    }

    /** `startTask`: everything back to the forward phase with a fresh three-digit sequence
        about to be shown (`onStart` is then invoked). */
    method StartTask(draws: seq<int>)
      requires Valid()
      requires DrawsInRange(draws) && InitialLength <= |Kept(draws)|
      modifies this
      ensures Valid()
      ensures mode == Forward && length == InitialLength && stage == Show
      ensures sequence == Kept(draws)[..InitialLength]
      ensures input == "" && results == Spans(0, 0) && attempts == 0 && correctCount == 0
      ensures showIdx == 0 && currentDigit == old(currentDigit)
    {
      mode := Forward;
      length := InitialLength;
      sequence := GenerateSequence(InitialLength, draws);
      stage := Show;
      input := "";
      results := Spans(0, 0);
      attempts, correctCount := 0, 0;
      showIdx := 0;
    }

    /** One tick of the show interval: the next digit is displayed, or, once all are shown,
        the input stage begins. */
    method ShowTick()
      requires Valid() && stage == Show
      modifies this
      ensures Valid()
      ensures old(showIdx) < |sequence| ==>
                stage == Show && showIdx == old(showIdx) + 1 &&
                currentDigit == Some(sequence[old(showIdx)])
      ensures old(showIdx) == |sequence| ==>
                stage == Input && showIdx == old(showIdx) && currentDigit == old(currentDigit)
      ensures mode == old(mode) && length == old(length) && sequence == old(sequence)
      ensures input == old(input) && results == old(results)
      ensures attempts == old(attempts) && correctCount == old(correctCount)
    {
      if showIdx < |sequence| {
        currentDigit := Some(sequence[showIdx]);
        showIdx := showIdx + 1;
      } else {
        stage := Input;
      }
    }

    /** The show stage from its first tick to the input stage: the digits appear in order. */
    method RunShowStage() returns (shown: seq<int>)
      requires Valid() && stage == Show && showIdx == 0
      modifies this
      ensures Valid() && stage == Input
      ensures shown == sequence && sequence == old(sequence)
      ensures currentDigit == Some(sequence[|sequence| - 1])
      ensures mode == old(mode) && length == old(length) && input == old(input)
      ensures results == old(results) && attempts == old(attempts)
      ensures correctCount == old(correctCount)
    {
      shown := [];
      while stage == Show
        invariant Valid()
        invariant stage == Show || stage == Input
        invariant stage == Show ==> shown == sequence[..showIdx]
        invariant stage == Input ==> shown == sequence
        invariant stage == Input ==> currentDigit == Some(sequence[|sequence| - 1])
        invariant sequence == old(sequence) && mode == old(mode) && input == old(input)
        invariant results == old(results) && attempts == old(attempts)
        invariant correctCount == old(correctCount)
        decreases (if stage == Show then 1 else 0) + |sequence| - showIdx
      {
        var before := showIdx;
        ShowTick();
        if stage == Show {
          shown := shown + [currentDigit.value];
          assert sequence[..showIdx] == sequence[..before] + [sequence[before]];
        } else {
          assert sequence[..before] == sequence;
        }
      }
    }

    /** The field's `onChange`: a new value is taken only when it is all digits. */
    method Edit(value: string)
      requires Valid() && stage == Input
      modifies this
      ensures Valid()
      ensures input == (if IsDigitString(value) then value else old(input))
      ensures mode == old(mode) && length == old(length) && sequence == old(sequence)
      ensures stage == old(stage) && currentDigit == old(currentDigit) && results == old(results)
      ensures attempts == old(attempts) && correctCount == old(correctCount) && showIdx == old(showIdx)
    {
      if IsDigitString(value) {
        input := value;
      }
    }

    /** The score shown on the done screen. */
    function DoneScore(): (score: nat)
      reads this
      ensures correctCount <= attempts ==> score <= 100
      ensures attempts == 0 ==> score == 0
    {
      Percentage(correctCount, attempts)
    }

    /** `handleSubmit`. Forwards: the attempt is counted and the backward phase begins with a
        fresh sequence (the draws are used only here). Backwards: the attempt is counted, the
        task is done and the score over both attempts is reported to `onScore` (then `onStop`
        is invoked). */
    method Submit(draws: seq<int>) returns (reported: Option<nat>)
      requires Valid() && stage == Input
      requires mode == Forward ==> DrawsInRange(draws) && InitialLength <= |Kept(draws)|
      modifies this
      ensures Valid()
      ensures attempts == old(attempts) + 1
      ensures correctCount ==
                old(correctCount) + (if IsCorrect(old(input), ExpectedAnswer(old(mode), old(sequence))) then 1 else 0)
      ensures currentDigit == old(currentDigit)
      ensures old(mode) == Forward ==>
                reported == None && mode == Backward && length == InitialLength && stage == Show &&
                sequence == Kept(draws)[..InitialLength] && input == "" && showIdx == 0
      ensures old(mode) == Forward ==>
                results.backward == old(results).backward &&
                results.forward == (if IsCorrect(old(input), old(sequence)) then length else length - 1)
      ensures old(mode) == Backward ==>
                stage == Done && mode == Backward && length == old(length) && sequence == old(sequence) &&
                input == old(input) && showIdx == old(showIdx)
      ensures old(mode) == Backward ==>
                results.forward == old(results).forward &&
                results.backward ==
                  (if IsCorrect(old(input), Reverse(old(sequence))) then length else length - 1)
      ensures old(mode) == Backward ==> reported == Some(Percentage(correctCount, attempts))
      ensures old(mode) == Backward ==> reported == Some(DoneScore())
      ensures old(mode) == Backward ==> reported == Some(50 * correctCount)
    {
      if mode == Forward {
        SubmitForward(draws);
        reported := None;
      } else {
        var score := SubmitBackward();
        reported := Some(score);
      }
    }

    /** The forward branch of `handleSubmit`: `results.forward` records the attempt and the
        backward phase begins with a fresh sequence. */
    method SubmitForward(draws: seq<int>)
      requires Valid() && stage == Input && mode == Forward
      requires DrawsInRange(draws) && InitialLength <= |Kept(draws)|
      modifies this
      ensures Valid()
      ensures attempts == old(attempts) + 1
      ensures correctCount == old(correctCount) + (if IsCorrect(old(input), old(sequence)) then 1 else 0)
      ensures currentDigit == old(currentDigit)
      ensures mode == Backward && length == InitialLength && stage == Show
      ensures sequence == Kept(draws)[..InitialLength] && input == "" && showIdx == 0
      ensures results.backward == old(results).backward
      ensures results.forward == (if IsCorrect(old(input), old(sequence)) then length else length - 1)
    {
      var isCorrect := IsCorrect(input, sequence);
      attempts := attempts + 1;
      if isCorrect {
        correctCount := correctCount + 1;
        results := results.(forward := length);
      } else {
        results := results.(forward := length - 1);
      }
      mode := Backward;
      length := InitialLength;
      sequence := GenerateSequence(InitialLength, draws);
      stage := Show;
      input := "";
      showIdx := 0;
      assert attempts == 1 && correctCount <= 1;
    }

    /** The backward branch of `handleSubmit`: `results.backward` records the attempt, the task
        is done and the score over both attempts is returned for `onScore`. */
    method SubmitBackward() returns (score: nat)
      requires Valid() && stage == Input && mode == Backward
      modifies this
      ensures Valid()
      ensures attempts == old(attempts) + 1
      ensures correctCount ==
                old(correctCount) + (if IsCorrect(old(input), Reverse(old(sequence))) then 1 else 0)
      ensures currentDigit == old(currentDigit)
      ensures stage == Done && mode == Backward && length == old(length) && sequence == old(sequence)
      ensures input == old(input) && showIdx == old(showIdx)
      ensures results.forward == old(results).forward
      ensures results.backward ==
                (if IsCorrect(old(input), Reverse(old(sequence))) then length else length - 1)
      ensures score == Percentage(correctCount, attempts) == DoneScore() == 50 * correctCount
    {
      var isCorrect := IsCorrect(input, Reverse(sequence));
      var previousAttempts := attempts;
      attempts := attempts + 1;
      if isCorrect {
        correctCount := correctCount + 1;
        results := results.(backward := length);
      } else {
        results := results.(backward := length - 1);
      }
      stage := Done;
      assert attempts == 2 && correctCount <= 2;
      var totalAttempts := previousAttempts + 1;
      var totalCorrect := correctCount;
      TwoAttemptScore(totalCorrect);
      score := Percentage(totalCorrect, totalAttempts);
    }
  }

  /** The forward phase of a run: start, watch, answer. The backward show stage follows with the
      second sequence, and one attempt has been counted, correct iff the answer was. */
  method ForwardPhase(t: DigitSpanTask, first: seq<int>, second: seq<int>, forward: string)
    requires t.Valid()
    requires DrawsInRange(first) && InitialLength <= |Kept(first)|
    requires DrawsInRange(second) && InitialLength <= |Kept(second)|
    modifies t
    ensures t.Valid() && t.stage == Show && t.mode == Backward && t.showIdx == 0 && t.input == ""
    ensures t.sequence == Kept(second)[..3]
    ensures t.attempts == 1
    ensures t.correctCount == if IsCorrect(forward, Kept(first)[..3]) then 1 else 0
  {
    t.StartTask(first);
    var shown := t.RunShowStage();
    t.Edit(forward);
    assert IsCorrect(t.input, t.sequence) <==> IsCorrect(forward, Kept(first)[..3]);
    var none := t.Submit(second);
  }

  /** The backward phase of a run: watch, answer. The score reported is 50 per correct answer
      over both attempts. */
  method BackwardPhase(t: DigitSpanTask, backward: string) returns (score: nat)
    requires t.Valid() && t.stage == Show && t.mode == Backward && t.showIdx == 0 && t.input == ""
    modifies t
    ensures t.Valid() && t.stage == Done
    ensures score == 50 * (old(t.correctCount) + if IsCorrect(backward, Reverse(old(t.sequence))) then 1 else 0)
    ensures score == t.DoneScore()
  {
    var shown := t.RunShowStage();
    t.Edit(backward);
    assert IsCorrect(t.input, Reverse(t.sequence)) <==> IsCorrect(backward, Reverse(old(t.sequence)));
    var reported := t.Submit([]);
    score := reported.value;
  }

  /** A whole run: start, watch, answer forwards, watch, answer backwards. The score is
      reported once, at the end, and is 50 per correct answer. */
  method WholeTask(t: DigitSpanTask, first: seq<int>, second: seq<int>, forward: string, backward: string)
      returns (score: nat)
    requires t.Valid()
    requires DrawsInRange(first) && InitialLength <= |Kept(first)|
    requires DrawsInRange(second) && InitialLength <= |Kept(second)|
    modifies t
    ensures t.Valid() && t.stage == Done
    ensures score == 50 * ((if IsCorrect(forward, Kept(first)[..3]) then 1 else 0) +
                           (if IsCorrect(backward, Reverse(Kept(second)[..3])) then 1 else 0))
    ensures score == t.DoneScore()
  {
    ForwardPhase(t, first, second, forward);
    score := BackwardPhase(t, backward);
  }
}
