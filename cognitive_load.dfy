/** The n-back test: a fixed sequence of random letters is shown one at a time; at each position
    the user answers "match" or "no match" (does the letter equal the one `n` positions back?)
    before a deadline, or a null answer is recorded; the accuracy is the rounded share of
    answers equal to the expected one. */
module CognitiveLoad {
  import opened Scoring

  /** Each draw is `Math.floor(Math.random() * LETTERS.length)` with 26 letters. */
  predicate LetterDraws(draws: seq<int>)
  {
    forall i :: 0 <= i < |draws| ==> 0 <= draws[i] < 26
  }

  /** `LETTERS[draw]` for every draw: repeats, adjacent ones included, are allowed. */
  function Letters(draws: seq<int>): (s: seq<char>)
    requires LetterDraws(draws)
    ensures |s| == |draws|
    ensures forall i :: 0 <= i < |s| ==> 'A' <= s[i] <= 'Z'
    ensures forall i, j :: 0 <= i < |s| && 0 <= j < |s| ==> (s[i] == s[j] <==> draws[i] == draws[j])
  {
    seq(|draws|, i requires 0 <= i < |draws| => ('A' as int + draws[i]) as char)
  }

  /** `currentIdx >= n && letter === sequence[currentIdx - n]`. */
  predicate ExpectedMatch(sequence: seq<char>, n: nat, i: nat)
    requires i < |sequence|
    ensures i < n ==> !ExpectedMatch(sequence, n, i)
    ensures n == 0 ==> ExpectedMatch(sequence, n, i)
  {
    i >= n && sequence[i] == sequence[i - n]
  }

  /** On generated letters a match is expected exactly where the draw equals the one `n`
      positions back. */
  lemma ExpectedMatchOnDraws(draws: seq<int>, n: nat, i: nat)
    requires LetterDraws(draws) && i < |draws|
    ensures ExpectedMatch(Letters(draws), n, i) <==> i >= n && draws[i] == draws[i - n]
  {
  }

  /** With lag 2, the letters A, B, A, A, C expect a match only at position 2. */
  lemma ExpectedMatchExample()
    ensures var s := ['A', 'B', 'A', 'A', 'C'];
            !ExpectedMatch(s, 2, 0) && !ExpectedMatch(s, 2, 1) && ExpectedMatch(s, 2, 2) &&
            !ExpectedMatch(s, 2, 3) && !ExpectedMatch(s, 2, 4)
  {
  }

  /** One response record: the expected answer (`match`) and the user's (`null` on timeout). */
  datatype Record = Record(expected: bool, response: Option<bool>)

  /** The filter of the results effect: `r.response !== null && r.response === r.match`. */
  predicate Scored(r: Record)
    ensures Scored(r) <==> r.response == Some(r.expected)
  {
    r.response.Some? && r.response.value == r.expected
  }

  /** The filter of the results screen: `r.response === r.match`; `null` equals no boolean. */
  predicate ShownAsMatch(r: Record)
    ensures r.response == None ==> !ShownAsMatch(r)
    ensures r.response.Some? ==> (ShownAsMatch(r) <==> r.response.value == r.expected)
  {
    match r.response
    case None => false
    case Some(b) => b == r.expected
  }

  function CountScored(rs: seq<Record>): (c: nat)
    ensures c <= |rs|
  {
    if rs == [] then 0
    else CountScored(rs[..|rs| - 1]) + (if Scored(rs[|rs| - 1]) then 1 else 0)
  }

  function CountShown(rs: seq<Record>): (c: nat)
    ensures c <= |rs|
  {
    if rs == [] then 0
    else CountShown(rs[..|rs| - 1]) + (if ShownAsMatch(rs[|rs| - 1]) then 1 else 0)
  }

  /** The two filters count the same records. */
  lemma {:induction false} CountsAgree(rs: seq<Record>)
    ensures CountShown(rs) == CountScored(rs)
  {
    if rs != [] {
      CountsAgree(rs[..|rs| - 1]);
    }
  }

  /** The accuracy reported to `onComplete`: `total > 0 ? Math.round(valid / total * 100) : 0`. */
  function Accuracy(rs: seq<Record>): (a: nat)
    ensures a <= 100
    ensures rs == [] ==> a == 0
    ensures rs != [] ==> 2 * |rs| * a <= 200 * CountScored(rs) + |rs| < 2 * |rs| * (a + 1)
  {
    Percentage(CountScored(rs), |rs|)
  }

  /** The accuracy on the results screen, computed with the screen's own filter. */
  function ShownAccuracy(rs: seq<Record>): (a: nat)
    ensures a <= 100
    ensures rs == [] ==> a == 0
  {
    Percentage(CountShown(rs), |rs|)
  }

  lemma ScreenShowsReportedAccuracy(rs: seq<Record>)
    ensures ShownAccuracy(rs) == Accuracy(rs)
  {
    CountsAgree(rs);
  }

  lemma {:induction false} CountAllScored(rs: seq<Record>)
    requires forall i :: 0 <= i < |rs| ==> Scored(rs[i])
    ensures CountScored(rs) == |rs|
  {
    if rs != [] {
      CountAllScored(rs[..|rs| - 1]);
    }
  }

  lemma {:induction false} CountNoneAnswered(rs: seq<Record>)
    requires forall i :: 0 <= i < |rs| ==> rs[i].response == None
    ensures CountScored(rs) == 0
  {
    if rs != [] {
      CountNoneAnswered(rs[..|rs| - 1]);
    }
  }

  /** Every answer right gives 100; letting every deadline pass gives 0. */
  lemma AccuracyExtremes(rs: seq<Record>)
    ensures rs != [] && (forall i :: 0 <= i < |rs| ==> Scored(rs[i])) ==> Accuracy(rs) == 100
    ensures (forall i :: 0 <= i < |rs| ==> rs[i].response == None) ==> Accuracy(rs) == 0
  {
    if forall i :: 0 <= i < |rs| ==> Scored(rs[i]) {
      CountAllScored(rs);
    }
    if forall i :: 0 <= i < |rs| ==> rs[i].response == None {
      CountNoneAnswered(rs);
    }
  }

  /** The records a run produces when position `i` gets `answers[i]`, `None` being a timeout. */
  function Script(sequence: seq<char>, n: nat, answers: seq<Option<bool>>): (rs: seq<Record>)
    requires |answers| <= |sequence|
    ensures |rs| == |answers|
  {
    seq(|answers|, i requires 0 <= i < |answers| => Record(ExpectedMatch(sequence, n, i), answers[i]))
  }

  datatype Stage = Instructions | Test | Results

  /** The component's state; `n` and `sequenceLength` are its props. */
  class CognitiveLoadTest {
    const n: nat
    const sequenceLength: nat
    var stage: Stage
    var sequence: seq<char>
    var responses: seq<Record>
    var currentIdx: nat
    var currentLetter: Option<char>
    var expectMatch: bool

    /** One record per position passed so far, each carrying the expected answer of its
        position. */
    ghost predicate Recorded()
      reads this
    {
      && (stage == Instructions ==> sequence == [] && responses == [] && currentIdx == 0)
      && (stage != Instructions ==> |sequence| == sequenceLength)
      && |responses| == currentIdx <= sequenceLength
      && |responses| <= |sequence|
      && (forall i :: 0 <= i < |responses| ==> responses[i].expected == ExpectedMatch(sequence, n, i))
    }

    /** During the test the index is a position and the letter and expected answer on display
        are that position's; in the results stage every position has its record. */
    ghost predicate Valid()
      reads this
    {
      && Recorded()
      && (stage == Test ==>
            currentIdx < sequenceLength &&
            currentLetter == Some(sequence[currentIdx]) &&
            expectMatch == ExpectedMatch(sequence, n, currentIdx))
      && (stage == Results ==> currentIdx == sequenceLength)
    }

    constructor (n: nat, sequenceLength: nat)
      ensures Valid()
      ensures this.n == n && this.sequenceLength == sequenceLength
      ensures stage == Instructions && sequence == [] && responses == [] && currentIdx == 0
      ensures currentLetter == None && !expectMatch
    {
      this.n, this.sequenceLength := n, sequenceLength;
      stage, sequence, responses, currentIdx := Instructions, [], [], 0;
      currentLetter, expectMatch := None, false;
    }

    /** The test-loop effect once the index has moved: past the last position the results
        stage begins and the results effect reports the accuracy; otherwise the position's
        letter and expected answer go on display and its deadline starts. */
    method Settle() returns (reported: Option<nat>)
      requires Recorded() && stage == Test
      modifies this`stage, this`currentLetter, this`expectMatch
      ensures Valid()
      ensures currentIdx >= sequenceLength ==>
                stage == Results && reported == Some(Accuracy(responses)) &&
                currentLetter == old(currentLetter) && expectMatch == old(expectMatch)
      ensures currentIdx < sequenceLength ==>
                stage == Test && reported == None && currentLetter == Some(sequence[currentIdx]) &&
                expectMatch == ExpectedMatch(sequence, n, currentIdx)
    {
      if currentIdx >= sequenceLength {
        stage := Results;
        reported := Some(Accuracy(responses));
        return;
      }
      var letter := sequence[currentIdx];
      var isMatch := ExpectedMatch(sequence, n, currentIdx);
      currentLetter := Some(letter);
      expectMatch := isMatch;
      reported := None;
    }

    /** `startTest`: a fresh letter sequence, no records, the first position. */
    method StartTest(draws: seq<int>) returns (reported: Option<nat>)
      requires Valid()
      requires LetterDraws(draws) && |draws| == sequenceLength
      modifies this
      ensures Valid()
      ensures sequence == Letters(draws) && responses == [] && currentIdx == 0
      ensures sequenceLength > 0 ==> stage == Test && reported == None
      ensures sequenceLength == 0 ==>
                stage == Results && reported == Some(0) &&
                currentLetter == old(currentLetter) && expectMatch == old(expectMatch)
    {
      sequence := Letters(draws);
      responses := [];
      currentIdx := 0;
      stage := Test;
      reported := Settle();
    }

    /** The deadline of the current position passed unanswered: a `null` record is appended and
        the test moves on. */
    method Timeout() returns (reported: Option<nat>)
      requires Valid() && stage == Test
      modifies this
      ensures Valid()
      ensures responses == old(responses) + [Record(old(expectMatch), None)]
      ensures currentIdx == old(currentIdx) + 1 && sequence == old(sequence)
      ensures currentIdx < sequenceLength ==> stage == Test && reported == None
      ensures currentIdx == sequenceLength ==>
                stage == Results && reported == Some(Accuracy(responses)) &&
                currentLetter == old(currentLetter) && expectMatch == old(expectMatch)
    {
      var isMatch := ExpectedMatch(sequence, n, currentIdx);
      responses := responses + [Record(isMatch, None)];
      currentIdx := currentIdx + 1;
      reported := Settle();
    }

    /** `handleRespond`: ignored outside the test; otherwise the answer is recorded against the
        expected answer on display (the guard `prev.length === currentIdx` always holds here)
        and the test moves on. */
    method Respond(response: bool) returns (reported: Option<nat>)
      requires Valid()
      modifies this
      ensures Valid()
      ensures old(stage) != Test ==>
                reported == None && stage == old(stage) && responses == old(responses) &&
                currentIdx == old(currentIdx) && currentLetter == old(currentLetter) &&
                expectMatch == old(expectMatch)
      ensures old(stage) == Test ==>
                responses == old(responses) + [Record(old(expectMatch), Some(response))] &&
                currentIdx == old(currentIdx) + 1
      ensures old(stage) == Test && currentIdx < sequenceLength ==> stage == Test && reported == None
      ensures old(stage) == Test && currentIdx == sequenceLength ==>
                stage == Results && reported == Some(Accuracy(responses)) &&
                currentLetter == old(currentLetter) && expectMatch == old(expectMatch)
      ensures sequence == old(sequence)
    {
      if stage != Test {
        return None;
      }
      if |responses| == currentIdx {
        responses := responses + [Record(expectMatch, Some(response))];
      }
      currentIdx := currentIdx + 1;
      reported := Settle();
    }
  }

  lemma ScriptStep(sequence: seq<char>, n: nat, answers: seq<Option<bool>>, i: nat)
    requires i < |answers| <= |sequence|
    ensures Script(sequence, n, answers[..i + 1]) ==
              Script(sequence, n, answers[..i]) + [Record(ExpectedMatch(sequence, n, i), answers[i])]
  {
  }

  /** The event that closes the current position: the answer given, or the deadline passing. */
  method Answer(t: CognitiveLoadTest, answer: Option<bool>) returns (reported: Option<nat>)
    requires t.Valid() && t.stage == Test
    modifies t
    ensures t.Valid() && t.sequence == old(t.sequence)
    ensures t.responses == old(t.responses) + [Record(ExpectedMatch(t.sequence, t.n, old(t.currentIdx)), answer)]
    ensures t.currentIdx == old(t.currentIdx) + 1
    ensures t.currentIdx < t.sequenceLength ==> t.stage == Test && reported == None
    ensures t.currentIdx == t.sequenceLength ==> t.stage == Results && reported == Some(Accuracy(t.responses))
  {
    if answer.Some? {
      reported := t.Respond(answer.value);
    } else {
      reported := t.Timeout();
    }
  }

  /** A whole run, position `i` answered by `answers[i]` (`None`: its deadline passes). Every
      position gets exactly one record, and the accuracy is reported exactly once. */
  method WholeTest(t: CognitiveLoadTest, draws: seq<int>, answers: seq<Option<bool>>)
      returns (reports: seq<nat>)
    requires t.Valid()
    requires LetterDraws(draws) && |draws| == t.sequenceLength == |answers|
    modifies t
    ensures t.Valid() && t.stage == Results
    ensures t.sequence == Letters(draws)
    ensures t.responses == Script(Letters(draws), t.n, answers)
    ensures reports == [Accuracy(t.responses)]
  {
    var first := t.StartTest(draws);
    reports := if first.Some? then [first.value] else [];
    var i := 0;
    while i < |answers|
      invariant t.Valid() && 0 <= i <= |answers| && t.currentIdx == i
      invariant t.sequence == Letters(draws)
      invariant t.responses == Script(t.sequence, t.n, answers[..i])
      invariant i < |answers| ==> t.stage == Test && reports == []
      invariant i == |answers| ==> t.stage == Results && reports == [Accuracy(t.responses)]
    {
      ScriptStep(t.sequence, t.n, answers, i);
      var r := Answer(t, answers[i]);
      if r.Some? {
        reports := reports + [r.value];
      }
      i := i + 1;
    }
    assert answers[..i] == answers;
  }
}
