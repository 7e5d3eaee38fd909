/** The scoring part of `save_response` (app.py:53-61): answers become item
    scores, and three averages are taken over all items and over the two
    subscales. Averages are exact reals; since every sum is a multiple of 25,
    the source's float division yields these same values exactly. */
module Scoring {
  import opened Likert

  /** Number of questionnaire items. */
  const ItemCount: nat := 20

  /** The indices `lo, lo+1, ..., hi-1`, as `list(range(lo, hi))`. */
  function Range(lo: nat, hi: nat): (r: seq<nat>)
    requires lo <= hi
    ensures forall i :: i in r <==> lo <= i < hi
    ensures forall j, k :: 0 <= j < k < |r| ==> r[j] < r[k]
  {
    var r := seq(hi - lo, k => lo + k);
    assert forall i :: i in r <==> lo <= i < hi by {
      forall i: nat | lo <= i < hi
        ensures i in r
      {
        assert r[i - lo] == i;
      }
    }
    r
  }

  /** Item indices of the psychosocial subscale (questions 1-10). */
  const PsychosocialItems: seq<nat> := Range(0, 10)

  /** Item indices of the functional subscale (questions 11-20). */
  const FunctionalItems: seq<nat> := Range(10, 20)

  /** Sum of a list of integers, as Python's `sum`. */
  function Sum(s: seq<int>): int {
    if |s| == 0 then 0 else s[0] + Sum(s[1..])
  }

  /** Sum of `s` at the listed indices, as `sum(s[i] for i in items)`. */
  function SumAt(s: seq<int>, items: seq<nat>): int
    requires forall k :: 0 <= k < |items| ==> items[k] < |s|
  {
    if |items| == 0 then 0 else s[items[0]] + SumAt(s, items[1..])
  }

  /** The per-item score list, in answer order (`[SCORE_MAP[r] for r in responses]`). */
  function Scores(answers: seq<Answer>): (r: seq<int>)
    ensures |r| == |answers|
    ensures forall i :: 0 <= i < |r| ==> r[i] in ScoreValues
    ensures forall i :: 0 <= i < |r| ==>
      Label(answers[i]) in ScoreMap && r[i] == ScoreMap[Label(answers[i])]
  {
    seq(|answers|, i requires 0 <= i < |answers| => Score(answers[i]))
  }

  /** Mean of all twenty item scores. */
  function TotalAverage(scores: seq<int>): real {
    Sum(scores) as real / 20.0
  }

  /** Mean of the psychosocial item scores. */
  function PsychosocialAverage(scores: seq<int>): real
    requires |scores| == ItemCount
  {
    SumAt(scores, PsychosocialItems) as real / 10.0
  }

  /** Mean of the functional item scores. */
  function FunctionalAverage(scores: seq<int>): real
    requires |scores| == ItemCount
  {
    SumAt(scores, FunctionalItems) as real / 10.0
  }

  /** The saved record (the dictionary built in `save_response`). The
      timestamp is the ISO text of a clock reading supplied by the caller. */
  datatype ScoredRecord = ScoredRecord(
    name: string,
    patientId: string,
    timestamp: string,
    responses: seq<Answer>,
    scores: seq<int>,
    totalAvg: real,
    psychosocialAvg: real,
    functionalAvg: real)

  /** Scores one complete response set. */
  function ScoreResponse(name: string, patientId: string, timestamp: string,
                         responses: seq<Answer>): (r: ScoredRecord)
    requires |responses| == ItemCount
    ensures r.name == name && r.patientId == patientId && r.timestamp == timestamp
    ensures r.responses == responses
    ensures |r.scores| == ItemCount
    ensures forall i :: 0 <= i < ItemCount ==> r.scores[i] == Score(responses[i])
    ensures r.totalAvg * 20.0 == Sum(r.scores) as real
    ensures r.psychosocialAvg * 10.0 == Sum(r.scores[..10]) as real
    ensures r.functionalAvg * 10.0 == Sum(r.scores[10..]) as real
    ensures (r.psychosocialAvg + r.functionalAvg) / 2.0 == r.totalAvg
    ensures 0.0 <= r.totalAvg <= 100.0
    ensures 0.0 <= r.psychosocialAvg <= 100.0
    ensures 0.0 <= r.functionalAvg <= 100.0
  {
    var scores := Scores(responses);
    SubscalesAreHalves(scores);
    SubscalesPartitionTotal(scores);
    ScoreSumBounds(scores[..10]);
    ScoreSumBounds(scores[10..]);
    ScoreRecord(name, patientId, timestamp, responses, scores)
  }

  /** Assembles the record from an already computed score list. */
  function ScoreRecord(name: string, patientId: string, timestamp: string,
                       responses: seq<Answer>, scores: seq<int>): ScoredRecord
    requires |scores| == ItemCount
  {
    ScoredRecord(name, patientId, timestamp, responses, scores,
                 TotalAverage(scores), PsychosocialAverage(scores), FunctionalAverage(scores))
  }

  /** Sum distributes over concatenation. */
  lemma {:induction false} SumAppend(a: seq<int>, b: seq<int>)
    ensures Sum(a + b) == Sum(a) + Sum(b)
  {
    if |a| == 0 {
      assert a + b == b;
    } else {
      assert (a + b)[1..] == a[1..] + b;
      SumAppend(a[1..], b);
    }
  }

  /** Summing at the indices `lo..hi-1` is summing the slice `s[lo..hi]`. */
  lemma {:induction false} SumAtRange(s: seq<int>, lo: nat, hi: nat)
    requires lo <= hi <= |s|
    ensures SumAt(s, Range(lo, hi)) == Sum(s[lo..hi])
    decreases hi - lo
  {
    if lo < hi {
      assert Range(lo, hi)[1..] == Range(lo + 1, hi);
      assert s[lo..hi][1..] == s[lo + 1..hi];
      SumAtRange(s, lo + 1, hi);
    }
  }

  /** The two subscale index lists are disjoint, have ten items each, and
      together cover every item index exactly once. */
  lemma SubscalesPartitionItems()
    ensures |PsychosocialItems| == 10 && |FunctionalItems| == 10
    ensures PsychosocialItems + FunctionalItems == Range(0, ItemCount)
    ensures forall i :: i in PsychosocialItems ==> i !in FunctionalItems
    ensures forall i: nat :: i < ItemCount <==> (i in PsychosocialItems || i in FunctionalItems)
  {
    forall i: nat | i < ItemCount
      ensures i in PsychosocialItems || i in FunctionalItems
    {
      if i < 10 {
        assert PsychosocialItems[i] == i;
      } else {
        assert FunctionalItems[i - 10] == i;
      }
    }
  }

  /** The subscale sums are the sums of the first and the second half. */
  lemma SubscalesAreHalves(scores: seq<int>)
    requires |scores| == ItemCount
    ensures SumAt(scores, PsychosocialItems) == Sum(scores[..10])
    ensures SumAt(scores, FunctionalItems) == Sum(scores[10..])
  {
    SumAtRange(scores, 0, 10);
    SumAtRange(scores, 10, 20);
    assert scores[0..10] == scores[..10];
    assert scores[10..20] == scores[10..];
  }

  /** The overall average is the mean of the two subscale averages. */
  lemma SubscalesPartitionTotal(scores: seq<int>)
    requires |scores| == ItemCount
    ensures Sum(scores) == Sum(scores[..10]) + Sum(scores[10..])
    ensures (PsychosocialAverage(scores) + FunctionalAverage(scores)) / 2.0 == TotalAverage(scores)
  {
    assert scores == scores[..10] + scores[10..];
    SumAppend(scores[..10], scores[10..]);
    SubscalesAreHalves(scores);
  }

  /** A sum of item scores lies between 0 and 100 per item and is a multiple of 25. */
  lemma {:induction false} ScoreSumBounds(s: seq<int>)
    requires forall i :: 0 <= i < |s| ==> s[i] in ScoreValues
    ensures 0 <= Sum(s) <= 100 * |s|
    ensures Sum(s) % 25 == 0
  {
    if |s| > 0 {
      ScoreSumBounds(s[1..]);
    }
  }

  /** Sum of `n` copies of `v`. */
  lemma {:induction false} SumConstant(v: int, n: nat)
    ensures Sum(seq(n, _ => v)) == n * v
  {
    if n > 0 {
      assert seq(n, _ => v)[1..] == seq(n - 1, _ => v);
      SumConstant(v, n - 1);
    }
  }

  /** `x` is a whole multiple of `step`. */
  predicate IsMultipleOf(x: real, step: real)
    requires step > 0.0
  {
    (x / step).Floor as real * step == x
  }

  /** Each average is a whole multiple of 1.25 (overall) or 2.5 (subscale):
      values a binary float holds exactly, so the source's float division
      computes exactly these reals. */
  lemma AveragesAreExactSteps(name: string, patientId: string, timestamp: string,
                              responses: seq<Answer>)
    requires |responses| == ItemCount
    ensures IsMultipleOf(ScoreResponse(name, patientId, timestamp, responses).totalAvg, 1.25)
    ensures IsMultipleOf(ScoreResponse(name, patientId, timestamp, responses).psychosocialAvg, 2.5)
    ensures IsMultipleOf(ScoreResponse(name, patientId, timestamp, responses).functionalAvg, 2.5)
  {
    var r := ScoreResponse(name, patientId, timestamp, responses);
    ScoreSumBounds(r.scores);
    ScoreSumBounds(r.scores[..10]);
    ScoreSumBounds(r.scores[10..]);
    var t := Sum(r.scores) / 25;
    assert r.totalAvg / 1.25 == t as real;
    var p := Sum(r.scores[..10]) / 25;
    assert r.psychosocialAvg / 2.5 == p as real;
    var f := Sum(r.scores[10..]) / 25;
    assert r.functionalAvg / 2.5 == f as real;
  }
}
