/** The five-point answer scale of the AS-20 questionnaire and its fixed
    answer-to-score table (app.py:43-51). */
module Likert {
  import opened Wrappers

  /** The closed set of answers, from least to most frequent symptom impact. */
  datatype Answer = Never | Rarely | Sometimes | Often | Always

  /** The Japanese label the form shows for each answer. */
  function Label(a: Answer): string {
    match a
    case Never => "全くない"
    case Rarely => "まれにしかない"
    case Sometimes => "時々ある"
    case Often => "よくある"
    case Always => "いつもある"
  }

  /** The answers in the order the form offers them (LIKERT_OPTIONS). */
  const Options: seq<Answer> := [Never, Rarely, Sometimes, Often, Always]

  /** The score table keyed by label, as the source writes it (SCORE_MAP). */
  const ScoreMap: map<string, int> := map[
    "全くない" := 100,
    "まれにしかない" := 75,
    "時々ある" := 50,
    "よくある" := 25,
    "いつもある" := 0
  ]

  /** The only values a single item can score. */
  const ScoreValues: set<int> := {0, 25, 50, 75, 100}

  /** The score of one answer: a lower symptom frequency scores higher. */
  function Score(a: Answer): (s: int)
    ensures s in ScoreValues
    ensures Label(a) in ScoreMap && ScoreMap[Label(a)] == s
  {
    match a
    case Never => 100
    case Rarely => 75
    case Sometimes => 50
    case Often => 25
    case Always => 0
  }

  /** Position of an answer in `Options`. */
  function Rank(a: Answer): (k: nat)
    ensures k < |Options| && Options[k] == a
  {
    match a
    case Never => 0
    case Rarely => 1
    case Sometimes => 2
    case Often => 3
    case Always => 4
  }

  /** The answer a form label stands for; labels outside the scale have none. */
  function FromLabel(s: string): (r: Option<Answer>)
    ensures r.Some? ==> Label(r.value) == s
    ensures r.None? ==> forall a: Answer :: Label(a) != s
  {
    if s == Label(Never) then Some(Never)
    else if s == Label(Rarely) then Some(Rarely)
    else if s == Label(Sometimes) then Some(Sometimes)
    else if s == Label(Often) then Some(Often)
    else if s == Label(Always) then Some(Always)
    else None
  }

  /** Every label decodes back to its answer, so labels are pairwise distinct. */
  lemma LabelRoundTrip(a: Answer)
    ensures FromLabel(Label(a)) == Some(a)
  {
  }

  /** The keys of the score table are exactly the labels of the offered options,
      and the table agrees with `Score` on each of them. */
  lemma ScoreMapMatchesOptions()
    ensures ScoreMap.Keys == set i | 0 <= i < |Options| :: Label(Options[i])
    ensures forall i :: 0 <= i < |Options| ==> ScoreMap[Label(Options[i])] == Score(Options[i])
  {
    var labels := set i | 0 <= i < |Options| :: Label(Options[i]);
    assert Label(Options[0]) in labels;
    assert Label(Options[1]) in labels;
    assert Label(Options[2]) in labels;
    assert Label(Options[3]) in labels;
    assert Label(Options[4]) in labels;
  }

  /** Scores strictly fall along the order the options are offered in, so
      the score determines the answer. */
  lemma ScoreStrictlyDecreasing(a: Answer, b: Answer)
    ensures Rank(a) < Rank(b) <==> Score(a) > Score(b)
    ensures Score(a) == Score(b) ==> a == b
  {
  }
}
