/** The two decisions made inside the chart code (app.py:95 and
    app.py:139-142): the colour of each item's bar, and whether the subscale
    comparison carries a note naming the higher subscale. */
module Chart {
  import opened Wrappers
  import opened Likert

  const Green: string := "#2ECC71"
  const Teal: string := "#95E1D3"
  const Yellow: string := "#FFD93D"
  const Orange: string := "#FF9A76"
  const Red: string := "#FF6B6B"

  /** Bar colour of an item score; any score that is not 100, 75, 50 or 25 is red. */
  function BarColor(score: int): (c: string)
    ensures c in {Green, Teal, Yellow, Orange, Red}
    ensures c == Red <==> score !in {25, 50, 75, 100}
    ensures c == Green <==> score == 100
    ensures c == Teal <==> score == 75
    ensures c == Yellow <==> score == 50
    ensures c == Orange <==> score == 25
  {
    if score == 100 then Green
    else if score == 75 then Teal
    else if score == 50 then Yellow
    else if score == 25 then Orange
    else Red
  }

  /** The colour list passed to the bar chart, one per item, in item order. */
  function BarColors(scores: seq<int>): (cs: seq<string>)
    ensures |cs| == |scores|
    ensures forall i :: 0 <= i < |cs| ==> cs[i] == BarColor(scores[i])
  {
    if |scores| == 0 then [] else [BarColor(scores[0])] + BarColors(scores[1..])
  }

  /** On scored answers the colour identifies the answer: no two answers share one. */
  lemma BarColorIdentifiesAnswer(a: Answer, b: Answer)
    ensures BarColor(Score(a)) == BarColor(Score(b)) <==> a == b
  {
  }

  /** The two subscales of the questionnaire. */
  datatype Subscale = Psychosocial | Functional

  /** The bar colour each subscale is drawn in; the note box reuses it. */
  function SubscaleColor(s: Subscale): string {
    match s
    case Psychosocial => "#E74C3C"
    case Functional => "#3498DB"
  }

  /** The note drawn on the subscale comparison: which subscale is higher and by how much. */
  datatype DiffNote = DiffNote(higher: Subscale, amount: real, boxColor: string)

  /** Distance between two averages (`abs(a - b)`). */
  function Distance(a: real, b: real): real {
    if a >= b then a - b else b - a
  }

  /** Threshold the subscale averages must differ by, strictly, to get a note. */
  const NoteThreshold: real := 10.0

  /** The note for a pair of subscale averages, if any. */
  function DiffAnnotation(psychosocial: real, functional: real): (r: Option<DiffNote>)
    ensures r.Some? <==> Distance(psychosocial, functional) > NoteThreshold
    ensures r.Some? ==> (r.value.higher == Psychosocial <==> psychosocial > functional)
    ensures r.Some? ==> (r.value.higher == Functional <==> functional > psychosocial)
    ensures r.Some? ==> r.value.amount > NoteThreshold
    ensures r.Some? && r.value.higher == Psychosocial ==> r.value.amount == psychosocial - functional
    ensures r.Some? && r.value.higher == Functional ==> r.value.amount == functional - psychosocial
    ensures r.Some? ==> r.value.boxColor == SubscaleColor(r.value.higher)
  {
    var diff := Distance(psychosocial, functional);
    if diff > NoteThreshold then
      var higher := if psychosocial > functional then Psychosocial else Functional;
      Some(DiffNote(higher, diff, SubscaleColor(higher)))
    else
      None
  }

  /** Swapping the two averages keeps the note's presence and amount and
      names the other subscale. */
  lemma DiffAnnotationSymmetric(p: real, f: real)
    ensures DiffAnnotation(p, f).Some? <==> DiffAnnotation(f, p).Some?
    ensures DiffAnnotation(p, f).Some? ==>
      DiffAnnotation(p, f).value.amount == DiffAnnotation(f, p).value.amount &&
      DiffAnnotation(p, f).value.higher != DiffAnnotation(f, p).value.higher
  {
  }
}
