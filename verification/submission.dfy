/** The submit handler (app.py:178-196, 209), lifted into pure functions:
    the form is checked, a complete form is scored and named for saving,
    the QOL level is chosen, and the chart decisions are taken. Writing the
    file, the clock and all rendering are outside the model; the two clock
    readings the source takes are parameters. */
module Submission {
  import opened Wrappers
  import opened Likert
  import opened Scoring
  import QolLevels
  import Chart
  import RecordName

  /** Why a submission is refused; nothing is scored or saved then. */
  datatype Rejection =
    | MissingIdentity  // name or patient identifier left empty
    | Unanswered       // some question has no answer selected

  /** The message shown for a refusal. */
  function Message(r: Rejection): string {
    match r
    case MissingIdentity => "❌ 氏名とIDを入力してください。"
    case Unanswered => "❌ すべての質問に回答してください。"
  }

  /** Everything an accepted submission produces. */
  datatype Accepted = Accepted(
    record: ScoredRecord,
    fileName: string,
    level: QolLevels.QolLevel,
    barColors: seq<string>,
    note: Option<Chart.DiffNote>)

  /** The form has an entry for every question, answered or not. */
  predicate Complete(form: seq<Option<Answer>>) {
    forall i :: 0 <= i < |form| ==> form[i].Some?
  }

  /** The answers of a complete form, in question order. */
  function Answers(form: seq<Option<Answer>>): (answers: seq<Answer>)
    requires Complete(form)
    ensures |answers| == |form|
    ensures forall i :: 0 <= i < |form| ==> form[i] == Some(answers[i])
  {
    seq(|form|, i requires 0 <= i < |form| => form[i].value)
  }

  /** The guard before scoring: identity first, then completeness. A name
      is missing only when it is the empty string. */
  function Validate(name: string, patientId: string, form: seq<Option<Answer>>)
    : (r: Result<seq<Answer>, Rejection>)
    ensures r == Failure(MissingIdentity) <==> name == "" || patientId == ""
    ensures r == Failure(Unanswered) <==>
      name != "" && patientId != "" && exists i :: 0 <= i < |form| && form[i].None?
    ensures r.Success? ==>
      |r.value| == |form| && forall i :: 0 <= i < |form| ==> form[i] == Some(r.value[i])
  {
    if name == "" || patientId == "" then Failure(MissingIdentity)
    else if !Complete(form) then Failure(Unanswered)
    else Success(Answers(form))
  }

  /** One press of the submit button. `isoStamp` is the clock reading stored
      in the record and `fileTime` the one used in the file name. */
  function Submit(name: string, patientId: string, form: seq<Option<Answer>>,
                  isoStamp: string, fileTime: RecordName.Timestamp)
    : (r: Result<Accepted, Rejection>)
    requires |form| == ItemCount
    requires RecordName.ValidTimestamp(fileTime)
    ensures r.Success? <==> name != "" && patientId != "" && Complete(form)
    ensures r.Failure? ==> r.error == Validate(name, patientId, form).error
    ensures r.Success? ==>
      && r.value.record.name == name
      && r.value.record.patientId == patientId
      && r.value.record.timestamp == isoStamp
      && |r.value.record.responses| == ItemCount
      && (forall i :: 0 <= i < ItemCount ==> form[i] == Some(r.value.record.responses[i]))
      && r.value.record == ScoreResponse(name, patientId, isoStamp, r.value.record.responses)
      && r.value.record.scores == Scores(r.value.record.responses)
      && r.value.record.totalAvg * 20.0 == Sum(r.value.record.scores) as real
      && (r.value.record.psychosocialAvg + r.value.record.functionalAvg) / 2.0 == r.value.record.totalAvg
      && QolLevels.InBand(r.value.level, r.value.record.totalAvg)
      && r.value.level == QolLevels.LevelOf(r.value.record.totalAvg)
      && r.value.fileName == RecordName.FileName(patientId, fileTime)
      && RecordName.ParseFileName(r.value.fileName) == Some((patientId, fileTime))
      && |r.value.barColors| == ItemCount
      && r.value.barColors == Chart.BarColors(r.value.record.scores)
      && (r.value.note.Some? <==>
            Chart.Distance(r.value.record.psychosocialAvg, r.value.record.functionalAvg) > Chart.NoteThreshold)
      && r.value.note == Chart.DiffAnnotation(r.value.record.psychosocialAvg, r.value.record.functionalAvg)
  {
    match Validate(name, patientId, form)
    case Failure(e) => Failure(e)
    case Success(answers) =>
      var record := ScoreResponse(name, patientId, isoStamp, answers);
      RecordName.FileNameRoundTrip(patientId, fileTime);
      Success(Accepted(
        record,
        RecordName.FileName(patientId, fileTime),
        QolLevels.LevelOf(record.totalAvg),
        Chart.BarColors(record.scores),
        Chart.DiffAnnotation(record.psychosocialAvg, record.functionalAvg)))
  }

  /** On a scored record, the subscale note appears exactly when the two
      subscale averages differ by at least 12.5: subscale sums move in steps
      of 25, so no reachable difference lies strictly between 10 and 12.5. */
  lemma {:induction false} NoteNeedsAStepAboveTen(name: string, patientId: string, timestamp: string,
                                              responses: seq<Answer>)
    requires |responses| == ItemCount
    ensures var r := ScoreResponse(name, patientId, timestamp, responses);
      Chart.DiffAnnotation(r.psychosocialAvg, r.functionalAvg).Some? <==>
        Chart.Distance(r.psychosocialAvg, r.functionalAvg) >= 12.5
  {
    var r := ScoreResponse(name, patientId, timestamp, responses);
    ScoreSumBounds(r.scores[..10]);
    ScoreSumBounds(r.scores[10..]);
    var p := Sum(r.scores[..10]);
    var f := Sum(r.scores[10..]);
    assert (p - f) % 25 == 0;
    assert p - f > 100 <==> p - f >= 125;
    assert f - p > 100 <==> f - p >= 125;
  }

  /** A form with every question answered `a`. */
  function Uniform(a: Answer): (form: seq<Option<Answer>>)
    ensures |form| == ItemCount && Complete(form)
  {
    seq(ItemCount, _ => Some(a))
  }

  /** All answers "全くない": every score 100, every average 100, level good, no note. */
  lemma AllNeverScenario(name: string, patientId: string, isoStamp: string,
                         fileTime: RecordName.Timestamp)
    requires name != "" && patientId != ""
    requires RecordName.ValidTimestamp(fileTime)
    ensures var r := Submit(name, patientId, Uniform(Never), isoStamp, fileTime);
      && r.Success?
      && (forall i :: 0 <= i < ItemCount ==> r.value.record.scores[i] == 100)
      && r.value.record.totalAvg == 100.0
      && r.value.record.psychosocialAvg == 100.0
      && r.value.record.functionalAvg == 100.0
      && r.value.level == QolLevels.Good
      && r.value.note == None
  {
    UniformAverages(Never);
  }

  /** All answers "いつもある": every score 0, every average 0, the lowest level. */
  lemma AllAlwaysScenario(name: string, patientId: string, isoStamp: string,
                          fileTime: RecordName.Timestamp)
    requires name != "" && patientId != ""
    requires RecordName.ValidTimestamp(fileTime)
    ensures var r := Submit(name, patientId, Uniform(Always), isoStamp, fileTime);
      && r.Success?
      && (forall i :: 0 <= i < ItemCount ==> r.value.record.scores[i] == 0)
      && r.value.record.totalAvg == 0.0
      && r.value.record.psychosocialAvg == 0.0
      && r.value.record.functionalAvg == 0.0
      && r.value.level == QolLevels.SeverelyReduced
      && r.value.note == None
  {
    UniformAverages(Always);
  }

  /** With one answer throughout, all three averages equal that answer's score. */
  lemma UniformAverages(a: Answer)
    ensures var r := ScoreResponse("", "", "", Answers(Uniform(a)));
      r.totalAvg == Score(a) as real
      && r.psychosocialAvg == Score(a) as real
      && r.functionalAvg == Score(a) as real
  {
    var r := ScoreResponse("", "", "", Answers(Uniform(a)));
    var v := Score(a);
    assert r.scores == seq(20, _ => v);
    assert r.scores[..10] == seq(10, _ => v);
    assert r.scores[10..] == seq(10, _ => v);
    SumConstant(v, 20);
    SumConstant(v, 10);
  }

  /** Questions 1-10 "全くない" and 11-20 "いつもある": the psychosocial
      average is 100, the functional 0, the overall 50, and the note names
      the psychosocial subscale as higher by 100. */
  lemma SplitScenario(name: string, patientId: string, isoStamp: string,
                      fileTime: RecordName.Timestamp)
    requires name != "" && patientId != ""
    requires RecordName.ValidTimestamp(fileTime)
    ensures var form := seq(ItemCount, i => if i < 10 then Some(Never) else Some(Always));
      var r := Submit(name, patientId, form, isoStamp, fileTime);
      && r.Success?
      && r.value.record.psychosocialAvg == 100.0
      && r.value.record.functionalAvg == 0.0
      && r.value.record.totalAvg == 50.0
      && r.value.level == QolLevels.Moderate
      && r.value.note == Some(Chart.DiffNote(Chart.Psychosocial, 100.0, Chart.SubscaleColor(Chart.Psychosocial)))
  {
    var form := seq(ItemCount, i => if i < 10 then Some(Never) else Some(Always));
    var r := ScoreResponse(name, patientId, isoStamp, Answers(form));
    assert r.scores[..10] == seq(10, _ => 100);
    assert r.scores[10..] == seq(10, _ => 0);
    SumConstant(100, 10);
    SumConstant(0, 10);
  }

  /** A missing patient identifier is refused before anything is scored or saved,
      however completely the questions are answered. */
  lemma MissingIdScenario(name: string, form: seq<Option<Answer>>, isoStamp: string,
                          fileTime: RecordName.Timestamp)
    requires |form| == ItemCount
    requires RecordName.ValidTimestamp(fileTime)
    ensures Submit(name, "", form, isoStamp, fileTime) == Failure(MissingIdentity)
  {
  }
}
