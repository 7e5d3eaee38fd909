# AS-20 questionnaire scoring — a Dafny model

This project models the scoring core of the AS-20 quality-of-life
questionnaire app (a Streamlit form for strabismus patients). It covers:

- the five-point answer scale and its fixed score table (100/75/50/25/0);
- turning 20 answers into 20 item scores;
- the three averages: overall, psychosocial (questions 1-10) and functional (questions 11-20);
- the submit guard, which checks the name and patient identifier first and then that every question is answered;
- the four QOL level bands on the overall average;
- the two decisions taken while drawing the chart: each bar's colour, and the note naming the higher subscale;
- the name of the file a submission is saved to.

All of it is written as pure functions with proved contracts.

Modules, one per component:

- `Wrappers`: `Option` and `Result`.
- `Likert`: the `Answer` enumeration, its labels and `SCORE_MAP`.
- `Scoring`: score list, sums over index lists, averages, `ScoredRecord`.
- `QolLevels`: the four levels and their bands.
- `Chart`: bar colour and the subscale-difference note.
- `RecordName`: the `survey_data/{id}_{YYYYMMDD_HHMMSS}.json` format, with a parser that inverts it.
- `Submission`: the inline submit handler lifted into `Validate` and `Submit`, plus the worked scenarios.

Averages are exact `real`s. The source divides with floats. Every score sum is a multiple of 25 and at most 2000. The averages are therefore whole multiples of 1.25 (overall) or 2.5 (subscales), and a binary float holds those exactly. So the floats equal the reals used here (`Scoring.AveragesAreExactSteps`).

Details of the program's behaviour that the model keeps:

- A name or identifier is refused only when it is the empty string (Python's `not name`). A name of blanks is accepted.
- A refusal carries one of two fixed messages, one for the identity fields and one for unanswered questions.
- A bar is red for every score other than 100, 75, 50 or 25.

## Model

| member | source | states |
|---|---|---|
| Likert.Score | app.py:45-51 | each answer's score is one of 0, 25, 50, 75, 100 and equals the `SCORE_MAP` entry for the answer's label |
| Likert.Rank | app.py:43 | each answer sits at its own position in the offered option list |
| Likert.FromLabel | app.py:43-51 | a label decodes to the answer whose label it is; a string that is no answer's label decodes to nothing |
| Likert.LabelRoundTrip | app.py:43 | decoding an answer's label gives that answer back, so the five labels are distinct |
| Likert.ScoreMapMatchesOptions | app.py:43-51 | the score table's keys are exactly the five option labels and agree with `Score` |
| Likert.ScoreStrictlyDecreasing | app.py:45-51 | scores fall strictly along the option order, so a score determines its answer |
| Scoring.Range | app.py:53-54 | `range(lo, hi)` holds exactly the indices from `lo` up to but excluding `hi`, in strictly increasing order |
| Scoring.Scores | app.py:58 | the score list has one entry per answer, in the same order, each the table score of its answer |
| Scoring.ScoreResponse | app.py:57-61 | the record keeps name, id, timestamp and answers; `total_avg * 20` is the sum of the scores; each subscale average times 10 is the sum of its half; the subscale averages' mean is the overall average; all three averages lie in 0..100 |
| Scoring.SumAppend | app.py:59-61 | a sum over a concatenation is the sum of the parts' sums |
| Scoring.SumAtRange | app.py:60-61 | summing at the indices of `range(lo, hi)` equals summing the slice `lo..hi` |
| Scoring.SubscalesPartitionItems | app.py:53-54 | the subscale index lists hold ten indices each, are disjoint, and together are exactly 0..19 in order |
| Scoring.SubscalesAreHalves | app.py:53-61 | the psychosocial sum is the sum of items 0-9 and the functional sum that of items 10-19 |
| Scoring.SubscalesPartitionTotal | app.py:59-61 | the total is the sum of the two subscale sums, so `(psychosocial_avg + functional_avg) / 2 == total_avg` |
| Scoring.ScoreSumBounds | app.py:58-61 | a sum of item scores lies between 0 and 100 per item and is a multiple of 25 |
| Scoring.AveragesAreExactSteps | app.py:59-61 | the overall average is a whole multiple of 1.25 and each subscale average a whole multiple of 2.5 |
| QolLevels.LevelOf | app.py:189-196 | the chosen level's band contains the average, and no other band does: bands at 75, 50, 25 with inclusive lower bounds |
| QolLevels.LevelMonotone | app.py:189-196 | a higher average never yields a worse level |
| QolLevels.LevelPresentationDistinct | app.py:189-196 | different levels are shown with different texts and markers |
| Chart.BarColor | app.py:95 | 100, 75, 50 and 25 each get their own colour; every other score, 0 included, gets red `#FF6B6B` |
| Chart.BarColors | app.py:95-96 | one colour per item score, in item order |
| Chart.BarColorIdentifiesAnswer | app.py:95 | on scored answers, two bars share a colour exactly when the answers are equal |
| Chart.DiffAnnotation | app.py:139-142 | a note exists iff the subscale averages differ by more than 10; it names psychosocial iff that average is higher, otherwise functional; its amount is the absolute difference; its box takes the named subscale's colour |
| Chart.DiffAnnotationSymmetric | app.py:139-142 | swapping the averages keeps the note's presence and amount and names the other subscale |
| RecordName.PadDigits | app.py:74 | a zero-padded field has exactly the field width and only digits |
| RecordName.ParseDigits | app.py:74 | a parsed digit string has a value below 10 to the power of its length |
| RecordName.ParsePadRoundTrip | app.py:74 | parsing a zero-padded number gives the number back |
| RecordName.StampText | app.py:74 | the `%Y%m%d_%H%M%S` stamp is 15 characters with `_` at position 8 |
| RecordName.ParseStamp | app.py:74 | a parsed stamp is a valid clock reading |
| RecordName.StampRoundTrip | app.py:74 | parsing a stamp gives back the clock reading it was printed from |
| RecordName.FileName | app.py:74 | the name is `survey_data/`, then the patient id, `_`, the 15-character stamp and `.json` |
| RecordName.ParseFileName | app.py:74 | a parsed file name yields a valid clock reading |
| RecordName.FileNameRoundTrip | app.py:74 | parsing a file name gives back the patient id and clock reading, even when the id contains `_` |
| RecordName.FileNameInjective | app.py:74 | two submissions get the same file-name string iff they have the same patient id and the same second |
| Submission.Validate | app.py:179-183 | refused for a missing identity iff name or id is empty; refused for unanswered iff both are given and some answer is unset; otherwise the answers, in form order |
| Submission.Submit | app.py:178-209 | accepted iff name and id are non-empty and every question is answered; a refusal carries the guard's reason; an accepted submission has a record faithful to the form, averages with the partition identity, a record equal to scoring the form's answers, a level that is the band level of the overall average, the file name built from the id and the second, which parses back to (id, second), the bar colours of the 20 scores in item order, and the subscale note of the two subscale averages (present iff they differ by more than 10) |
| Submission.NoteNeedsAStepAboveTen | app.py:139-140 | on a scored record the note appears iff the subscale averages differ by at least 12.5 |
| Submission.UniformAverages | app.py:57-61 | with one answer throughout, all three averages equal that answer's score |
| Submission.AllNeverScenario | app.py:178-209 | all "全くない": every score 100, every average 100, level good, no note |
| Submission.AllAlwaysScenario | app.py:178-209 | all "いつもある": every score 0, every average 0, the lowest level, no note |
| Submission.SplitScenario | app.py:178-209 | 1-10 "全くない" and 11-20 "いつもある": psychosocial 100, functional 0, overall 50, level moderate, a note naming psychosocial as higher by 100 |
| Submission.MissingIdScenario | app.py:179-180 | an empty patient id is refused, whatever the answers, before anything is scored or saved |

## Left out

- Streamlit UI (page setup, widgets, layout, interpretation guide, footer; app.py:9-13, app.py:150-225, apart from the guard and the level): presentation only. The question texts are not modelled; only their count (20) is.
- Chart drawing (figure, axes, reference lines, labels, fonts; app.py:82-146, apart from the bar colour and the note): a foreign rendering library. The note's text and its `.1f` formatting are not modelled; the note carries the subscale and the amount.
- Persistence (JSON serialisation and file write, app.py:75-76; directory creation, app.py:17): I/O. The model returns the record and the file name without writing. The file name is a string only.
- RecordName.FileNameInjective: proves distinct file-name strings, not distinct files. File identity is not modelled: a filesystem that ignores case maps ids `ab` and `AB` in the same second to one file, and the later write replaces the earlier. Ids containing `/` can also resolve to another id's file (`/ab` and `ab` both name `survey_data/ab_…json`, since a doubled slash counts as one) or to a file outside `survey_data/` (`../x`).
- Submission.Submit: failed writes are not modelled. In the program, a write that fails aborts the submission with an uncaught exception, and no level or chart is shown. An id such as `a/b`, whose directory part does not exist under `survey_data/`, is one such case. The model returns `Success` for such a submission.
- Clock: `datetime.now()` is read twice (app.py:66 and app.py:74). Both readings are parameters of `Submission.Submit`: the ISO text stored in the record and the fields used in the file name.
- Float arithmetic and `.1f` display (app.py:122-123, app.py:203-207): the model uses exact reals, which equal the floats here (see above).
- RecordName.ValidTimestamp: years below 1000 are not modelled, because how `%Y` pads such years depends on the platform.
- Submission.Submit: requires a form of exactly 20 entries, because the form loop (app.py:171-174) builds one entry per question; answers outside the five options cannot occur, because the radio buttons offer only those.
- Submission.Message: the two refusal messages are kept as constants, without a contract.
