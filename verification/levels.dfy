/** The qualitative QOL level chosen from the overall average (app.py:189-196). */
module QolLevels {

  /** The four levels, from best to worst. */
  datatype QolLevel = Good | Moderate | Reduced | SeverelyReduced

  /** The text the result page shows for a level. */
  function Label(l: QolLevel): string {
    match l
    case Good => "良好（軽度の影響）"
    case Moderate => "中程度（中程度の影響）"
    case Reduced => "低下（顕著な影響）"
    case SeverelyReduced => "著しい低下（重度の影響）"
  }

  /** The coloured marker shown beside the level. */
  function Marker(l: QolLevel): string {
    match l
    case Good => "🟢"
    case Moderate => "🟡"
    case Reduced => "🟠"
    case SeverelyReduced => "🔴"
  }

  /** Badness of a level: 0 for the best, 3 for the worst. */
  function Severity(l: QolLevel): nat {
    match l
    case Good => 0
    case Moderate => 1
    case Reduced => 2
    case SeverelyReduced => 3
  }

  /** The band of averages each level stands for; lower bounds are inclusive. */
  predicate InBand(l: QolLevel, avg: real) {
    match l
    case Good => 75.0 <= avg
    case Moderate => 50.0 <= avg < 75.0
    case Reduced => 25.0 <= avg < 50.0
    case SeverelyReduced => avg < 25.0
  }

  /** The level of an overall average: the one band it falls in. */
  function LevelOf(avg: real): (l: QolLevel)
    ensures InBand(l, avg)
    ensures forall other: QolLevel :: InBand(other, avg) ==> other == l
  {
    if avg >= 75.0 then Good
    else if avg >= 50.0 then Moderate
    else if avg >= 25.0 then Reduced
    else SeverelyReduced
  }

  /** A higher average never yields a worse level. */
  lemma LevelMonotone(a: real, b: real)
    requires a <= b
    ensures Severity(LevelOf(b)) <= Severity(LevelOf(a))
  {
  }

  /** Distinct levels are shown with distinct texts and markers. */
  lemma LevelPresentationDistinct(l: QolLevel, m: QolLevel)
    requires l != m
    ensures Label(l) != Label(m)
    ensures Marker(l) != Marker(m)
  {
  }
}
