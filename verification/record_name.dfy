/** The name of the file a submission is saved to (app.py:74):
    `survey_data/{patient_id}_{YYYYMMDD_HHMMSS}.json`. The clock reading
    is a parameter. A parser inverts the format, which shows that two
    submissions share a file name only for the same patient identifier
    and the same second. */
module RecordName {
  import opened Wrappers

  /** The storage directory (DATA_DIR). */
  const DataDir: string := "survey_data"

  /** Date and time fields of a clock reading, to the second. */
  datatype Timestamp = Timestamp(year: int, month: int, day: int,
                                 hour: int, minute: int, second: int)

  /** Field ranges of a clock reading whose year prints as four digits. */
  predicate ValidTimestamp(t: Timestamp) {
    && 1000 <= t.year <= 9999
    && 1 <= t.month <= 12
    && 1 <= t.day <= 31
    && 0 <= t.hour <= 23
    && 0 <= t.minute <= 59
    && 0 <= t.second <= 59
  }

  /** Ten to the power `width`: one more than the largest `width`-digit number. */
  function Pow10(width: nat): (p: nat)
    ensures p >= 1
  {
    if width == 0 then 1 else 10 * Pow10(width - 1)
  }

  /** The decimal digit character for `d`. */
  function DigitChar(d: nat): char
    requires d < 10
  {
    "0123456789"[d]
  }

  /** `c` is one of the characters `0` to `9`. */
  predicate IsDigit(c: char) {
    '0' <= c <= '9'
  }

  /** `n` in decimal, left-padded with zeros to `width` digits (strftime's `%02d`-style fields). */
  function PadDigits(n: nat, width: nat): (s: string)
    requires n < Pow10(width)
    ensures |s| == width
    ensures forall i :: 0 <= i < |s| ==> IsDigit(s[i])
  {
    if width == 0 then "" else PadDigits(n / 10, width - 1) + [DigitChar(n % 10)]
  }

  /** The decimal value of a digit string; `None` if a character is not a digit. */
  function ParseDigits(s: string): (r: Option<nat>)
    ensures r.Some? ==> r.value < Pow10(|s|)
  {
    if |s| == 0 then Some(0)
    else if !IsDigit(s[|s| - 1]) then None
    else match ParseDigits(s[..|s| - 1])
      case None => None
      case Some(high) => Some(10 * high + (s[|s| - 1] - '0') as nat)
  }

  /** Parsing a padded number gives the number back. */
  lemma {:induction false} ParsePadRoundTrip(n: nat, width: nat)
    requires n < Pow10(width)
    ensures ParseDigits(PadDigits(n, width)) == Some(n)
  {
    if width > 0 {
      var s := PadDigits(n, width);
      assert s[..|s| - 1] == PadDigits(n / 10, width - 1);
      ParsePadRoundTrip(n / 10, width - 1);
    }
  }

  /** `%Y%m%d_%H%M%S` of a clock reading. */
  function StampText(t: Timestamp): (s: string)
    requires ValidTimestamp(t)
    ensures |s| == 15 && s[8] == '_'
  {
    PadDigits(t.year, 4) + PadDigits(t.month, 2) + PadDigits(t.day, 2) + "_"
    + PadDigits(t.hour, 2) + PadDigits(t.minute, 2) + PadDigits(t.second, 2)
  }

  /** Reads a clock reading back from its 15-character stamp. */
  function ParseStamp(s: string): (r: Option<Timestamp>)
    ensures r.Some? ==> ValidTimestamp(r.value)
  {
    if |s| != 15 || s[8] != '_' then None
    else
      match (ParseDigits(s[0..4]), ParseDigits(s[4..6]), ParseDigits(s[6..8]),
             ParseDigits(s[9..11]), ParseDigits(s[11..13]), ParseDigits(s[13..15]))
      case (Some(y), Some(mo), Some(d), Some(h), Some(mi), Some(se)) =>
        var t := Timestamp(y, mo, d, h, mi, se);
        if ValidTimestamp(t) then Some(t) else None
      case _ => None
  }

  /** The pieces of a concatenation are its slices at their offsets. */
  lemma SliceOfConcat(a: string, b: string)
    ensures (a + b)[..|a|] == a
    ensures (a + b)[|a|..] == b
  {
  }

  /** Parsing a printed stamp gives back the clock reading it was printed from. */
  lemma StampRoundTrip(t: Timestamp)
    requires ValidTimestamp(t)
    ensures ParseStamp(StampText(t)) == Some(t)
  {
    var y, mo, d := PadDigits(t.year, 4), PadDigits(t.month, 2), PadDigits(t.day, 2);
    var h, mi, se := PadDigits(t.hour, 2), PadDigits(t.minute, 2), PadDigits(t.second, 2);
    var s := StampText(t);
    assert s == y + mo + d + "_" + h + mi + se;
    SliceOfConcat(y, mo + d + "_" + h + mi + se);
    SliceOfConcat(y + mo, d + "_" + h + mi + se);
    SliceOfConcat(y + mo + d + "_", h + mi + se);
    SliceOfConcat(y + mo + d + "_" + h, mi + se);
    SliceOfConcat(y + mo + d + "_" + h + mi, se);
    assert s[0..4] == y;
    assert s[4..6] == mo;
    assert s[6..8] == d;
    assert s[9..11] == h;
    assert s[11..13] == mi;
    assert s[13..15] == se;
    ParsePadRoundTrip(t.year, 4);
    ParsePadRoundTrip(t.month, 2);
    ParsePadRoundTrip(t.day, 2);
    ParsePadRoundTrip(t.hour, 2);
    ParsePadRoundTrip(t.minute, 2);
    ParsePadRoundTrip(t.second, 2);
  }

  /** What every file name starts with: the storage directory and a separator. */
  const Prefix: string := DataDir + "/"
  /** What every file name ends with: the JSON extension. */
  const Suffix: string := ".json"

  /** The file name of a submission by `patientId` at clock reading `t`. */
  function FileName(patientId: string, t: Timestamp): (f: string)
    requires ValidTimestamp(t)
    ensures |f| == |Prefix| + |patientId| + 1 + 15 + |Suffix|
    ensures f[..|Prefix|] == Prefix
    ensures f[|f| - |Suffix|..] == Suffix
    ensures f[|Prefix|..|Prefix| + |patientId|] == patientId
  {
    Prefix + patientId + "_" + StampText(t) + Suffix
  }

  /** Splits a file name into the patient identifier and the clock reading,
      reading the fixed-width stamp from the right, so an identifier may
      itself contain `_`. */
  function ParseFileName(f: string): (r: Option<(string, Timestamp)>)
    ensures r.Some? ==> ValidTimestamp(r.value.1)
  {
    var fixed := |Prefix| + 1 + 15 + |Suffix|;
    if |f| < fixed || f[..|Prefix|] != Prefix || f[|f| - |Suffix|..] != Suffix then None
    else
      var idEnd := |f| - |Suffix| - 16;
      if f[idEnd] != '_' then None
      else match ParseStamp(f[idEnd + 1..|f| - |Suffix|])
        case None => None
        case Some(t) => Some((f[|Prefix|..idEnd], t))
  }

  /** Parsing a file name recovers the identifier and clock reading it was made from. */
  lemma FileNameRoundTrip(patientId: string, t: Timestamp)
    requires ValidTimestamp(t)
    ensures ParseFileName(FileName(patientId, t)) == Some((patientId, t))
  {
    var f := FileName(patientId, t);
    var idEnd := |f| - |Suffix| - 16;
    assert idEnd == |Prefix| + |patientId|;
    assert f[idEnd] == '_';
    assert f[idEnd + 1..|f| - |Suffix|] == StampText(t);
    StampRoundTrip(t);
  }

  /** Two submissions share a file name exactly when they have the same patient
      identifier and the same second. */
  lemma FileNameInjective(p1: string, t1: Timestamp, p2: string, t2: Timestamp)
    requires ValidTimestamp(t1) && ValidTimestamp(t2)
    ensures FileName(p1, t1) == FileName(p2, t2) <==> p1 == p2 && t1 == t2
  {
    if FileName(p1, t1) == FileName(p2, t2) {
      FileNameRoundTrip(p1, t1);
      FileNameRoundTrip(p2, t2);
    }
  }
}
