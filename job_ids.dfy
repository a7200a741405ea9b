/** Job identifiers: `<prefix>_<timestamp>` for the append load and
    `<prefix>_temptable_`, `<prefix>_merge_data_`, `<prefix>_delete_temp_data_` followed
    by a timestamp for the three jobs of a merge. The timestamp is the wall clock at
    submission formatted with `%Y%m%d%H%M%S`; the clock reading is a parameter. */
module JobIds {
  import opened Wrappers

  /** A wall-clock reading, as `pd.to_datetime('now')` gives it. */
  datatype DateTime = DateTime(year: nat, month: nat, day: nat, hour: nat, minute: nat, second: nat)

  /** A reading a pandas timestamp can hold (pandas covers the years 1677 to 2262, so the
      year always has four digits). */
  predicate ValidDateTime(d: DateTime)
  {
    && 1000 <= d.year <= 9999
    && 1 <= d.month <= 12
    && 1 <= d.day <= 31
    && d.hour < 24
    && d.minute < 60
    && d.second < 60
  }

  function Pow10(w: nat): (p: nat)
    ensures p >= 1
  {
    if w == 0 then 1 else 10 * Pow10(w - 1)
  }

  function DigitChar(d: nat): char
    requires d < 10
  {
    "0123456789"[d]
  }

  predicate IsDigit(ch: char)
  {
    '0' <= ch <= '9'
  }

  /** The last `w` decimal digits of `n`, zero-padded to width `w` (`%02d`, `%04d`). */
  function Digits(n: nat, w: nat): (s: string)
    ensures |s| == w
    ensures forall i :: 0 <= i < w ==> IsDigit(s[i])
  {
    if w == 0 then "" else Digits(n / 10, w - 1) + [DigitChar(n % 10)]
  }

  /** The number a string of decimal digits spells. */
  function DigitsValue(s: string): nat
    requires forall i :: 0 <= i < |s| ==> IsDigit(s[i])
  {
    if s == [] then 0
    else
      assert IsDigit(s[|s| - 1]);
      10 * DigitsValue(s[..|s| - 1]) + (s[|s| - 1] as int - '0' as int)
  }

  /** `strftime('%Y%m%d%H%M%S')`. */
  function Stamp(d: DateTime): (stamp: string)
    ensures |stamp| == 14
    ensures forall i :: 0 <= i < 14 ==> IsDigit(stamp[i])
  {
    Digits(d.year, 4) + Digits(d.month, 2) + Digits(d.day, 2)
      + Digits(d.hour, 2) + Digits(d.minute, 2) + Digits(d.second, 2)
  }

  /** Reads a 14-digit `%Y%m%d%H%M%S` stamp back; None for anything else. */
  function ParseStamp(s: string): Option<DateTime>
  {
    if |s| == 14 && forall i :: 0 <= i < 14 ==> IsDigit(s[i]) then
      Some(DateTime(DigitsValue(s[0..4]), DigitsValue(s[4..6]), DigitsValue(s[6..8]),
                    DigitsValue(s[8..10]), DigitsValue(s[10..12]), DigitsValue(s[12..14])))
    else None
  }

  /** Zero-padding keeps the value of every number that fits the width. */
  lemma {:induction false} DigitsRoundTrip(n: nat, w: nat)
    requires n < Pow10(w)
    ensures DigitsValue(Digits(n, w)) == n
  {
    if w > 0 {
      DigitsRoundTrip(n / 10, w - 1);
      var s := Digits(n, w);
      assert s[..|s| - 1] == Digits(n / 10, w - 1);
      assert "0123456789"[n % 10] as int - '0' as int == n % 10;
    }
  }

  /** A stamp is 14 digits and reads back as the reading it was made from. */
  lemma StampRoundTrip(d: DateTime)
    requires ValidDateTime(d)
    ensures |Stamp(d)| == 14
    ensures forall i :: 0 <= i < 14 ==> IsDigit(Stamp(d)[i])
    ensures ParseStamp(Stamp(d)) == Some(d)
  {
    var s := Stamp(d);
    assert Pow10(2) == 100 && Pow10(4) == 10000;
    DigitsRoundTrip(d.year, 4);
    DigitsRoundTrip(d.month, 2);
    DigitsRoundTrip(d.day, 2);
    DigitsRoundTrip(d.hour, 2);
    DigitsRoundTrip(d.minute, 2);
    DigitsRoundTrip(d.second, 2);
    assert s[0..4] == Digits(d.year, 4);
    assert s[4..6] == Digits(d.month, 2);
    assert s[6..8] == Digits(d.day, 2);
    assert s[8..10] == Digits(d.hour, 2);
    assert s[10..12] == Digits(d.minute, 2);
    assert s[12..14] == Digits(d.second, 2);
  }

  /** The three jobs of a merge, each named by its own infix. */
  datatype Stage = StagingLoad | MergeData | DeleteTempData

  function StageInfix(stage: Stage): string
  {
    match stage
    case StagingLoad => "_temptable_"
    case MergeData => "_merge_data_"
    case DeleteTempData => "_delete_temp_data_"
  }

  /** The id of the append load job: `f"{job_id_prefix}_{timestamp}"`, so the prefix,
      an underscore, and 14 digits. */
  function AppendJobId(prefix: string, now: DateTime): (id: string)
    ensures |id| == |prefix| + 15
    ensures prefix <= id && id[|prefix|] == '_'
    ensures forall i :: |prefix| < i < |id| ==> IsDigit(id[i])
  {
    prefix + "_" + Stamp(now)
  }

  /** The id of one job of a merge: `f"{job_id_prefix}_temptable_{timestamp}"` and the
      like, so the prefix, the stage's infix, and 14 digits. */
  function StageJobId(prefix: string, stage: Stage, now: DateTime): (id: string)
    ensures |id| == |prefix| + |StageInfix(stage)| + 14
    ensures prefix + StageInfix(stage) <= id
    ensures forall i :: |id| - 14 <= i < |id| ==> IsDigit(id[i])
  {
    prefix + StageInfix(stage) + Stamp(now)
  }

  /** With one prefix, the three merge jobs never share an id, whatever the clock said
      at each submission, and none of them shares an id with an append load. */
  lemma JobIdsDistinct(prefix: string, s1: Stage, d1: DateTime, s2: Stage, d2: DateTime, d: DateTime)
    ensures s1 != s2 ==> StageJobId(prefix, s1, d1) != StageJobId(prefix, s2, d2)
    ensures AppendJobId(prefix, d) != StageJobId(prefix, s1, d1)
  {
    var k := |prefix| + 1;
    assert StageJobId(prefix, s1, d1)[k] == StageInfix(s1)[1];
    assert StageJobId(prefix, s2, d2)[k] == StageInfix(s2)[1];
    assert AppendJobId(prefix, d)[k] == Stamp(d)[0];
    assert IsDigit(Stamp(d)[0]) by {
      assert Stamp(d)[0] == Digits(d.year, 4)[0];
    }
  }

  /** The clock reading can be read back from the last 14 characters of any job id. */
  lemma TimestampRecoverable(prefix: string, stage: Stage, now: DateTime)
    requires ValidDateTime(now)
    ensures var id := StageJobId(prefix, stage, now);
      |id| >= 14 && ParseStamp(id[|id| - 14..]) == Some(now)
    ensures var id := AppendJobId(prefix, now);
      |id| >= 14 && ParseStamp(id[|id| - 14..]) == Some(now)
  {
    StampRoundTrip(now);
    var id := StageJobId(prefix, stage, now);
    assert id[|id| - 14..] == Stamp(now);
    var appendId := AppendJobId(prefix, now);
    assert appendId[|appendId| - 14..] == Stamp(now);
  }
}
