/**
 * Calendar readings of the local clock and the `strftime` stamps built from
 * them, `%Y%m%d_%H%M%S` for file names and `%Y-%m-%d` for search queries.
 */
module CivilTime {
  import opened Text

  /** `timedelta(days=1)`, in seconds. */
  const DaySeconds := 86400

  /** The fields of a naive `datetime`. */
  datatype Civil = Civil(year: nat, month: nat, day: nat, hour: nat, minute: nat, second: nat)

  /** The ranges `datetime` admits, with four-digit years. */
  predicate Valid(c: Civil) {
    1000 <= c.year <= 9999 && 1 <= c.month <= 12 && 1 <= c.day <= 31 &&
    c.hour < 24 && c.minute < 60 && c.second < 60
  }

  function Pow10(w: nat): (p: nat)
    ensures p >= 1
  {
    if w == 0 then 1 else 10 * Pow10(w - 1)
  }

  /** `strftime('%Y%m%d_%H%M%S')`: the date digits, `_`, the clock digits. */
  function Stamp(c: Civil): string {
    DatePart(c) + "_" + ClockPart(c)
  }

  /** `%Y%m%d`. */
  function DatePart(c: Civil): string {
    ZeroPad(c.year, 4) + ZeroPad(c.month, 2) + ZeroPad(c.day, 2)
  }

  /** `%H%M%S`. */
  function ClockPart(c: Civil): string {
    ZeroPad(c.hour, 2) + ZeroPad(c.minute, 2) + ZeroPad(c.second, 2)
  }

  /** `strftime('%Y-%m-%d')`. */
  function DateStamp(c: Civil): string {
    ZeroPad(c.year, 4) + "-" + ZeroPad(c.month, 2) + "-" + ZeroPad(c.day, 2)
  }

  /** A number below `10^w` fills exactly `w` digits. */
  lemma {:induction false} ZeroPadWidth(n: nat, w: nat)
    requires w >= 1 && n < Pow10(w)
    ensures |ZeroPad(n, w)| == w
    decreases w
  {
    if w > 1 {
      ZeroPadWidth(n / 10, w - 1);
    }
  }

  /** Equal digit fields of the same width hold the same number. */
  lemma SameField(a: nat, b: nat, w: nat)
    requires ZeroPad(a, w) == ZeroPad(b, w)
    ensures a == b
  {
  }

  predicate AllDigits(s: string) {
    forall k :: 0 <= k < |s| ==> IsDigit(s[k])
  }

  /** Two sequences that agree and split at the same length agree piecewise. */
  lemma SplitEqual<T>(x1: seq<T>, y1: seq<T>, x2: seq<T>, y2: seq<T>)
    requires |x1| == |x2| && x1 + y1 == x2 + y2
    ensures x1 == x2 && y1 == y2
  {
    assert x1 == (x1 + y1)[..|x1|];
    assert x2 == (x2 + y2)[..|x2|];
    assert y1 == (x1 + y1)[|x1|..];
    assert y2 == (x2 + y2)[|x2|..];
  }

  /** The date digits are eight digits. */
  lemma DatePartLayout(c: Civil)
    requires Valid(c)
    ensures |DatePart(c)| == 8 && AllDigits(DatePart(c))
  {
    ZeroPadWidth(c.year, 4);
    ZeroPadWidth(c.month, 2);
    ZeroPadWidth(c.day, 2);
  }

  /** The clock digits are six digits. */
  lemma ClockPartLayout(c: Civil)
    requires Valid(c)
    ensures |ClockPart(c)| == 6 && AllDigits(ClockPart(c))
  {
    ZeroPadWidth(c.hour, 2);
    ZeroPadWidth(c.minute, 2);
    ZeroPadWidth(c.second, 2);
  }

  /** The fixed layout of a stamp: fifteen characters, with `_` at index 8 and digits elsewhere. */
  lemma StampLayout(c: Civil)
    requires Valid(c)
    ensures |Stamp(c)| == 15 && Stamp(c)[8] == '_'
    ensures forall k :: 0 <= k < 15 && k != 8 ==> IsDigit(Stamp(c)[k])
  {
    DatePartLayout(c);
    ClockPartLayout(c);
    var s, d, t := Stamp(c), DatePart(c), ClockPart(c);
    forall k | 0 <= k < 15 && k != 8
      ensures IsDigit(s[k])
    {
      if k < 8 {
        assert s[k] == d[k];
      } else {
        assert s[k] == t[k - 9];
      }
    }
  }

  /** Equal date digits come from the same date. */
  lemma DatePartInjective(a: Civil, b: Civil)
    requires Valid(a) && Valid(b) && DatePart(a) == DatePart(b)
    ensures a.year == b.year && a.month == b.month && a.day == b.day
  {
    ZeroPadWidth(a.year, 4); ZeroPadWidth(b.year, 4);
    ZeroPadWidth(a.month, 2); ZeroPadWidth(b.month, 2);
    ZeroPadWidth(a.day, 2); ZeroPadWidth(b.day, 2);
    SplitEqual(ZeroPad(a.year, 4) + ZeroPad(a.month, 2), ZeroPad(a.day, 2),
               ZeroPad(b.year, 4) + ZeroPad(b.month, 2), ZeroPad(b.day, 2));
    SplitEqual(ZeroPad(a.year, 4), ZeroPad(a.month, 2), ZeroPad(b.year, 4), ZeroPad(b.month, 2));
    SameField(a.year, b.year, 4);
    SameField(a.month, b.month, 2);
    SameField(a.day, b.day, 2);
  }

  /** Equal clock digits come from the same time of day. */
  lemma ClockPartInjective(a: Civil, b: Civil)
    requires Valid(a) && Valid(b) && ClockPart(a) == ClockPart(b)
    ensures a.hour == b.hour && a.minute == b.minute && a.second == b.second
  {
    ZeroPadWidth(a.hour, 2); ZeroPadWidth(b.hour, 2);
    ZeroPadWidth(a.minute, 2); ZeroPadWidth(b.minute, 2);
    ZeroPadWidth(a.second, 2); ZeroPadWidth(b.second, 2);
    SplitEqual(ZeroPad(a.hour, 2) + ZeroPad(a.minute, 2), ZeroPad(a.second, 2),
               ZeroPad(b.hour, 2) + ZeroPad(b.minute, 2), ZeroPad(b.second, 2));
    SplitEqual(ZeroPad(a.hour, 2), ZeroPad(a.minute, 2), ZeroPad(b.hour, 2), ZeroPad(b.minute, 2));
    SameField(a.hour, b.hour, 2);
    SameField(a.minute, b.minute, 2);
    SameField(a.second, b.second, 2);
  }

  /** Distinct clock readings give distinct stamps, so two snapshots taken in different seconds never share a file name. */
  lemma StampInjective(a: Civil, b: Civil)
    requires Valid(a) && Valid(b) && Stamp(a) == Stamp(b)
    ensures a == b
  {
    DatePartLayout(a);
    DatePartLayout(b);
    SplitEqual(DatePart(a) + "_", ClockPart(a), DatePart(b) + "_", ClockPart(b));
    SplitEqual(DatePart(a), "_", DatePart(b), "_");
    DatePartInjective(a, b);
    ClockPartInjective(a, b);
  }

  /** A date stamp is ten characters, `YYYY-MM-DD`. */
  lemma DateStampLayout(c: Civil)
    requires Valid(c)
    ensures |DateStamp(c)| == 10 && DateStamp(c)[4] == '-' && DateStamp(c)[7] == '-'
  {
    ZeroPadWidth(c.year, 4);
    ZeroPadWidth(c.month, 2);
    ZeroPadWidth(c.day, 2);
  }

  /** Equal `%Y-%m-%d` stamps come from the same date. */
  lemma DateStampInjective(a: Civil, b: Civil)
    requires Valid(a) && Valid(b) && DateStamp(a) == DateStamp(b)
    ensures a.year == b.year && a.month == b.month && a.day == b.day
  {
    ZeroPadWidth(a.year, 4); ZeroPadWidth(b.year, 4);
    ZeroPadWidth(a.month, 2); ZeroPadWidth(b.month, 2);
    SplitEqual(ZeroPad(a.year, 4) + "-" + ZeroPad(a.month, 2) + "-", ZeroPad(a.day, 2),
               ZeroPad(b.year, 4) + "-" + ZeroPad(b.month, 2) + "-", ZeroPad(b.day, 2));
    SplitEqual(ZeroPad(a.year, 4) + "-" + ZeroPad(a.month, 2), "-", ZeroPad(b.year, 4) + "-" + ZeroPad(b.month, 2), "-");
    SplitEqual(ZeroPad(a.year, 4) + "-", ZeroPad(a.month, 2), ZeroPad(b.year, 4) + "-", ZeroPad(b.month, 2));
    SplitEqual(ZeroPad(a.year, 4), "-", ZeroPad(b.year, 4), "-");
    SameField(a.year, b.year, 4);
    SameField(a.month, b.month, 2);
    SameField(a.day, b.day, 2);
  }
}
