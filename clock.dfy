/**
 * The record's timestamp. The exporter reads the clock with gettimeofday,
 * breaks the seconds down with gmtime, formats them with strftime's
 * "%Y-%m-%dT%H:%M:%S", and appends "." followed by tv_usec printed with
 * "%06ld", then "Z". The clock and gmtime are not modelled: their results
 * (the broken-down UTC fields and the microseconds, in the ranges those
 * calls guarantee) are inputs.
 */
module Clock {
  import opened Numerals

  type Month = x: nat | 1 <= x <= 12 witness 1
  type Day = x: nat | 1 <= x <= 31 witness 1
  type Hour = x: nat | x < 24
  type Minute = x: nat | x < 60
  /** Up to 60, for a leap second. */
  type Second = x: nat | x <= 60
  type Microseconds = x: nat | x < 1_000_000

  /** The broken-down UTC time gmtime yields, with the year and month as
      strftime prints them (tm_year + 1900, tm_mon + 1). */
  datatype CalendarTime = CalendarTime(year: nat, month: Month, day: Day, hour: Hour, minute: Minute, second: Second)

  /** One reading of the clock: the UTC calendar time of tv_sec and tv_usec. */
  datatype TimeOfDay = TimeOfDay(utc: CalendarTime, usec: Microseconds)

  /** strftime(..., "%Y-%m-%dT%H:%M:%S", tm): `%Y` is the year unpadded,
      every other field is two digits, zero-padded. */
  function IsoSeconds(t: CalendarTime): string {
    IsoDate(t) + "T" + IsoTime(t)
  }

  /** The "%Y-%m-%d" part. */
  function IsoDate(t: CalendarTime): string {
    Decimal(t.year) + "-" + DecimalWidth(t.month, 2) + "-" + DecimalWidth(t.day, 2)
  }

  /** The "%H:%M:%S" part. */
  function IsoTime(t: CalendarTime): string {
    DecimalWidth(t.hour, 2) + ":" + DecimalWidth(t.minute, 2) + ":" + DecimalWidth(t.second, 2)
  }

  /** The value of the "timestamp" key: "%s.%06ldZ" of the strftime text and tv_usec. */
  function Timestamp(now: TimeOfDay): string {
    IsoSeconds(now.utc) + "." + DecimalWidth(now.usec, 6) + "Z"
  }

  /** A two-digit strftime field is exactly two decimal digits and reads back as the field. */
  lemma TwoDigits(n: nat)
    requires n < 100
    ensures |DecimalWidth(n, 2)| == 2 && AllDigitsOf(DecimalWidth(n, 2), 10)
    ensures ValueOf(DecimalWidth(n, 2), 10) == n
  {
    assert Pow(10, 2) == 100;
    PaddedNumeral(n, 10, 2);
  }

  /** A four-digit year prints as exactly four digits. */
  lemma FourDigitYear(y: nat)
    requires 1000 <= y <= 9999
    ensures |Decimal(y)| == 4 && ValueOf(Decimal(y), 10) == y
  {
    assert Pow(10, 4) == 10000;
    NumeralLength(y, 10, 4);
    assert Pow(10, 3) == 1000;
    NumeralLongEnough(y, 10, 3);
    NumeralValue(y, 10);
  }

  /** tv_usec, which gettimeofday keeps below one million, prints as exactly six digits. */
  lemma SixDigitMicroseconds(u: Microseconds)
    ensures |DecimalWidth(u, 6)| == 6 && AllDigitsOf(DecimalWidth(u, 6), 10)
    ensures ValueOf(DecimalWidth(u, 6), 10) == u
  {
    assert Pow(10, 6) == 1_000_000;
    PaddedNumeral(u, 10, 6);
  }

  /** Where the pieces of `a + [sep] + b + [sep] + c` stand, for two-character `b` and `c`. */
  lemma Join3(a: string, b: string, c: string, sep: char)
    requires |b| == 2 && |c| == 2
    ensures var s := a + [sep] + b + [sep] + c;
      && |s| == |a| + 6 && s[|a|] == sep && s[|a| + 3] == sep
      && s[0..|a|] == a && s[|a| + 1..|a| + 3] == b && s[|a| + 4..|a| + 6] == c
  {
    var s := a + [sep] + b + [sep] + c;
    assert s[0..|a|] == a;
    assert s[|a| + 1..|a| + 3] == b;
    assert s[|a| + 4..|a| + 6] == c;
  }

  /** "%Y-%m-%d" of a four-digit year. */
  lemma DateLayout(t: CalendarTime)
    requires 1000 <= t.year <= 9999
    ensures var s := IsoDate(t);
      && |s| == 10 && s[4] == '-' && s[7] == '-'
      && ValueOf(s[0..4], 10) == t.year
      && ValueOf(s[5..7], 10) == t.month
      && ValueOf(s[8..10], 10) == t.day
  {
    FourDigitYear(t.year);
    TwoDigits(t.month);
    TwoDigits(t.day);
    Join3(Decimal(t.year), DecimalWidth(t.month, 2), DecimalWidth(t.day, 2), '-');
  }

  /** "%H:%M:%S". */
  lemma TimeLayout(t: CalendarTime)
    ensures var s := IsoTime(t);
      && |s| == 8 && s[2] == ':' && s[5] == ':'
      && ValueOf(s[0..2], 10) == t.hour
      && ValueOf(s[3..5], 10) == t.minute
      && ValueOf(s[6..8], 10) == t.second
  {
    TwoDigits(t.hour);
    TwoDigits(t.minute);
    TwoDigits(t.second);
    Join3(DecimalWidth(t.hour, 2), DecimalWidth(t.minute, 2), DecimalWidth(t.second, 2), ':');
  }

  /** Where the pieces of `d + "T" + t + "." + f + "Z"` stand. */
  lemma JoinStamp(d: string, t: string, f: string)
    requires |d| == 10 && |t| == 8 && |f| == 6
    ensures var s := d + "T" + t + "." + f + "Z";
      && |s| == 27 && s[10] == 'T' && s[19] == '.' && s[26] == 'Z'
      && s[0..10] == d && s[11..19] == t && s[20..26] == f
  {
    var s := d + "T" + t + "." + f + "Z";
    assert s[0..10] == d;
    assert s[11..19] == t;
    assert s[20..26] == f;
  }

  /** Digit groups taken from a part of a string are the same groups of the whole. */
  lemma SliceOfSlice(s: string, i: nat, j: nat, k: nat, l: nat)
    requires i <= j <= |s| && k <= l <= j - i
    ensures s[i..j][k..l] == s[i + k..i + l]
  {
    assert |s[i..j][k..l]| == l - k;
    forall m | 0 <= m < l - k ensures s[i..j][k..l][m] == s[i + k..i + l][m] {
      assert s[i..j][k..l][m] == s[i..j][k + m];
    }
  }

  /** A group of the part of `s` between `i` and `j` is a group of `s`. */
  lemma GroupAt(s: string, i: nat, j: nat, part: string, k: nat, l: nat)
    requires i <= j <= |s| && s[i..j] == part && k <= l <= j - i
    ensures s[i + k..i + l] == part[k..l]
  {
    SliceOfSlice(s, i, j, k, l);
  }

  /** A character of the part of `s` between `i` and `j` is a character of `s`. */
  lemma CharAt(s: string, i: nat, j: nat, part: string, k: nat)
    requires i <= j <= |s| && s[i..j] == part && k < j - i
    ensures s[i + k] == part[k]
  {
    assert s[i..j][k] == s[i + k];
  }

  /** Where the date, the time and the microseconds stand in the timestamp. */
  lemma TimestampParts(now: TimeOfDay)
    requires 1000 <= now.utc.year <= 9999
    ensures var s := Timestamp(now);
      && |s| == 27 && s[10] == 'T' && s[19] == '.' && s[26] == 'Z'
      && s[0..10] == IsoDate(now.utc) && s[11..19] == IsoTime(now.utc)
      && s[20..26] == DecimalWidth(now.usec, 6)
  {
    DateLayout(now.utc);
    TimeLayout(now.utc);
    SixDigitMicroseconds(now.usec);
    JoinStamp(IsoDate(now.utc), IsoTime(now.utc), DecimalWidth(now.usec, 6));
  }

  /** The fields of `YYYY-MM-DD` or `HH:MM:SS` where that text stands in a longer string. */
  lemma FieldsWithin(s: string, at: nat, part: string, sep: char, x: nat, y: nat, z: nat, w: nat)
    requires at + 6 + w <= |s| && s[at..at + 6 + w] == part && |part| == 6 + w
    requires part[w] == sep && part[w + 3] == sep
    requires ValueOf(part[0..w], 10) == x && ValueOf(part[w + 1..w + 3], 10) == y
    requires ValueOf(part[w + 4..w + 6], 10) == z
    ensures s[at + w] == sep && s[at + w + 3] == sep
    ensures ValueOf(s[at..at + w], 10) == x && ValueOf(s[at + w + 1..at + w + 3], 10) == y
    ensures ValueOf(s[at + w + 4..at + w + 6], 10) == z
  {
    CharAt(s, at, at + 6 + w, part, w);
    CharAt(s, at, at + 6 + w, part, w + 3);
    GroupAt(s, at, at + 6 + w, part, 0, w);
    GroupAt(s, at, at + 6 + w, part, w + 1, w + 3);
    GroupAt(s, at, at + 6 + w, part, w + 4, w + 6);
  }

  /** The fields of `YYYY-MM-DD` where that text opens a longer string. */
  lemma DateWithin(s: string, part: string, x: nat, y: nat, z: nat)
    requires 10 <= |s| && s[0..10] == part
    requires part[4] == '-' && part[7] == '-'
    requires ValueOf(part[0..4], 10) == x && ValueOf(part[5..7], 10) == y
    requires ValueOf(part[8..10], 10) == z
    ensures s[4] == '-' && s[7] == '-'
    ensures ValueOf(s[0..4], 10) == x && ValueOf(s[5..7], 10) == y && ValueOf(s[8..10], 10) == z
  {
    assert s[4] == part[4] && s[7] == part[7];
    assert s[0..4] == part[0..4];
    assert s[5..7] == part[5..7];
    assert s[8..10] == part[8..10];
  }

  lemma TimestampDate(now: TimeOfDay)
    requires 1000 <= now.utc.year <= 9999
    ensures var s := Timestamp(now);
      && |s| == 27 && s[4] == '-' && s[7] == '-'
      && ValueOf(s[0..4], 10) == now.utc.year
      && ValueOf(s[5..7], 10) == now.utc.month
      && ValueOf(s[8..10], 10) == now.utc.day
  {
    TimestampParts(now);
    DateLayout(now.utc);
    DateWithin(Timestamp(now), IsoDate(now.utc), now.utc.year, now.utc.month, now.utc.day);
  }

  lemma TimestampTime(now: TimeOfDay)
    requires 1000 <= now.utc.year <= 9999
    ensures var s := Timestamp(now);
      && |s| == 27 && s[13] == ':' && s[16] == ':'
      && ValueOf(s[11..13], 10) == now.utc.hour
      && ValueOf(s[14..16], 10) == now.utc.minute
      && ValueOf(s[17..19], 10) == now.utc.second
  {
    TimestampParts(now);
    TimeLayout(now.utc);
    FieldsWithin(Timestamp(now), 11, IsoTime(now.utc), ':', now.utc.hour, now.utc.minute, now.utc.second, 2);
  }

  /**
   * For a four-digit year the timestamp is `YYYY-MM-DDTHH:MM:SS.ffffffZ`
   * with fixed positions: its separators stand where the format puts them
   * and each digit group reads back as the field it was printed from.
   */
  lemma TimestampLayout(now: TimeOfDay)
    requires 1000 <= now.utc.year <= 9999
    ensures var s := Timestamp(now);
      && |s| == 27
      && s[4] == '-' && s[7] == '-' && s[10] == 'T' && s[13] == ':' && s[16] == ':'
      && s[19] == '.' && s[26] == 'Z'
      && ValueOf(s[0..4], 10) == now.utc.year
      && ValueOf(s[5..7], 10) == now.utc.month
      && ValueOf(s[8..10], 10) == now.utc.day
      && ValueOf(s[11..13], 10) == now.utc.hour
      && ValueOf(s[14..16], 10) == now.utc.minute
      && ValueOf(s[17..19], 10) == now.utc.second
      && AllDigitsOf(s[20..26], 10) && ValueOf(s[20..26], 10) == now.usec
  {
    TimestampParts(now);
    TimestampDate(now);
    TimestampTime(now);
    SixDigitMicroseconds(now.usec);
  }

  /** The characters a timestamp is made of. */
  predicate IsStampChar(c: char) {
    IsDecimalDigit(c) || c == '-' || c == 'T' || c == ':' || c == '.' || c == 'Z'
  }

  predicate StampChars(s: string) {
    forall i :: 0 <= i < |s| ==> IsStampChar(s[i])
  }

  lemma StampCharsJoin(a: string, b: string)
    requires StampChars(a) && StampChars(b)
    ensures StampChars(a + b)
  {
    forall i | 0 <= i < |a + b| ensures IsStampChar((a + b)[i]) {
      if i >= |a| {
        assert (a + b)[i] == b[i - |a|];
      }
    }
  }

  lemma DecimalStampChars(s: string)
    requires AllDigitsOf(s, 10)
    ensures StampChars(s)
  {
    forall i | 0 <= i < |s| ensures IsStampChar(s[i]) {
      assert IsDigitOf(s[i], 10);
    }
  }

  lemma ZeroPaddedStampChars(n: nat, width: nat)
    ensures StampChars(DecimalWidth(n, width))
  {
    var d := Decimal(n);
    var r := DecimalWidth(n, width);
    DecimalStampChars(d);
    forall i | 0 <= i < |r| ensures IsStampChar(r[i]) {
      if i >= |r| - |d| {
        assert r[i] == r[|r| - |d|..][i - (|r| - |d|)];
      }
    }
  }

  lemma Join3Chars(a: string, b: string, c: string, sep: string)
    requires StampChars(a) && StampChars(b) && StampChars(c) && StampChars(sep)
    ensures StampChars(a + sep + b + sep + c)
  {
    StampCharsJoin(a, sep);
    StampCharsJoin(a + sep, b);
    StampCharsJoin(a + sep + b, sep);
    StampCharsJoin(a + sep + b + sep, c);
  }

  lemma SeparatorChars()
    ensures StampChars("-") && StampChars("T") && StampChars(":") && StampChars(".") && StampChars("Z")
  {
  }

  lemma DateChars(t: CalendarTime)
    ensures StampChars(IsoDate(t))
  {
    DecimalStampChars(Decimal(t.year));
    ZeroPaddedStampChars(t.month, 2);
    ZeroPaddedStampChars(t.day, 2);
    SeparatorChars();
    Join3Chars(Decimal(t.year), DecimalWidth(t.month, 2), DecimalWidth(t.day, 2), "-");
  }

  lemma TimeChars(t: CalendarTime)
    ensures StampChars(IsoTime(t))
  {
    ZeroPaddedStampChars(t.hour, 2);
    ZeroPaddedStampChars(t.minute, 2);
    ZeroPaddedStampChars(t.second, 2);
    SeparatorChars();
    Join3Chars(DecimalWidth(t.hour, 2), DecimalWidth(t.minute, 2), DecimalWidth(t.second, 2), ":");
  }

  /** Every timestamp, whatever the year, is made of digits and the separators `-T:.Z`. */
  lemma TimestampChars(now: TimeOfDay)
    ensures StampChars(Timestamp(now))
  {
    var t := now.utc;
    DateChars(t);
    TimeChars(t);
    ZeroPaddedStampChars(now.usec, 6);
    SeparatorChars();
    var date, time, frac := IsoDate(t), IsoTime(t), DecimalWidth(now.usec, 6);
    StampCharsJoin(date, "T");
    StampCharsJoin(date + "T", time);
    StampCharsJoin(date + "T" + time, ".");
    StampCharsJoin(date + "T" + time + ".", frac);
    StampCharsJoin(date + "T" + time + "." + frac, "Z");
  }
}
