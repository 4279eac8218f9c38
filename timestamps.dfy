/**
 * Timestamps as the metrics page reads them through `new Date(iso)`: the local
 * calendar fields and the epoch value in milliseconds.  This module holds the
 * helpers of Mvpmetrics.js that only look at one or two timestamps:
 * the month key and label (createMonthYear, getMonthDate), the signed
 * difference in seconds (timeDifSeconds) and the per-run label (eachRunTime).
 */
module Timestamps {
  import opened Options

  type Month = m: int | 1 <= m <= 12 witness 1
  type Day = d: int | 1 <= d <= 31 witness 1
  type Hour = h: int | 0 <= h < 24
  type Minute = m: int | 0 <= m < 60

  /** A parsed ISO timestamp: local calendar fields plus `getTime()`, in milliseconds. */
  datatype Timestamp = Timestamp(year: nat, month: Month, day: Day, hour: Hour, minute: Minute, epochMs: int)

  /** The long month names of the default (English) locale, January first. */
  const MonthNames: seq<string> :=
    ["January", "February", "March", "April", "May", "June",
     "July", "August", "September", "October", "November", "December"]

  function MonthName(m: Month): string
  {
    MonthNames[m - 1]
  }

  // ---------------------------------------------------------------------------
  // Characters and decimal numerals

  predicate IsDigit(c: char)
  {
    '0' <= c <= '9'
  }

  predicate AllDigits(s: string)
  {
    forall i :: 0 <= i < |s| ==> IsDigit(s[i])
  }

  /** A non-empty run of decimal digits. */
  predicate IsNumeral(s: string)
  {
    |s| > 0 && AllDigits(s)
  }

  function DigitChar(d: nat): char
    requires d < 10
  {
    ('0' as int + d) as char
  }

  function DigitValue(c: char): nat
    requires IsDigit(c)
  {
    c as int - '0' as int
  }

  /** `n.toString()`: the shortest decimal numeral of `n`. */
  function NatToString(n: nat): (s: string)
    ensures IsNumeral(s)
    ensures |s| == 1 <==> n < 10
    decreases n
  {
    if n < 10 then [DigitChar(n)] else NatToString(n / 10) + [DigitChar(n % 10)]
  }

  /** The value of a decimal numeral, read left to right. */
  function ParseNat(s: string): nat
    requires AllDigits(s)
  {
    if |s| == 0 then 0 else ParseNat(s[..|s| - 1]) * 10 + DigitValue(s[|s| - 1])
  }

  /** Reading back a printed number gives the number. */
  lemma {:induction false} ParseNatToString(n: nat)
    ensures ParseNat(NatToString(n)) == n
  {
    var s := NatToString(n);
    if n < 10 {
      assert s[..0] == [];
    } else {
      assert s[..|s| - 1] == NatToString(n / 10);
      ParseNatToString(n / 10);
    }
  }

  // ---------------------------------------------------------------------------
  // Month key and label

  function ToLowerChar(c: char): char
  {
    if 'A' <= c <= 'Z' then (c as int + 32) as char else c
  }

  /** `toLowerCase()` on the ASCII letters the month names are made of. */
  function ToLower(s: string): (r: string)
    ensures |r| == |s|
    ensures forall i :: 0 <= i < |s| ==> r[i] == ToLowerChar(s[i])
  {
    seq(|s|, i requires 0 <= i < |s| => ToLowerChar(s[i]))
  }

  /** `getFullYear().toString().substr(-2)`: the last two characters of the year's numeral. */
  function YearSuffix(year: nat): string
  {
    var digits := NatToString(year);
    if |digits| >= 2 then digits[|digits| - 2..] else digits
  }

  /**
   * getMonthDate: the bucket key, the lower-case month name followed by the
   * year's last two digits ("january24").  createMonthYear builds its `name`
   * from the same expression.
   */
  function GetMonthDate(t: Timestamp): string
  {
    ToLower(MonthName(t.month)) + YearSuffix(t.year)
  }

  /** The display label of a month bucket: "January '24". */
  function MonthLabel(t: Timestamp): string
  {
    MonthName(t.month) + " '" + YearSuffix(t.year)
  }

  /** The last character of a numeral is the last decimal digit of the number. */
  lemma LastDigit(n: nat)
    ensures NatToString(n)[|NatToString(n)| - 1] == DigitChar(n % 10)
  {
  }

  /** From year 10 on, the suffix is the tens digit followed by the units digit. */
  lemma YearSuffixOfLargeYear(y: nat)
    requires y >= 10
    ensures YearSuffix(y) == [DigitChar((y / 10) % 10), DigitChar(y % 10)]
  {
    LastDigit(y / 10);
  }

  lemma TwoLowDigits(y: nat)
    ensures y % 100 == 10 * ((y / 10) % 10) + y % 10
  {
    var q, r := y / 10, y % 10;
    var t, s := q / 10, q % 10;
    assert y == 10 * q + r;
    assert q == 10 * t + s;
    assert y == 100 * t + (10 * s + r) && 0 <= 10 * s + r < 100;
  }

  /**
   * Two years from 10 on get the same suffix exactly when they agree modulo
   * 100: "24" and "25" differ, but 1924 and 2024 share "24".
   */
  lemma YearSuffixIdentifiesYear(y1: nat, y2: nat)
    requires y1 >= 10 && y2 >= 10
    ensures YearSuffix(y1) == YearSuffix(y2) <==> y1 % 100 == y2 % 100
  {
    YearSuffixOfLargeYear(y1);
    YearSuffixOfLargeYear(y2);
    TwoLowDigits(y1);
    TwoLowDigits(y2);
    if YearSuffix(y1) == YearSuffix(y2) {
      assert DigitChar((y1 / 10) % 10) == DigitChar((y2 / 10) % 10);
      assert DigitChar(y1 % 10) == DigitChar(y2 % 10);
    }
  }

  predicate NoDigits(s: string)
  {
    forall i :: 0 <= i < |s| ==> !IsDigit(s[i])
  }

  lemma LowerMonthNameHasNoDigits(m: Month)
    ensures NoDigits(ToLower(MonthName(m)))
  {
    var name := MonthName(m);
    assert forall i :: 0 <= i < |name| ==> 'A' <= name[i] <= 'Z' || 'a' <= name[i] <= 'z';
  }

  function Signature(s: string): (int, char, char)
  {
    if |s| < 3 then (|s|, ' ', ' ') else (|s|, s[0], s[2])
  }

  /** The twelve lower-case month names are pairwise different. */
  lemma LowerMonthNamesDistinct(m1: Month, m2: Month)
    ensures ToLower(MonthName(m1)) == ToLower(MonthName(m2)) ==> m1 == m2
  {
    if m1 != m2 {
      assert Signature(ToLower(MonthName(m1))) != Signature(ToLower(MonthName(m2)));
    }
  }

  /** The position of the first digit of `s`, or `|s|` when there is none. */
  function FirstDigit(s: string): nat
  {
    if |s| == 0 || IsDigit(s[0]) then 0 else 1 + FirstDigit(s[1..])
  }

  lemma {:induction false} FirstDigitOfWordNumeral(a: string, x: string)
    requires NoDigits(a) && IsNumeral(x)
    ensures FirstDigit(a + x) == |a|
  {
    if |a| > 0 {
      assert (a + x)[1..] == a[1..] + x;
      FirstDigitOfWordNumeral(a[1..], x);
    }
  }

  /** A word without digits followed by a non-empty numeral splits in one way only. */
  lemma {:induction false} SplitWordNumeral(a: string, x: string, b: string, y: string)
    requires NoDigits(a) && NoDigits(b) && IsNumeral(x) && IsNumeral(y)
    requires a + x == b + y
    ensures a == b && x == y
  {
    FirstDigitOfWordNumeral(a, x);
    FirstDigitOfWordNumeral(b, y);
    assert a == (a + x)[..|a|] && b == (b + y)[..|b|];
    assert x == (a + x)[|a|..] && y == (b + y)[|b|..];
  }

  /**
   * The bucket key identifies the month: two timestamps get the same key
   * exactly when they fall in the same month and their years end in the same
   * two digits.
   */
  lemma MonthKeyIdentifiesMonth(t1: Timestamp, t2: Timestamp)
    ensures GetMonthDate(t1) == GetMonthDate(t2) <==>
              t1.month == t2.month && YearSuffix(t1.year) == YearSuffix(t2.year)
  {
    if GetMonthDate(t1) == GetMonthDate(t2) {
      LowerMonthNameHasNoDigits(t1.month);
      LowerMonthNameHasNoDigits(t2.month);
      SplitWordNumeral(ToLower(MonthName(t1.month)), YearSuffix(t1.year),
                       ToLower(MonthName(t2.month)), YearSuffix(t2.year));
      LowerMonthNamesDistinct(t1.month, t2.month);
    }
  }

  /** Runs whose keys agree also agree on the bucket label. */
  lemma SameKeySameLabel(t1: Timestamp, t2: Timestamp)
    requires GetMonthDate(t1) == GetMonthDate(t2)
    ensures MonthLabel(t1) == MonthLabel(t2)
  {
    MonthKeyIdentifiesMonth(t1, t2);
  }

  // ---------------------------------------------------------------------------
  // Durations

  /**
   * timeDifSeconds: `(end - start) / 1000` on the epoch milliseconds, signed
   * and never clamped.
   */
  function TimeDifSeconds(start: Timestamp, end: Timestamp): (r: real)
    ensures r < 0.0 <==> end.epochMs < start.epochMs
    ensures r == 0.0 <==> end.epochMs == start.epochMs
  {
    (end.epochMs - start.epochMs) as real / 1000.0
  }

  /** Swapping the two ends flips the sign; consecutive differences add up. */
  lemma TimeDifSecondsAlgebra(a: Timestamp, b: Timestamp, c: Timestamp)
    ensures TimeDifSeconds(b, a) == -TimeDifSeconds(a, b)
    ensures TimeDifSeconds(a, b) + TimeDifSeconds(b, c) == TimeDifSeconds(a, c)
  {
  }

  // ---------------------------------------------------------------------------
  // Per-run label "M/D HH:MM"

  /** `padStart(2, '0')` on a number's numeral. */
  function Pad2(n: nat): (s: string)
    ensures IsNumeral(s) && |s| >= 2
    ensures n < 100 ==> |s| == 2
  {
    var digits := NatToString(n);
    if |digits| < 2 then "0" + digits else digits
  }

  /** eachRunTime: month and day unpadded, hours and minutes on two digits. */
  function EachRunTime(t: Timestamp): string
  {
    NatToString(t.month) + "/" + NatToString(t.day) + " " + Pad2(t.hour) + ":" + Pad2(t.minute)
  }

  /** The index of the first `sep` in `s`. */
  function IndexOf(s: string, sep: char): (r: Option<nat>)
    ensures r.Some? ==> r.value < |s| && s[r.value] == sep && sep !in s[..r.value]
    ensures r.None? ==> sep !in s
  {
    if |s| == 0 then None
    else if s[0] == sep then Some(0)
    else match IndexOf(s[1..], sep)
      case None => None
      case Some(i) => assert s[..i + 1] == [s[0]] + s[1..][..i]; Some(i + 1)
  }

  /** The text before and after the first `sep`. */
  function SplitAt(s: string, sep: char): Option<(string, string)>
  {
    match IndexOf(s, sep)
    case None => None
    case Some(i) => Some((s[..i], s[i + 1..]))
  }

  lemma {:induction false} IndexOfJoin(a: string, sep: char, b: string)
    requires sep !in a
    ensures IndexOf(a + [sep] + b, sep) == Some(|a|)
  {
    if |a| > 0 {
      assert (a + [sep] + b)[1..] == a[1..] + [sep] + b;
      IndexOfJoin(a[1..], sep, b);
    }
  }

  lemma SplitAtJoin(a: string, sep: char, b: string)
    requires sep !in a
    ensures SplitAt(a + [sep] + b, sep) == Some((a, b))
  {
    var s := a + [sep] + b;
    IndexOfJoin(a, sep, b);
    assert s[..|a|] == a && s[|a| + 1..] == b;
  }

  /** Reads a "M/D HH:MM" label back into its four numbers. */
  function ParseRunLabel(s: string): Option<(nat, nat, nat, nat)>
  {
    match SplitAt(s, '/')
    case None => None
    case Some((m, rest)) =>
      match SplitAt(rest, ' ')
      case None => None
      case Some((d, time)) =>
        match SplitAt(time, ':')
        case None => None
        case Some((h, mi)) =>
          if IsNumeral(m) && IsNumeral(d) && IsNumeral(h) && IsNumeral(mi)
          then Some((ParseNat(m), ParseNat(d), ParseNat(h), ParseNat(mi)))
          else None
  }

  lemma Pad2Value(n: nat)
    ensures ParseNat(Pad2(n)) == n
  {
    var digits := NatToString(n);
    ParseNatToString(n);
    if |digits| < 2 {
      var s := "0" + digits;
      assert s[..|s| - 1] == "0";
      assert "0"[..0] == [];
    }
  }

  lemma NumeralHasNoSeparator(s: string, sep: char)
    requires AllDigits(s) && !IsDigit(sep)
    ensures sep !in s
  {
  }

  /** Every run label reads back as the run's month, day, hour and minute. */
  lemma EachRunTimeRoundTrip(t: Timestamp)
    ensures ParseRunLabel(EachRunTime(t)) == Some((t.month as nat, t.day as nat, t.hour as nat, t.minute as nat))
  {
    var m, d, h, mi := NatToString(t.month), NatToString(t.day), Pad2(t.hour), Pad2(t.minute);
    var time := h + [':'] + mi;
    var rest := d + [' '] + time;
    assert EachRunTime(t) == m + ['/'] + rest;
    NumeralHasNoSeparator(m, '/');
    NumeralHasNoSeparator(d, ' ');
    NumeralHasNoSeparator(h, ':');
    SplitAtJoin(m, '/', rest);
    SplitAtJoin(d, ' ', time);
    SplitAtJoin(h, ':', mi);
    ParseNatToString(t.month);
    ParseNatToString(t.day);
    Pad2Value(t.hour);
    Pad2Value(t.minute);
  }
}
