/** Work keys: the portfolio maps are keyed by timestamps in Go's layout "2006-01-02-15-04"
    (year, month, day, hour, minute). This module models time.Parse for that layout as ui.go
    and stats.go use it: a four-digit year, a two-digit month, day and minute, a one- or
    two-digit hour, then range checks (the day against the month's length). */
module TimeKeys {
  import opened Wrappers

  datatype Stamp = Stamp(year: int, month: int, day: int, hour: int, minute: int)

  /** Go's zero time, which time.Parse returns on failure: 0001-01-01 00:00. */
  const ZeroStamp := Stamp(1, 1, 1, 0, 0)

  predicate IsDigit(c: char) { '0' <= c <= '9' }

  function DigitValue(c: char): int requires IsDigit(c) { c as int - '0' as int }

  function TwoDigits(a: char, b: char): int requires IsDigit(a) && IsDigit(b) {
    10 * DigitValue(a) + DigitValue(b)
  }

  predicate IsLeap(year: int) {
    year % 4 == 0 && (year % 100 != 0 || year % 400 == 0)
  }

  function DaysIn(month: int, year: int): int
    requires 1 <= month <= 12
  {
    if month == 2 then (if IsLeap(year) then 29 else 28)
    else if month == 4 || month == 6 || month == 9 || month == 11 then 30
    else 31
  }

  predicate InRange(s: Stamp) {
    1 <= s.month <= 12 && 1 <= s.day <= DaysIn(s.month, s.year) &&
    0 <= s.hour < 24 && 0 <= s.minute < 60
  }

  /** The fields of a key, before range checks; the hour takes one digit when the second
      character is not a digit. */
  function Fields(k: string): Option<Stamp> {
    if |k| < 15 || !(IsDigit(k[0]) && IsDigit(k[1]) && IsDigit(k[2]) && IsDigit(k[3]))
       || k[4] != '-' || !(IsDigit(k[5]) && IsDigit(k[6])) || k[7] != '-'
       || !(IsDigit(k[8]) && IsDigit(k[9])) || k[10] != '-' || !IsDigit(k[11]) then None
    else
      var year := 100 * TwoDigits(k[0], k[1]) + TwoDigits(k[2], k[3]);
      var month := TwoDigits(k[5], k[6]);
      var day := TwoDigits(k[8], k[9]);
      var hourLen := if IsDigit(k[12]) then 2 else 1;
      var hour := if hourLen == 2 then TwoDigits(k[11], k[12]) else DigitValue(k[11]);
      var m := 12 + hourLen;
      if |k| != m + 2 || k[m - 1] != '-' || !(IsDigit(k[m]) && IsDigit(k[m + 1])) then None
      else Some(Stamp(year, month, day, hour, TwoDigits(k[m], k[m + 1])))
  }

  /** time.Parse("2006-01-02-15-04", k). */
  function ParseKey(k: string): (r: Option<Stamp>)
    ensures r.Some? ==> InRange(r.value) && 0 <= r.value.year <= 9999
    ensures r.Some? ==> |k| == 15 || |k| == 16
  {
    var f := Fields(k);
    if f.Some? && InRange(f.value) then f else None
  }

  /** The instant a key stands for when compared: unparseable keys are the zero time. */
  function KeyStamp(k: string): Stamp {
    var p := ParseKey(k);
    if p.Some? then p.value else ZeroStamp
  }

  /** Minutes in a mixed radix whose order is the order of instants (time.After). */
  function Rank(s: Stamp): int {
    (((s.year * 13 + s.month) * 32 + s.day) * 24 + s.hour) * 60 + s.minute
  }

  /** Chronological order of two stamps, field by field. */
  predicate Before(a: Stamp, b: Stamp) {
    a.year < b.year ||
    (a.year == b.year && (a.month < b.month ||
    (a.month == b.month && (a.day < b.day ||
    (a.day == b.day && (a.hour < b.hour ||
    (a.hour == b.hour && a.minute < b.minute)))))))
  }

  /** Rank orders in-range stamps chronologically, so comparing ranks is time.After. */
  lemma RankIsChronological(a: Stamp, b: Stamp)
    requires InRange(a) && InRange(b)
    ensures Rank(a) < Rank(b) <==> Before(a, b)
  {
    var a1, b1 := a.year * 13 + a.month, b.year * 13 + b.month;
    var a2, b2 := a1 * 32 + a.day, b1 * 32 + b.day;
    var a3, b3 := a2 * 24 + a.hour, b2 * 24 + b.hour;
    Digit(a.year, b.year, a.month, b.month, 13);
    Digit(a1, b1, a.day, b.day, 32);
    Digit(a2, b2, a.hour, b.hour, 24);
    Digit(a3, b3, a.minute, b.minute, 60);
  }

  /** One digit of a positional system with base `m`: the higher part decides, and the digit
      breaks a tie. */
  lemma Digit(x: int, y: int, u: int, v: int, m: int)
    requires 0 <= u < m && 0 <= v < m
    ensures x * m + u < y * m + v <==> x < y || (x == y && u < v)
    ensures x * m + u == y * m + v <==> x == y && u == v
  {
    if x != y {
      MixedRadix(x, y, u, v, m);
      MixedRadix(y, x, v, u, m);
    }
  }

  /** The leading digit decides a comparison in a positional system with base `m`. */
  lemma MixedRadix(x: int, y: int, u: int, v: int, m: int)
    requires x != y && 0 <= u < m && 0 <= v < m
    ensures x * m + u < y * m + v <==> x < y
  {
    if x < y {
      MulAtLeast(y - x, m);
      assert (y - x) * m == y * m - x * m;
    } else {
      MulAtLeast(x - y, m);
      assert (x - y) * m == x * m - y * m;
    }
  }

  lemma {:induction false} MulAtLeast(d: int, m: int)
    requires d >= 1 && m >= 0
    ensures d * m >= m
    decreases d
  {
    if d > 1 {
      MulAtLeast(d - 1, m);
      assert d * m == (d - 1) * m + m;
    }
  }

  /** The key's "2006-01-02" rendering (time.Format of the parsed key): its first ten
      characters, or None when the key does not parse. */
  function DatePart(k: string): (r: Option<string>)
    ensures r.Some? <==> ParseKey(k).Some?
    ensures r.Some? ==> |r.value| == 10 && r.value == k[..10]
  {
    if ParseKey(k).Some? then Some(k[..10]) else None
  }

  /** A well-formed key written the way the bot writes it. */
  lemma SampleKey()
    ensures ParseKey("2024-02-29-09-05") == Some(Stamp(2024, 2, 29, 9, 5))
  {
  }

  /** 29 February outside a leap year is out of range. */
  lemma SampleKeyNotLeap()
    ensures ParseKey("2023-02-29-09-05") == None
  {
  }

  /** The hour may take a single digit. */
  lemma SampleKeyShortHour()
    ensures ParseKey("2024-01-02-7-05") == Some(Stamp(2024, 1, 2, 7, 5))
  {
  }

  /** Text that is no timestamp has no date. */
  lemma SampleKeyGarbage()
    ensures DatePart("not-a-date") == None
  {
  }
}
