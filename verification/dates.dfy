/** Calendar dates as the date picker returns them, and the compact
    `YYYYMMDDHHMM` timestamps the upstream service expects
    (`strftime("%Y%m%d")` followed by a fixed time of day). */
module Dates {

  datatype Date = Date(year: int, month: int, day: int)

  predicate IsLeapYear(y: int) {
    y % 4 == 0 && (y % 100 != 0 || y % 400 == 0)
  }

  function DaysInMonth(y: int, m: int): int
    requires 1 <= m <= 12
  {
    if m == 2 then (if IsLeapYear(y) then 29 else 28)
    else if m == 4 || m == 6 || m == 9 || m == 11 then 30
    else 31
  }

  /** Every value of Python's `datetime.date`: a real Gregorian date in years 1 to 9999. */
  predicate Valid(d: Date) {
    && 1 <= d.year <= 9999
    && 1 <= d.month <= 12
    && 1 <= d.day <= DaysInMonth(d.year, d.month)
  }

  function Pow10(n: nat): nat {
    if n == 0 then 1 else 10 * Pow10(n - 1)
  }

  predicate IsDigit(c: char) {
    '0' <= c <= '9'
  }

  predicate AllDigits(s: string) {
    forall i :: 0 <= i < |s| ==> IsDigit(s[i])
  }

  function DigitChar(k: int): (c: char)
    requires 0 <= k < 10
    ensures IsDigit(c)
  {
    ('0' as int + k) as char
  }

  function DigitValue(c: char): int
    requires IsDigit(c)
  {
    c as int - '0' as int
  }

  /** `n` written in decimal with leading zeros to exactly `width` digits. */
  function Pad(n: nat, width: nat): (s: string)
    requires n < Pow10(width)
    ensures |s| == width
    ensures AllDigits(s)
    decreases width
  {
    if width == 0 then ""
    else Pad(n / 10, width - 1) + [DigitChar(n % 10)]
  }

  /** The number a string of decimal digits denotes. */
  function ValueOf(s: string): nat
    requires AllDigits(s)
    decreases |s|
  {
    if s == [] then 0
    else 10 * ValueOf(s[..|s| - 1]) + DigitValue(s[|s| - 1])
  }

  /** Reading back a padded number gives the number. */
  lemma {:induction false} ValueOfPad(n: nat, width: nat)
    requires n < Pow10(width)
    ensures ValueOf(Pad(n, width)) == n
    decreases width
  {
    if width > 0 {
      var s := Pad(n, width);
      assert s[..|s| - 1] == Pad(n / 10, width - 1);
      ValueOfPad(n / 10, width - 1);
    }
  }

  /** `YYYYMMDD` read back as a date. */
  function FromCompact(s: string): Date
    requires |s| == 8 && AllDigits(s)
  {
    Date(ValueOf(s[..4]), ValueOf(s[4..6]), ValueOf(s[6..8]))
  }

  /** `d.strftime("%Y%m%d")`: eight digits that read back as `d`. */
  function Compact(d: Date): (s: string)
    requires Valid(d)
    ensures |s| == 8 && AllDigits(s)
    ensures FromCompact(s) == d
  {
    var y, m, dd := Pad(d.year, 4), Pad(d.month, 2), Pad(d.day, 2);
    var s := y + m + dd;
    assert s[..4] == y && s[4..6] == m && s[6..8] == dd;
    ValueOfPad(d.year, 4);
    ValueOfPad(d.month, 2);
    ValueOfPad(d.day, 2);
    s
  }

  /** `d.strftime("%Y%m%d")` followed by a four-digit time of day: a
      12-digit `YYYYMMDDHHMM` stamp on date `d` at time `hhmm`. */
  function Stamp(d: Date, hhmm: string): (s: string)
    requires Valid(d)
    requires |hhmm| == 4
    ensures |s| == 12 && AllDigits(s[..8])
    ensures FromCompact(s[..8]) == d
    ensures s[8..] == hhmm
  {
    var c := Compact(d);
    assert (c + hhmm)[..8] == c;
    c + hhmm
  }
}
