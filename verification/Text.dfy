/** JSON strings, integers and RFC 3339 timestamps as encoding/json writes and reads them. */
module Text {
  import opened Model

  /** A successful read: the value and what follows it. */
  datatype Scan<T> = Fail | Got(value: T, rest: string)

  // ---------- Strings (section 7 of RFC 8259) ----------

  function HexDigit(n: int): char
    requires 0 <= n < 16
  {
    if n < 10 then '0' + n as char else 'a' + (n - 10) as char
  }

  function HexValue(c: char): (v: Option<int>)
    ensures v.Some? ==> 0 <= v.value < 16
  {
    if '0' <= c <= '9' then Some((c - '0') as int)
    else if 'a' <= c <= 'f' then Some((c - 'a') as int + 10)
    else if 'A' <= c <= 'F' then Some((c - 'A') as int + 10)
    else None
  }

  function Hex4(n: int): string
    requires 0 <= n < 0x1_0000
  {
    [HexDigit(n / 0x1000), HexDigit(n / 0x100 % 0x10), HexDigit(n / 0x10 % 0x10), HexDigit(n % 0x10)]
  }

  function ReadHex4(t: string): (v: Option<int>)
    ensures v.Some? ==> 0 <= v.value < 0x1_0000
  {
    if |t| < 4 then None else
      var a, b, c, d := HexValue(t[0]), HexValue(t[1]), HexValue(t[2]), HexValue(t[3]);
      if a.None? || b.None? || c.None? || d.None? then None
      else Some(a.value * 0x1000 + b.value * 0x100 + c.value * 0x10 + d.value)
  }

  const BACKSPACE: char := '\U{8}'
  const FORM_FEED: char := '\U{C}'
  const LINE_SEPARATOR: char := '\U{2028}'
  const PARAGRAPH_SEPARATOR: char := '\U{2029}'
  const REPLACEMENT: char := '\U{FFFD}'

  /** Characters that are written as \u escapes: controls, HTML specials and two separators. */
  predicate NeedsHex(c: char) {
    c < ' ' || c == '<' || c == '>' || c == '&' || c == LINE_SEPARATOR || c == PARAGRAPH_SEPARATOR
  }

  function EscapeChar(c: char): string {
    if c == '"' then "\\\""
    else if c == '\\' then "\\\\"
    else if c == '\n' then "\\n"
    else if c == '\r' then "\\r"
    else if c == '\t' then "\\t"
    else if c == BACKSPACE then "\\b"
    else if c == FORM_FEED then "\\f"
    else if NeedsHex(c) then "\\u" + Hex4(c as int)
    else [c]
  }

  function Escape(s: string): string {
    if s == "" then "" else EscapeChar(s[0]) + Escape(s[1..])
  }

  function Quote(s: string): string {
    "\"" + Escape(s) + "\""
  }

  predicate Surrogate(v: int) { 0xD800 <= v < 0xE000 }

  /** The character of a \u escape that starts at t[0], and how much text it takes. */
  function ReadUnicode(t: string): (r: Option<(char, nat)>)
    ensures r.Some? ==> 6 <= r.value.1 <= |t|
  {
    if |t| < 6 || t[0] != '\\' || t[1] != 'u' then None else
      var v := ReadHex4(t[2..]);
      if v.None? then None
      else if !Surrogate(v.value) then Some((v.value as char, 6))
      else
        var w := if |t| >= 12 && t[6] == '\\' && t[7] == 'u' then ReadHex4(t[8..]) else None;
        if w.Some? && v.value < 0xDC00 <= w.value < 0xE000
        then Some((((v.value - 0xD800) * 0x400 + (w.value - 0xDC00) + 0x1_0000) as char, 12))
        else Some((REPLACEMENT, 6))
  }

  function ShortEscape(c: char): Option<char> {
    if c == '"' || c == '\\' || c == '/' then Some(c)
    else if c == 'n' then Some('\n')
    else if c == 'r' then Some('\r')
    else if c == 't' then Some('\t')
    else if c == 'b' then Some(BACKSPACE)
    else if c == 'f' then Some(FORM_FEED)
    else None
  }

  function Prepend(c: char, r: Scan<string>): Scan<string> {
    if r.Fail? then Fail else Got([c] + r.value, r.rest)
  }

  /** The rest of a string literal, after the opening quote. */
  function Unescape(t: string): (r: Scan<string>)
    ensures r.Got? ==> |r.rest| < |t|
  {
    if t == "" then Fail
    else if t[0] == '"' then Got("", t[1..])
    else if t[0] < ' ' then Fail
    else if t[0] != '\\' then Prepend(t[0], Unescape(t[1..]))
    else if |t| >= 2 && ShortEscape(t[1]).Some? then Prepend(ShortEscape(t[1]).value, Unescape(t[2..]))
    else
      var u := ReadUnicode(t);
      if u.None? then Fail else Prepend(u.value.0, Unescape(t[u.value.1..]))
  }

  lemma HexDigitValue(n: int)
    requires 0 <= n < 16
    ensures HexValue(HexDigit(n)) == Some(n)
  {
  }

  lemma HexSum(n: int)
    requires 0 <= n < 0x1_0000
    ensures n == n / 0x1000 * 0x1000 + n / 0x100 % 0x10 * 0x100 + n / 0x10 % 0x10 * 0x10 + n % 0x10
  {
    assert n / 0x100 / 0x10 == n / 0x1000;
    assert n / 0x10 / 0x10 == n / 0x100;
  }

  lemma HexRoundTrip(n: int, t: string)
    requires 0 <= n < 0x1_0000
    ensures ReadHex4(Hex4(n) + t) == Some(n)
  {
    HexDigitValue(n / 0x1000);
    HexDigitValue(n / 0x100 % 0x10);
    HexDigitValue(n / 0x10 % 0x10);
    HexDigitValue(n % 0x10);
    HexSum(n);
    var u := Hex4(n) + t;
    assert u[0] == HexDigit(n / 0x1000) && u[1] == HexDigit(n / 0x100 % 0x10);
    assert u[2] == HexDigit(n / 0x10 % 0x10) && u[3] == HexDigit(n % 0x10);
  }

  lemma HexIsRead(c: char, t: string)
    requires !Surrogate(c as int) && c as int < 0x1_0000
    ensures ReadUnicode("\\u" + Hex4(c as int) + t) == Some((c, 6))
  {
    var u := "\\u" + Hex4(c as int) + t;
    assert u[2..] == Hex4(c as int) + t;
    HexRoundTrip(c as int, t);
  }

  lemma UnescapeHex(c: char, t: string)
    requires NeedsHex(c) && |EscapeChar(c)| > 2
    ensures Unescape(EscapeChar(c) + t) == Prepend(c, Unescape(t))
  {
    var u := EscapeChar(c) + t;
    HexIsRead(c, t);
    assert u == "\\u" + Hex4(c as int) + t && u[6..] == t;
    assert u[0] == '\\' && u[1] == 'u';
  }

  lemma UnescapeChar(c: char, t: string)
    ensures Unescape(EscapeChar(c) + t) == Prepend(c, Unescape(t))
  {
    var u := EscapeChar(c) + t;
    if |EscapeChar(c)| == 1 {
      assert u[1..] == t;
    } else if |EscapeChar(c)| == 2 {
      assert u[2..] == t;
    } else {
      UnescapeHex(c, t);
    }
  }

  /** Any string of Unicode characters survives quoting. */
  lemma {:induction false} StringRoundTrip(s: string, t: string)
    ensures Unescape(Escape(s) + "\"" + t) == Got(s, t)
  {
    if s == "" {
      var u := Escape(s) + "\"" + t;
      assert u == "\"" + t && u[1..] == t;
    } else {
      StringRoundTrip(s[1..], t);
      assert Escape(s) + "\"" + t == EscapeChar(s[0]) + (Escape(s[1..]) + "\"" + t);
      UnescapeChar(s[0], Escape(s[1..]) + "\"" + t);
      assert [s[0]] + s[1..] == s;
    }
  }

  // ---------- Integers (section 6 of RFC 8259) ----------

  predicate IsDigit(c: char) { '0' <= c <= '9' }

  function Digit(n: int): char
    requires 0 <= n < 10
  {
    '0' + n as char
  }

  function Digits(n: nat): string {
    if n < 10 then [Digit(n)] else Digits(n / 10) + [Digit(n % 10)]
  }

  function IntText(n: int): string {
    if n < 0 then "-" + Digits(-n) else Digits(n)
  }

  predicate AllDigits(t: string) {
    forall i :: 0 <= i < |t| ==> IsDigit(t[i])
  }

  function NatValue(t: string): nat
    requires AllDigits(t)
  {
    if t == "" then 0 else NatValue(t[..|t| - 1]) * 10 + (t[|t| - 1] - '0') as int
  }

  /** A whole number literal; fractions and exponents do not fit an integer field. */
  function ParseInt(t: string): Option<int> {
    var body := if t != "" && t[0] == '-' then t[1..] else t;
    if body == "" || !AllDigits(body) || (body[0] == '0' && |body| > 1) then None
    else
      var n: int := NatValue(body);
      Some(if t[0] == '-' then -n else n)
  }

  lemma {:induction false} DigitsValue(n: nat)
    ensures Digits(n) != "" && AllDigits(Digits(n)) && NatValue(Digits(n)) == n
    ensures Digits(n)[0] == '0' ==> n == 0
  {
    if n >= 10 {
      DigitsValue(n / 10);
      assert Digits(n)[..|Digits(n)| - 1] == Digits(n / 10);
    } else {
      assert [Digit(n)][..0] == "";
    }
  }

  lemma IntRoundTrip(n: int)
    ensures ParseInt(IntText(n)) == Some(n)
  {
    DigitsValue(if n < 0 then -n else n);
    if n < 0 { assert IntText(n)[1..] == Digits(-n); }
  }

  // ---------- Dates in the proleptic Gregorian calendar ----------

  predicate Leap(y: nat) { y % 4 == 0 && (y % 100 != 0 || y % 400 == 0) }

  function YearDays(y: nat): nat { if Leap(y) then 366 else 365 }

  function MonthDays(y: nat, m: nat): nat {
    if m == 2 then (if Leap(y) then 29 else 28)
    else if m == 4 || m == 6 || m == 9 || m == 11 then 30
    else 31
  }

  function DaysBeforeYear(y: nat): nat {
    if y == 0 then 0 else DaysBeforeYear(y - 1) + YearDays(y - 1)
  }

  function DaysBeforeMonth(y: nat, m: nat): nat {
    if m <= 1 then 0 else DaysBeforeMonth(y, m - 1) + MonthDays(y, m - 1)
  }

  /** The year that day `d` after the first of year `y` falls in, and its day there. */
  function YearOf(d: nat, y: nat): (nat, nat)
    decreases d
  {
    if d < YearDays(y) then (y, d) else YearOf(d - YearDays(y), y + 1)
  }

  /** The month that day `d` after the first of month `m` falls in, and its day there. */
  function MonthOf(y: nat, d: nat, m: nat): (nat, nat)
    requires 1 <= m <= 12
    decreases 12 - m
  {
    if m == 12 || d < MonthDays(y, m) then (m, d) else MonthOf(y, d - MonthDays(y, m), m + 1)
  }

  datatype Date = Date(year: nat, month: nat, day: nat)

  function DateOf(day: nat): Date {
    var (y, d) := YearOf(day, 0);
    var (m, d') := MonthOf(y, d, 1);
    Date(y, m, d' + 1)
  }

  lemma {:induction false} YearOfDay(d: nat, y: nat)
    ensures var (y', d') := YearOf(d, y);
            y <= y' && d' < YearDays(y') && DaysBeforeYear(y') + d' == DaysBeforeYear(y) + d
    decreases d
  {
    if d >= YearDays(y) { YearOfDay(d - YearDays(y), y + 1); }
  }

  /** The days before a month, from March on five months in 153 days, and February's leap day. */
  lemma {:induction false} MonthsInClosedForm(y: nat, m: nat)
    requires 1 <= m <= 12
    ensures DaysBeforeMonth(y, m) ==
            if m <= 2 then 31 * (m - 1) else 59 + (if Leap(y) then 1 else 0) + (153 * (m - 3) + 2) / 5
  {
    if m > 1 { MonthsInClosedForm(y, m - 1); }
  }

  lemma MonthsMakeAYear(y: nat)
    ensures DaysBeforeMonth(y, 12) + MonthDays(y, 12) == YearDays(y)
  {
    assert DaysBeforeMonth(y, 2) == MonthDays(y, 1);
    assert DaysBeforeMonth(y, 3) == 31 + MonthDays(y, 2);
    assert DaysBeforeMonth(y, 4) == DaysBeforeMonth(y, 3) + 31;
    assert DaysBeforeMonth(y, 6) == DaysBeforeMonth(y, 4) + 61;
    assert DaysBeforeMonth(y, 8) == DaysBeforeMonth(y, 6) + 61;
    assert DaysBeforeMonth(y, 10) == DaysBeforeMonth(y, 8) + 61;
    assert DaysBeforeMonth(y, 12) == DaysBeforeMonth(y, 10) + 61;
  }

  lemma {:induction false} MonthOfDay(y: nat, d: nat, m: nat)
    requires 1 <= m <= 12 && DaysBeforeMonth(y, m) + d < YearDays(y)
    ensures var (m', d') := MonthOf(y, d, m);
            m <= m' <= 12 && d' < MonthDays(y, m') && DaysBeforeMonth(y, m') + d' == DaysBeforeMonth(y, m) + d
    decreases 12 - m
  {
    if m == 12 {
      MonthsMakeAYear(y);
    } else if d >= MonthDays(y, m) {
      MonthOfDay(y, d - MonthDays(y, m), m + 1);
    }
  }

  /** Counting the multiples of `k` below `y`. */
  lemma MultiplesBelow(y: nat, k: nat)
    requires k > 0
    ensures (y + k) / k == (y + k - 1) / k + if y % k == 0 then 1 else 0
  {
    var q, r := y / k, y % k;
    assert y == q * k + r;
    DivIs(y + k, k, q + 1, r);
    if r == 0 { DivIs(y + k - 1, k, q, k - 1); } else { DivIs(y + k - 1, k, q + 1, r - 1); }
  }

  lemma DivIs(n: nat, k: nat, q: nat, r: nat)
    requires k > 0 && n == q * k + r && r < k
    ensures n / k == q
  {
    var m := n / k;
    assert m * k <= n < m * k + k;
    assert (m - q) * k < k && (q - m) * k < k;
    LessThanOne(m - q, k);
    LessThanOne(q - m, k);
  }

  lemma LessThanOne(d: int, k: nat)
    requires d * k < k
    ensures d < 1
  {
    assert (d - 1) * k < 0;
  }

  lemma LeapIsCounted(y: nat)
    ensures (if Leap(y) then 1 else 0) ==
            (if y % 4 == 0 then 1 else 0) - (if y % 100 == 0 then 1 else 0) + (if y % 400 == 0 then 1 else 0)
  {
    assert y % 400 == 0 ==> y % 100 == 0 && y % 4 == 0;
    assert y % 100 == 0 ==> y % 4 == 0;
  }

  lemma {:induction false} DaysInClosedForm(y: nat)
    ensures DaysBeforeYear(y) == 365 * y + (y + 3) / 4 - (y + 99) / 100 + (y + 399) / 400
  {
    if y > 0 {
      DaysInClosedForm(y - 1);
      LeapIsCounted(y - 1);
      MultiplesBelow(y - 1, 4);
      MultiplesBelow(y - 1, 100);
      MultiplesBelow(y - 1, 400);
    }
  }

  lemma {:induction false} YearIsFound(y0: nat, y: nat, d: nat)
    requires y0 <= y && d < YearDays(y)
    ensures DaysBeforeYear(y0) <= DaysBeforeYear(y)
    ensures YearOf(DaysBeforeYear(y) - DaysBeforeYear(y0) + d, y0) == (y, d)
    decreases y - y0
  {
    if y0 < y { YearIsFound(y0 + 1, y, d); }
  }

  lemma {:induction false} MonthIsFound(y: nat, m0: nat, m: nat, d: nat)
    requires 1 <= m0 <= m <= 12 && d < MonthDays(y, m)
    ensures DaysBeforeMonth(y, m0) <= DaysBeforeMonth(y, m)
    ensures MonthOf(y, DaysBeforeMonth(y, m) - DaysBeforeMonth(y, m0) + d, m0) == (m, d)
    decreases m - m0
  {
    if m0 < m { MonthIsFound(y, m0 + 1, m, d); }
  }

  lemma {:induction false} MonthsFitTheYear(y: nat, m: nat)
    requires 1 <= m <= 12
    ensures DaysBeforeMonth(y, m) + MonthDays(y, m) <= YearDays(y)
    decreases 12 - m
  {
    MonthsMakeAYear(y);
    if m < 12 { MonthsFitTheYear(y, m + 1); }
  }

  lemma YearIsFoundFromZero(y: nat, d: nat)
    requires d < YearDays(y)
    ensures YearOf(DaysBeforeYear(y) + d, 0) == (y, d)
  {
    YearIsFound(0, y, d);
  }

  lemma MonthIsFoundFromJanuary(y: nat, m: nat, d: nat)
    requires 1 <= m <= 12 && d < MonthDays(y, m)
    ensures MonthOf(y, DaysBeforeMonth(y, m) + d, 1) == (m, d)
  {
    MonthIsFound(y, 1, m, d);
  }

  lemma MonthEndsInTheYear(y: nat, m: nat, d: nat)
    requires 1 <= m <= 12 && d < MonthDays(y, m)
    ensures DaysBeforeMonth(y, m) + d < YearDays(y)
  {
    MonthsFitTheYear(y, m);
  }

  lemma DateOfParts(day: nat, y: nat, d: nat, m: nat, d': nat)
    requires YearOf(day, 0) == (y, d) && MonthOf(y, d, 1) == (m, d')
    ensures DateOf(day) == Date(y, m, d' + 1)
  {
  }

  lemma DayIsFound(y: nat, m: nat, d: nat, day: nat)
    requires 1 <= m <= 12 && d < MonthDays(y, m) && day == DaysBeforeYear(y) + (DaysBeforeMonth(y, m) + d)
    ensures DateOf(day) == Date(y, m, d + 1)
  {
    var n := DaysBeforeMonth(y, m) + d;
    MonthIsFoundFromJanuary(y, m, d);
    MonthEndsInTheYear(y, m, d);
    YearIsFoundFromZero(y, n);
    DateOfParts(day, y, n, m, d);
  }

  /** Every valid date is the date of its day: the calendar has no other name for it. */
  lemma DateIsFound(y: nat, m: nat, d: nat)
    requires 1 <= m <= 12 && 1 <= d <= MonthDays(y, m)
    ensures DateOf(DaysBeforeYear(y) + DaysBeforeMonth(y, m) + d - 1) == Date(y, m, d)
  {
    DayIsFound(y, m, d - 1, DaysBeforeYear(y) + DaysBeforeMonth(y, m) + d - 1);
  }

  // ---------- Timestamps (section 5.6 of RFC 3339) ----------

  const DAY: int := 86_400 * SECOND

  /** The last `width` digits of `n`. */
  function Pad(n: nat, width: nat): string {
    if width == 0 then "" else Pad(n / 10, width - 1) + [Digit(n % 10)]
  }

  function TrimZeros(t: string): string {
    if t != "" && t[|t| - 1] == '0' then TrimZeros(t[..|t| - 1]) else t
  }

  function FractionText(nanos: nat): string {
    var t := TrimZeros(Pad(nanos, 9));
    if t == "" then "" else "." + t
  }

  function Layout(y: string, m: string, d: string, hh: string, mm: string, ss: string, fraction: string): string {
    y + "-" + m + "-" + d + "T" + hh + ":" + mm + ":" + ss + fraction + "Z"
  }

  function ClockText(y: nat, m: nat, d: nat, hh: nat, mm: nat, ss: nat, nanos: nat): string {
    Layout(Pad(y, 4), Pad(m, 2), Pad(d, 2), Pad(hh, 2), Pad(mm, 2), Pad(ss, 2), FractionText(nanos))
  }

  /** The instant in UTC with as many decimals of a second as it needs, unquoted. */
  function TimeText(stamp: nat): string {
    var date, sec := DateOf(stamp / DAY), stamp % DAY / SECOND;
    ClockText(date.year, date.month, date.day, sec / 3600, sec / 60 % 60, sec % 60, stamp % SECOND)
  }

  /** `width` digits at offset `i`. */
  function Field(t: string, i: nat, width: nat): Option<nat> {
    if i + width <= |t| && AllDigits(t[i..i + width]) then Some(NatValue(t[i..i + width])) else None
  }

  function Zeros(n: nat): string {
    seq(n, _ => '0')
  }

  /** Nanoseconds from the decimals: padded with zeros, cut after the ninth. */
  function FractionValue(t: string): nat
    requires AllDigits(t)
  {
    if |t| >= 9 then NatValue(t[..9]) else NatValue(t + Zeros(9 - |t|))
  }

  function ReadFraction(t: string): Option<nat> {
    if t == "Z" then Some(0)
    else if |t| >= 3 && t[0] == '.' && t[|t| - 1] == 'Z' && AllDigits(t[1..|t| - 1])
    then Some(FractionValue(t[1..|t| - 1]))
    else None
  }

  /** What a timestamp with these parts stands for. */
  function Instant(y: nat, m: nat, d: nat, hh: nat, mm: nat, ss: nat, nanos: nat): int {
    (DaysBeforeYear(y) + DaysBeforeMonth(y, m) + d - 1) * DAY + (hh * 3600 + mm * 60 + ss) * SECOND + nanos
  }

  predicate Separated(t: string) {
    |t| >= 20 && t[4] == '-' && t[7] == '-' && t[10] == 'T' && t[13] == ':' && t[16] == ':'
  }

  function ParseTime(t: string): Option<int> {
    if !Separated(t) then None else
      var y, m, d := Field(t, 0, 4), Field(t, 5, 2), Field(t, 8, 2);
      var hh, mm, ss := Field(t, 11, 2), Field(t, 14, 2), Field(t, 17, 2);
      var nanos := ReadFraction(t[19..]);
      if y.None? || m.None? || d.None? || hh.None? || mm.None? || ss.None? || nanos.None? then None
      else if !(1 <= m.value <= 12 && 1 <= d.value <= MonthDays(y.value, m.value)) then None
      else if !(hh.value < 24 && mm.value < 60 && ss.value < 60) then None
      else Some(Instant(y.value, m.value, d.value, hh.value, mm.value, ss.value, nanos.value))
  }

  function Power10(k: nat): nat { if k == 0 then 1 else 10 * Power10(k - 1) }

  lemma {:induction false} PadValue(n: nat, width: nat)
    requires n < Power10(width)
    ensures |Pad(n, width)| == width && AllDigits(Pad(n, width)) && NatValue(Pad(n, width)) == n
  {
    if width > 0 {
      PadValue(n / 10, width - 1);
      assert Pad(n, width)[..width - 1] == Pad(n / 10, width - 1);
    }
  }

  lemma {:induction false} TrimmedZeros(t: string)
    ensures |TrimZeros(t)| <= |t| && t == TrimZeros(t) + Zeros(|t| - |TrimZeros(t)|)
  {
    if t != "" && t[|t| - 1] == '0' { TrimmedZeros(t[..|t| - 1]); }
  }

  lemma {:induction false} ZerosAreZero(n: nat)
    ensures AllDigits(Zeros(n)) && NatValue(Zeros(n)) == 0
  {
    if n > 0 {
      ZerosAreZero(n - 1);
      assert Zeros(n)[..n - 1] == Zeros(n - 1);
    }
  }

  lemma FractionRoundTrip(nanos: nat)
    requires nanos < SECOND
    ensures ReadFraction(FractionText(nanos) + "Z") == Some(nanos)
  {
    assert Power10(9) == SECOND;
    PadValue(nanos, 9);
    var p, t := Pad(nanos, 9), TrimZeros(Pad(nanos, 9));
    TrimmedZeros(p);
    assert AllDigits(t) by { assert forall i :: 0 <= i < |t| ==> t[i] == p[i]; }
    assert |t| == 9 ==> t[..9] == t == p;
    assert FractionValue(t) == NatValue(p);
    if t == "" {
      assert p == Zeros(9) && FractionText(nanos) + "Z" == "Z";
      assert FractionValue("") == NatValue("" + Zeros(9)) && "" + Zeros(9) == p;
      ZerosAreZero(9);
    } else {
      var u := "." + t + "Z";
      assert u[1..|u| - 1] == t;
    }
  }

  /** The parts of a timestamp, each at its fixed place. */
  lemma TimeParts(y: string, m: string, d: string, hh: string, mm: string, ss: string, fraction: string)
    requires |y| == 4 && |m| == |d| == |hh| == |mm| == |ss| == 2
    ensures var t := Layout(y, m, d, hh, mm, ss, fraction);
            && Separated(t)
            && t[0..4] == y && t[5..7] == m && t[8..10] == d
            && t[11..13] == hh && t[14..16] == mm && t[17..19] == ss && t[19..] == fraction + "Z"
  {
    var a := y + "-" + m + "-";
    assert |a| == 8 && a[0..4] == y && a[5..7] == m && a[4] == a[7] == '-';
    var b := d + "T" + hh + ":";
    assert |b| == 6 && b[0..2] == d && b[2] == 'T' && b[3..5] == hh && b[5] == ':';
    var c := mm + ":" + ss + (fraction + "Z");
    assert c[0..2] == mm && c[2] == ':' && c[3..5] == ss && c[5..] == fraction + "Z";
    var t := Layout(y, m, d, hh, mm, ss, fraction);
    assert t == a + b + c;
    assert t[0..4] == a[0..4] && t[5..7] == a[5..7];
    assert t[8..10] == b[0..2] && t[11..13] == b[3..5];
    assert t[14..16] == c[0..2] && t[17..19] == c[3..5] && t[19..] == c[5..];
  }

  lemma PartsParse(t: string, y: nat, m: nat, d: nat, hh: nat, mm: nat, ss: nat, nanos: nat)
    requires Separated(t) && Field(t, 0, 4) == Some(y) && Field(t, 5, 2) == Some(m) && Field(t, 8, 2) == Some(d)
    requires Field(t, 11, 2) == Some(hh) && Field(t, 14, 2) == Some(mm) && Field(t, 17, 2) == Some(ss)
    requires ReadFraction(t[19..]) == Some(nanos)
    requires 1 <= m <= 12 && 1 <= d <= MonthDays(y, m) && hh < 24 && mm < 60 && ss < 60
    ensures ParseTime(t) == Some(Instant(y, m, d, hh, mm, ss, nanos))
  {
  }

  lemma YearInRange(y: nat, day: nat)
    requires DaysBeforeYear(y) <= day < 3_652_425
    ensures y < 10_000
  {
    DaysInClosedForm(y);
  }

  /** The calendar date of a day, and back. */
  lemma DateRoundTrip(day: nat)
    requires day < 3_652_425
    ensures var date := DateOf(day);
            && date.year < 10_000 && 1 <= date.month <= 12 && 1 <= date.day <= MonthDays(date.year, date.month)
            && DaysBeforeYear(date.year) + DaysBeforeMonth(date.year, date.month) + date.day - 1 == day
  {
    var (y, d) := YearOf(day, 0);
    YearOfDay(day, 0);
    MonthOfDay(y, d, 1);
    YearInRange(y, day);
  }

  lemma FieldIs(t: string, i: nat, width: nat, n: nat)
    requires i + width <= |t| && t[i..i + width] == Pad(n, width) && n < Power10(width)
    ensures Field(t, i, width) == Some(n)
  {
    PadValue(n, width);
  }

  lemma Powers()
    ensures Power10(2) == 100 && Power10(4) == 10_000
  {
    assert Power10(1) == 10 && Power10(2) == 100 && Power10(3) == 1_000;
  }

  lemma ClockFields(y: nat, m: nat, d: nat, hh: nat, mm: nat, ss: nat, nanos: nat)
    requires y < 10_000 && m < 100 && d < 100 && hh < 100 && mm < 100 && ss < 100
    ensures var t := ClockText(y, m, d, hh, mm, ss, nanos);
            && Separated(t) && t[19..] == FractionText(nanos) + "Z"
            && Field(t, 0, 4) == Some(y) && Field(t, 5, 2) == Some(m) && Field(t, 8, 2) == Some(d)
            && Field(t, 11, 2) == Some(hh) && Field(t, 14, 2) == Some(mm) && Field(t, 17, 2) == Some(ss)
  {
    var t := ClockText(y, m, d, hh, mm, ss, nanos);
    Powers();
    PadValue(y, 4);
    PadValue(m, 2);
    PadValue(d, 2);
    PadValue(hh, 2);
    PadValue(mm, 2);
    PadValue(ss, 2);
    TimeParts(Pad(y, 4), Pad(m, 2), Pad(d, 2), Pad(hh, 2), Pad(mm, 2), Pad(ss, 2), FractionText(nanos));
    FieldIs(t, 0, 4, y);
    FieldIs(t, 5, 2, m);
    FieldIs(t, 8, 2, d);
    FieldIs(t, 11, 2, hh);
    FieldIs(t, 14, 2, mm);
    FieldIs(t, 17, 2, ss);
  }

  lemma ClockRoundTrip(y: nat, m: nat, d: nat, hh: nat, mm: nat, ss: nat, nanos: nat)
    requires y < 10_000 && 1 <= m <= 12 && 1 <= d <= MonthDays(y, m) && hh < 24 && mm < 60 && ss < 60 && nanos < SECOND
    ensures ParseTime(ClockText(y, m, d, hh, mm, ss, nanos)) == Some(Instant(y, m, d, hh, mm, ss, nanos))
  {
    ClockFields(y, m, d, hh, mm, ss, nanos);
    FractionRoundTrip(nanos);
    PartsParse(ClockText(y, m, d, hh, mm, ss, nanos), y, m, d, hh, mm, ss, nanos);
  }

  lemma InstantIs(date: Date, sec: nat, stamp: int)
    requires 0 <= stamp && sec == stamp % DAY / SECOND
    requires DaysBeforeYear(date.year) + DaysBeforeMonth(date.year, date.month) + date.day - 1 == stamp / DAY
    ensures Instant(date.year, date.month, date.day, sec / 3600, sec / 60 % 60, sec % 60, stamp % SECOND) == stamp
  {
    ClockParts(stamp);
  }

  /** Every instant of the years 0 to 9999 survives to the nanosecond. */
  lemma TimeRoundTrip(stamp: int)
    requires Encodable(stamp)
    ensures ParseTime(TimeText(stamp)) == Some(stamp)
  {
    var date, sec := DateOf(stamp / DAY), stamp % DAY / SECOND;
    DateRoundTrip(stamp / DAY);
    ClockParts(stamp);
    ClockRoundTrip(date.year, date.month, date.day, sec / 3600, sec / 60 % 60, sec % 60, stamp % SECOND);
    InstantIs(date, sec, stamp);
  }

  lemma ClockParts(stamp: int)
    requires 0 <= stamp
    ensures var sec := stamp % DAY / SECOND;
            && 0 <= sec < 86_400
            && sec == sec / 3600 * 3600 + sec / 60 % 60 * 60 + sec % 60
            && stamp == stamp / DAY * DAY + sec * SECOND + stamp % SECOND
  {
    var r := stamp % DAY;
    assert r % SECOND == stamp % SECOND by {
      assert stamp == stamp / DAY * 86_400 * SECOND + r;
      ModOfSum(stamp / DAY * 86_400, r);
    }
    var sec := r / SECOND;
    assert sec / 60 / 60 == sec / 3600;
  }

  lemma ModOfSum(k: int, r: int)
    ensures (k * SECOND + r) % SECOND == r % SECOND
  {
  }
}
