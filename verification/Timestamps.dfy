/** Which texts are timestamps, and which text each instant has. */
module Timestamps {
  import opened Model
  import opened Text

  predicate IsDate(y: nat, m: nat, d: nat) {
    y < 10_000 && 1 <= m <= 12 && 1 <= d <= MonthDays(y, m)
  }

  predicate IsClock(hh: nat, mm: nat, ss: nat) {
    hh < 24 && mm < 60 && ss < 60
  }

  // ---------- The text of an instant ----------

  lemma DivMod(q: nat, k: nat, r: nat)
    requires r < k
    ensures (q * k + r) / k == q && (q * k + r) % k == r
  {
    DivIs(q * k + r, k, q, r);
  }

  lemma SplitInstant(y: nat, m: nat, d: nat, hh: nat, mm: nat, ss: nat, nanos: nat)
    requires IsDate(y, m, d) && IsClock(hh, mm, ss) && nanos < SECOND
    ensures var t, sec := Instant(y, m, d, hh, mm, ss, nanos), hh * 3600 + mm * 60 + ss;
            && 0 <= t && t / DAY == DaysBeforeYear(y) + DaysBeforeMonth(y, m) + d - 1
            && t % DAY / SECOND == sec && t % SECOND == nanos
  {
    var day, sec := DaysBeforeYear(y) + DaysBeforeMonth(y, m) + d - 1, hh * 3600 + mm * 60 + ss;
    DivMod(day, DAY, sec * SECOND + nanos);
    DivMod(sec, SECOND, nanos);
    assert day * DAY + sec * SECOND == (day * 86_400 + sec) * SECOND;
    DivMod(day * 86_400 + sec, SECOND, nanos);
  }

  lemma ClockIsSplit(hh: nat, mm: nat, ss: nat)
    requires IsClock(hh, mm, ss)
    ensures var sec := hh * 3600 + mm * 60 + ss; sec / 3600 == hh && sec / 60 % 60 == mm && sec % 60 == ss
  {
    DivMod(hh, 3600, mm * 60 + ss);
    DivMod(hh * 60 + mm, 60, ss);
    DivMod(hh, 60, mm);
  }

  lemma TimeTextIs(stamp: nat, date: Date, sec: nat, nanos: nat)
    requires DateOf(stamp / DAY) == date && stamp % DAY / SECOND == sec && stamp % SECOND == nanos
    ensures TimeText(stamp) == ClockText(date.year, date.month, date.day, sec / 3600, sec / 60 % 60, sec % 60, nanos)
  {
  }

  /** The text of an instant names its own date and time of day, and no other. */
  lemma TimeTextNames(y: nat, m: nat, d: nat, hh: nat, mm: nat, ss: nat, nanos: nat)
    requires IsDate(y, m, d) && IsClock(hh, mm, ss) && nanos < SECOND
    ensures 0 <= Instant(y, m, d, hh, mm, ss, nanos)
    ensures TimeText(Instant(y, m, d, hh, mm, ss, nanos)) == ClockText(y, m, d, hh, mm, ss, nanos)
  {
    SplitInstant(y, m, d, hh, mm, ss, nanos);
    DateIsFound(y, m, d);
    ClockIsSplit(hh, mm, ss);
    TimeTextIs(Instant(y, m, d, hh, mm, ss, nanos), Date(y, m, d), hh * 3600 + mm * 60 + ss, nanos);
  }

  lemma DayBeforeYear10000(y: nat, m: nat, d: nat)
    requires 1 <= m <= 12 && 1 <= d <= MonthDays(y, m)
    ensures DaysBeforeYear(y) + DaysBeforeMonth(y, m) + d - 1 < 3_652_425 <==> y <= 9999
  {
    MonthsFitTheYear(y, m);
    DaysInClosedForm(10_000);
    if y <= 9999 { YearIsFound(y + 1, 10_000, 0); } else { YearIsFound(10_000, y, 0); }
  }

  lemma WithinADay(day: int, sec: nat, nanos: nat)
    requires sec < 86_400 && nanos < SECOND
    ensures 0 <= day * DAY + sec * SECOND + nanos < 3_652_425 * DAY <==> 0 <= day < 3_652_425
  {
    assert 0 <= sec * SECOND + nanos < DAY;
  }

  /** The instants that encode are those of the years 0 to 9999. */
  lemma YearsEncode(y: nat, m: nat, d: nat, hh: nat, mm: nat, ss: nat, nanos: nat)
    requires 1 <= m <= 12 && 1 <= d <= MonthDays(y, m) && IsClock(hh, mm, ss) && nanos < SECOND
    ensures Encodable(Instant(y, m, d, hh, mm, ss, nanos)) <==> y <= 9999
  {
    DayBeforeYear10000(y, m, d);
    WithinADay(DaysBeforeYear(y) + DaysBeforeMonth(y, m) + d - 1, hh * 3600 + mm * 60 + ss, nanos);
  }

  /** Year 1, which a missing time stands for, begins with day 366. */
  lemma ZeroTimeIsYearOne()
    ensures Instant(1, 1, 1, 0, 0, 0, 0) == 31_622_400 * SECOND
  {
    assert DaysBeforeYear(0) == 0 && DaysBeforeYear(1) == 366;
  }

  lemma TwoDigits(n: nat)
    requires n < 100
    ensures Pad(n, 2) == [Digit(n / 10), Digit(n % 10)]
  {
    assert Pad(n / 10 / 10, 0) == "" && Pad(n / 10, 1) == "" + [Digit(n / 10 % 10)];
  }

  /** The decimals never end in a zero, and there is no point without decimals. */
  lemma NoTrailingZero(nanos: nat)
    ensures var f := FractionText(nanos); f == "" || (|f| >= 2 && f[0] == '.' && f[|f| - 1] != '0')
  {
    Trimmed(Pad(nanos, 9));
  }

  lemma {:induction false} Trimmed(t: string)
    ensures TrimZeros(t) == "" || TrimZeros(t)[|TrimZeros(t)| - 1] != '0'
  {
    if t != "" && t[|t| - 1] == '0' { Trimmed(t[..|t| - 1]); }
  }

  // ---------- Which texts are timestamps ----------

  predicate IsFraction(f: string) {
    f == "" || (|f| >= 2 && f[0] == '.' && AllDigits(f[1..]))
  }

  function Nanos(f: string): nat
    requires IsFraction(f)
  {
    if f == "" then 0 else FractionValue(f[1..])
  }

  /** `t` names this date and time of day in UTC. */
  predicate Names(t: string, y: nat, m: nat, d: nat, hh: nat, mm: nat, ss: nat, f: string) {
    && IsDate(y, m, d) && IsClock(hh, mm, ss) && IsFraction(f)
    && t == Layout(Pad(y, 4), Pad(m, 2), Pad(d, 2), Pad(hh, 2), Pad(mm, 2), Pad(ss, 2), f)
  }

  lemma {:induction false} PadOfValue(t: string)
    requires AllDigits(t)
    ensures NatValue(t) < Power10(|t|) && Pad(NatValue(t), |t|) == t
  {
    if t != "" {
      var init, c := t[..|t| - 1], t[|t| - 1];
      PadOfValue(init);
      assert IsDigit(c);
      var digit := (c - '0') as int;
      DivMod(NatValue(init), 10, digit);
      assert Digit(digit) == c;
      assert t == init + [c];
    }
  }

  lemma {:induction false} ValueOfSum(a: string, b: string)
    requires AllDigits(a) && AllDigits(b)
    ensures AllDigits(a + b) && NatValue(a + b) == NatValue(a) * Power10(|b|) + NatValue(b)
  {
    if b == "" {
      assert a + b == a;
    } else {
      var b' := b[..|b| - 1];
      ValueOfSum(a, b');
      assert (a + b)[..|a + b| - 1] == a + b';
      assert NatValue(a) * Power10(|b'|) * 10 == NatValue(a) * (10 * Power10(|b'|));
    }
  }

  lemma ScaledUp(t: string)
    requires AllDigits(t) && |t| < 9
    ensures FractionValue(t) == NatValue(t) * Power10(9 - |t|)
  {
    ZerosAreZero(9 - |t|);
    ValueOfSum(t, Zeros(9 - |t|));
  }

  lemma CutOff(t: string)
    requires AllDigits(t) && |t| > 9
    ensures FractionValue(t) * Power10(|t| - 9) <= NatValue(t) < (FractionValue(t) + 1) * Power10(|t| - 9)
  {
    var head, tail := t[..9], t[9..];
    assert t == head + tail && FractionValue(t) == NatValue(head);
    ValueOfSum(head, tail);
    PadOfValue(tail);
    RoundsDown(NatValue(head), Power10(|tail|), NatValue(tail));
  }

  lemma RoundsDown(q: nat, k: nat, r: nat)
    requires r < k
    ensures q * k <= q * k + r < (q + 1) * k
  {
  }

  /** Decimals count as nanoseconds: shorter ones are scaled up and longer ones cut off. */
  lemma DecimalsAreNanoseconds(t: string)
    requires AllDigits(t)
    ensures |t| <= 9 ==> FractionValue(t) == NatValue(t) * Power10(9 - |t|)
    ensures |t| > 9 ==> FractionValue(t) * Power10(|t| - 9) <= NatValue(t) < (FractionValue(t) + 1) * Power10(|t| - 9)
  {
    if |t| < 9 {
      ScaledUp(t);
    } else if |t| == 9 {
      assert t[..9] == t && Power10(0) == 1;
    } else {
      CutOff(t);
    }
  }

  lemma FractionIsRead(f: string)
    ensures IsFraction(f) <==> ReadFraction(f + "Z").Some?
    ensures IsFraction(f) ==> ReadFraction(f + "Z") == Some(Nanos(f))
  {
    var t := f + "Z";
    if f == "" {
      assert t == "Z";
    } else {
      assert t[1..|t| - 1] == f[1..];
    }
  }

  lemma FieldText(t: string, i: nat, width: nat)
    requires Field(t, i, width).Some?
    ensures i + width <= |t| && t[i..i + width] == Pad(Field(t, i, width).value, width)
    ensures Field(t, i, width).value < Power10(width)
  {
    PadOfValue(t[i..i + width]);
  }

  lemma Assembled(t: string)
    requires Separated(t) && t[|t| - 1] == 'Z'
    ensures t == Layout(t[0..4], t[5..7], t[8..10], t[11..13], t[14..16], t[17..19], t[19..|t| - 1])
  {
    var a := t[0..4] + "-" + t[5..7] + "-" + t[8..10] + "T";
    assert a == t[..11];
    var b := t[11..13] + ":" + t[14..16] + ":" + t[17..19];
    assert b == t[11..19];
    assert t == t[..11] + t[11..19] + t[19..|t| - 1] + "Z";
  }

  /** A text that parses names what it parses to. */
  lemma ParsedNames(t: string) returns (y: nat, m: nat, d: nat, hh: nat, mm: nat, ss: nat, f: string)
    requires ParseTime(t).Some?
    ensures Names(t, y, m, d, hh, mm, ss, f)
  {
    y, m, d := Field(t, 0, 4).value, Field(t, 5, 2).value, Field(t, 8, 2).value;
    hh, mm, ss := Field(t, 11, 2).value, Field(t, 14, 2).value, Field(t, 17, 2).value;
    FieldText(t, 0, 4);
    FieldText(t, 5, 2);
    FieldText(t, 8, 2);
    FieldText(t, 11, 2);
    FieldText(t, 14, 2);
    FieldText(t, 17, 2);
    Powers();
    assert t[19..][|t[19..]| - 1] == 'Z';
    f := t[19..|t| - 1];
    assert t[19..] == f + "Z";
    FractionIsRead(f);
    Assembled(t);
  }

  lemma NamedParses(t: string, y: nat, m: nat, d: nat, hh: nat, mm: nat, ss: nat, f: string)
    requires Names(t, y, m, d, hh, mm, ss, f)
    ensures ParseTime(t) == Some(Instant(y, m, d, hh, mm, ss, Nanos(f)))
  {
    Powers();
    PadValue(y, 4);
    PadValue(m, 2);
    PadValue(d, 2);
    PadValue(hh, 2);
    PadValue(mm, 2);
    PadValue(ss, 2);
    TimeParts(Pad(y, 4), Pad(m, 2), Pad(d, 2), Pad(hh, 2), Pad(mm, 2), Pad(ss, 2), f);
    FieldIs(t, 0, 4, y);
    FieldIs(t, 5, 2, m);
    FieldIs(t, 8, 2, d);
    FieldIs(t, 11, 2, hh);
    FieldIs(t, 14, 2, mm);
    FieldIs(t, 17, 2, ss);
    FractionIsRead(f);
    PartsParse(t, y, m, d, hh, mm, ss, Nanos(f));
  }

  /** Exactly the texts that name a valid date and time of day parse; all others are refused. */
  lemma TimesAreRecognised(t: string)
    ensures ParseTime(t).Some? <==> exists y, m, d, hh, mm, ss, f :: Names(t, y, m, d, hh, mm, ss, f)
  {
    if ParseTime(t).Some? {
      var y, m, d, hh, mm, ss, f := ParsedNames(t);
    } else if y, m, d, hh, mm, ss, f :| Names(t, y, m, d, hh, mm, ss, f) {
      NamedParses(t, y, m, d, hh, mm, ss, f);
      assert false;
    }
  }

  // ---------- One instant, written out ----------

  lemma JulyFirst()
    ensures Instant(2023, 7, 1, 3, 25, 45, 120_000_000) == 63_855_401_145_120_000_000
  {
    DaysInClosedForm(2023);
    MonthsInClosedForm(2023, 7);
    assert DaysBeforeYear(2023) == 738_886 && DaysBeforeMonth(2023, 7) == 181;
  }

  lemma YearText()
    ensures Pad(2023, 4) == "2023"
  {
    assert Pad(2, 1) == "" + "2" && Pad(20, 2) == "2" + "0" && Pad(202, 3) == "20" + "2";
    assert Pad(2023, 4) == "202" + "3";
  }

  lemma TrimOfPad(n: nat, width: nat)
    ensures TrimZeros(Pad(n * 10, width + 1)) == TrimZeros(Pad(n, width))
  {
    assert n * 10 / 10 == n && n * 10 % 10 == 0;
    assert (Pad(n, width) + [Digit(0)])[..|Pad(n, width)|] == Pad(n, width);
  }

  lemma TwelveHundredths()
    ensures FractionText(120_000_000) == ".12"
  {
    TrimOfPad(12, 2);
    TrimOfPad(120, 3);
    TrimOfPad(1_200, 4);
    TrimOfPad(12_000, 5);
    TrimOfPad(120_000, 6);
    TrimOfPad(1_200_000, 7);
    TrimOfPad(12_000_000, 8);
    TwoDigits(12);
  }

  lemma JulyFirstText()
    ensures ClockText(2023, 7, 1, 3, 25, 45, 120_000_000) == "2023-07-01T03:25:45.12Z"
  {
    YearText();
    TwoDigits(7);
    TwoDigits(1);
    TwoDigits(3);
    TwoDigits(25);
    TwoDigits(45);
    TwelveHundredths();
    JulyFirstLayout();
  }

  lemma JulyFirstLayout()
    ensures Layout("2023", "07", "01", "03", "25", "45", ".12") == "2023-07-01T03:25:45.12Z"
  {
    assert "2023" + "-" + "07" + "-" + "01" + "T" == "2023-07-01T";
    assert "2023-07-01T" + "03" + ":" + "25" + ":" + "45" == "2023-07-01T03:25:45";
    assert "2023-07-01T03:25:45" + ".12" + "Z" == "2023-07-01T03:25:45.12Z";
  }

  /** 1 July 2023, at 3:25:45.12. */
  lemma AnInstant()
    ensures TimeText(63_855_401_145_120_000_000) == "2023-07-01T03:25:45.12Z"
  {
    JulyFirst();
    TimeTextNames(2023, 7, 1, 3, 25, 45, 120_000_000);
    JulyFirstText();
  }
}
