/** Stored times: formatTime and parseTime of internal/state/store.go, for UTC times in
    the years 0 to 9999, and the order of their texts (RFC 3339, sections 5.1 and 5.6). */
module TimeText {
  import opened Wrappers
  import opened Text
  import opened Store
  import opened History

  // -------------------------------------------------------------- instants

  datatype Instant = Instant(year: nat, month: nat, day: nat, hour: nat, minute: nat, second: nat, nanos: nat)

  const NANOS_PER_SECOND := 1_000_000_000

  predicate Leap(year: nat) {
    year % 4 == 0 && (year % 100 != 0 || year % 400 == 0)
  }

  function DaysIn(year: nat, month: nat): nat {
    if month == 2 then (if Leap(year) then 29 else 28)
    else if month == 4 || month == 6 || month == 9 || month == 11 then 30
    else 31
  }

  predicate Valid(t: Instant) {
    && t.year <= 9999 && 1 <= t.month <= 12 && 1 <= t.day <= DaysIn(t.year, t.month)
    && t.hour < 24 && t.minute < 60 && t.second < 60 && t.nanos < NANOS_PER_SECOND
  }

  function DaysBeforeMonth(year: nat, month: nat): nat {
    if month <= 1 then 0 else DaysBeforeMonth(year, month - 1) + DaysIn(year, month - 1)
  }

  function DaysBeforeYear(year: nat): nat {
    if year == 0 then 0 else DaysBeforeYear(year - 1) + DaysBeforeMonth(year - 1, 13)
  }

  function Seconds(t: Instant): int {
    ((DaysBeforeYear(t.year) + DaysBeforeMonth(t.year, t.month) + t.day - 1) * 24 + t.hour) * 3600 + t.minute * 60 + t.second
  }

  /** Nanoseconds since the start of year 0. */
  function Nanos(t: Instant): int {
    Seconds(t) * NANOS_PER_SECOND + t.nanos
  }

  predicate Before(a: Instant, b: Instant) {
    Nanos(a) < Nanos(b)
  }

  predicate SameSecond(a: Instant, b: Instant) {
    a.(nanos := 0) == b.(nanos := 0)
  }

  lemma {:induction false} MonthsGrow(year: nat, m: nat, n: nat)
    requires 1 <= m < n
    ensures DaysBeforeMonth(year, m) + DaysIn(year, m) <= DaysBeforeMonth(year, n)
    decreases n
  {
    if m < n - 1 {
      MonthsGrow(year, m, n - 1);
    }
  }

  lemma {:induction false} YearsGrow(x: nat, y: nat)
    requires x < y
    ensures DaysBeforeYear(x) + DaysBeforeMonth(x, 13) <= DaysBeforeYear(y)
    decreases y
  {
    if x < y - 1 {
      YearsGrow(x, y - 1);
    }
  }

  /** The calendar and clock fields up to the second, most significant first. */
  predicate EarlierSecond(a: Instant, b: Instant) {
    || a.year < b.year
    || (a.year == b.year && (a.month < b.month
    || (a.month == b.month && (a.day < b.day
    || (a.day == b.day && (a.hour < b.hour
    || (a.hour == b.hour && (a.minute < b.minute
    || (a.minute == b.minute && a.second < b.second)))))))))
  }

  lemma EarlierSecondCounts(a: Instant, b: Instant)
    requires Valid(a) && Valid(b) && EarlierSecond(a, b)
    ensures Seconds(a) < Seconds(b)
  {
    if a.year < b.year {
      YearsGrow(a.year, b.year);
      MonthsGrow(a.year, a.month, 13);
    } else if a.month < b.month {
      MonthsGrow(a.year, a.month, b.month);
    }
  }

  /** Time order is field order. */
  lemma BeforeMeansEarlierFields(a: Instant, b: Instant)
    requires Valid(a) && Valid(b)
    ensures Before(a, b) <==> EarlierSecond(a, b) || (SameSecond(a, b) && a.nanos < b.nanos)
  {
    if EarlierSecond(a, b) {
      EarlierSecondCounts(a, b);
    } else if EarlierSecond(b, a) {
      EarlierSecondCounts(b, a);
    } else {
      assert SameSecond(a, b);
    }
  }

  // -------------------------------------------------------------- digits

  predicate IsDigit(c: char) {
    '0' <= c <= '9'
  }

  predicate IsNumber(s: string) {
    forall c <- s :: IsDigit(c)
  }

  function DigitOf(n: nat): (c: char)
    requires n < 10
    ensures IsDigit(c)
  {
    ('0' as int + n) as char
  }

  function Pow10(n: nat): nat {
    if n == 0 then 1 else 10 * Pow10(n - 1)
  }

  /** The last `width` decimal digits. */
  function Digits(n: nat, width: nat): (s: string)
    ensures |s| == width && IsNumber(s)
  {
    if width == 0 then "" else Digits(n / 10, width - 1) + [DigitOf(n % 10)]
  }

  function Number(s: string): nat
    requires IsNumber(s)
  {
    if s == "" then 0
    else
      assert s[|s| - 1] in s;
      10 * Number(s[..|s| - 1]) + (s[|s| - 1] as int - '0' as int)
  }

  lemma {:induction false} NumberOfDigits(n: nat, width: nat)
    requires n < Pow10(width)
    ensures Number(Digits(n, width)) == n
  {
    if width > 0 {
      NumberOfDigits(n / 10, width - 1);
      assert Digits(n, width)[..width - 1] == Digits(n / 10, width - 1);
    }
  }

  lemma {:induction false} DigitsOrder(x: nat, y: nat, width: nat)
    requires x < Pow10(width) && y < Pow10(width)
    ensures Precedes(Digits(x, width), Digits(y, width)) <==> x < y
    ensures Digits(x, width) == Digits(y, width) <==> x == y
  {
    NumberOfDigits(x, width);
    NumberOfDigits(y, width);
    if width > 0 {
      DigitsOrder(x / 10, y / 10, width - 1);
      PrecedesAppend(Digits(x / 10, width - 1), Digits(y / 10, width - 1), [DigitOf(x % 10)], [DigitOf(y % 10)]);
      var c, d := DigitOf(x % 10), DigitOf(y % 10);
      assert Precedes([c], [d]) <==> c < d;
    }
  }

  // -------------------------------------------------------------- fractions

  function TrimZeros(s: string): string {
    if s == "" then ""
    else if s[0] == '0' && TrimZeros(s[1..]) == "" then ""
    else [s[0]] + TrimZeros(s[1..])
  }

  function Fraction(t: Instant): string {
    TrimZeros(Digits(t.nanos, 9))
  }

  function PadZeros(s: string, width: nat): string
    requires |s| <= width
  {
    s + seq(width - |s|, _ => '0')
  }

  lemma {:induction false} PadUndoesTrim(s: string)
    requires IsNumber(s)
    ensures |TrimZeros(s)| <= |s| && IsNumber(TrimZeros(s))
    ensures PadZeros(TrimZeros(s), |s|) == s
  {
    if s != "" {
      assert s == [s[0]] + s[1..];
      PadUndoesTrim(s[1..]);
      assert PadZeros(TrimZeros(s), |s|) == [s[0]] + PadZeros(TrimZeros(s[1..]), |s| - 1);
    }
  }

  lemma SameFirst(c: char, x: string, y: string)
    ensures [c] + x == [c] + y <==> x == y
    ensures [c] + x < [c] + y <==> x < y
    ensures [c] + y < [c] + x <==> y < x
  {
    assert ([c] + x)[1..] == x && ([c] + y)[1..] == y;
    if x < y {
      assert [c] + y == [c] + x + y[|x|..];
    }
    if y < x {
      assert [c] + x == [c] + y + x[|y|..];
    }
    if [c] + x < [c] + y {
      forall i | 0 <= i < |x| ensures x[i] == y[i] {
        assert ([c] + x)[i + 1] == ([c] + y)[i + 1];
      }
    }
    if [c] + y < [c] + x {
      forall i | 0 <= i < |y| ensures x[i] == y[i] {
        assert ([c] + x)[i + 1] == ([c] + y)[i + 1];
      }
    }
  }

  /** Between trimmed digit strings of one width followed by "Z", the text order is the
      digit order, except that a proper prefix comes after what it is a prefix of. */
  lemma {:induction false} TrimmedOrder(u: string, v: string)
    requires |u| == |v| && IsNumber(u) && IsNumber(v) && u != v
    ensures TrimZeros(u) != TrimZeros(v)
    ensures Precedes(TrimZeros(u) + "Z", TrimZeros(v) + "Z") <==>
      if TrimZeros(u) < TrimZeros(v) || TrimZeros(v) < TrimZeros(u) then Precedes(v, u) else Precedes(u, v)
  {
    var p, q := TrimZeros(u), TrimZeros(v);
    assert u == [u[0]] + u[1..] && v == [v[0]] + v[1..];
    if p == "" || q == "" {
      EmptyTrimmed(u, v);
    } else if u[0] == v[0] {
      assert u[1..] != v[1..];
      TrimmedOrder(u[1..], v[1..]);
      assert (p + "Z")[1..] == TrimZeros(u[1..]) + "Z" && (q + "Z")[1..] == TrimZeros(v[1..]) + "Z";
      SameFirst(u[0], TrimZeros(u[1..]), TrimZeros(v[1..]));
    } else {
      assert p[0] == u[0] && q[0] == v[0];
      assert !(p < q) && !(q < p);
    }
  }

  lemma {:induction false} TrimmedEmpty(s: string)
    requires TrimZeros(s) == ""
    ensures s == seq(|s|, _ => '0')
  {
    if s != "" {
      TrimmedEmpty(s[1..]);
      assert s == [s[0]] + s[1..];
    }
  }

  lemma {:induction false} ZerosPrecede(u: string, v: string)
    requires |u| == |v| && IsNumber(v) && u == seq(|u|, _ => '0') && u != v
    ensures Precedes(u, v)
  {
    assert v[0] in v;
    if u[0] == v[0] {
      assert u == [u[0]] + u[1..] && v == [v[0]] + v[1..];
      ZerosPrecede(u[1..], v[1..]);
    }
  }

  lemma EmptyTrimmed(u: string, v: string)
    requires |u| == |v| && IsNumber(u) && IsNumber(v) && u != v
    requires TrimZeros(u) == "" || TrimZeros(v) == ""
    ensures var p, q := TrimZeros(u), TrimZeros(v);
      && p != q && (p < q || q < p)
      && (Precedes(p + "Z", q + "Z") <==> Precedes(v, u))
  {
    var p, q := TrimZeros(u), TrimZeros(v);
    PadUndoesTrim(u);
    PadUndoesTrim(v);
    if p == "" {
      TrimmedEmpty(u);
      ZerosPrecede(u, v);
      PrecedesAsymmetric(u, v);
      assert q[0] in q;
    } else {
      TrimmedEmpty(v);
      ZerosPrecede(v, u);
      assert p[0] in p;
    }
  }

  // -------------------------------------------------------------- formatting

  /** The text up to the second. */
  function SecondText(t: Instant): string {
    Digits(t.year, 4) + "-" + (Digits(t.month, 2) + "-" + (Digits(t.day, 2) + "T" +
    (Digits(t.hour, 2) + ":" + (Digits(t.minute, 2) + ":" + Digits(t.second, 2)))))
  }

  function FractionText(t: Instant): string {
    if Fraction(t) == "" then "" else "." + Fraction(t)
  }

  /** RFC3339Nano in UTC: trailing zeros of the fraction are left out. */
  function FormatTime(t: Instant): string {
    SecondText(t) + (FractionText(t) + "Z")
  }

  lemma FieldOrder(x: nat, y: nat, width: nat, sep: string, u: string, v: string)
    requires x < Pow10(width) && y < Pow10(width)
    ensures Precedes(Digits(x, width) + sep + u, Digits(y, width) + sep + v) <==> x < y || (x == y && Precedes(u, v))
  {
    DigitsOrder(x, y, width);
    PrecedesAppend(Digits(x, width) + sep, Digits(y, width) + sep, u, v);
    PrecedesAppend(Digits(x, width), Digits(y, width), sep, sep);
    NotBeforeItself(sep);
    assert Digits(x, width) + sep == Digits(y, width) + sep ==> x == y by {
      if Digits(x, width) + sep == Digits(y, width) + sep {
        assert (Digits(x, width) + sep)[..width] == Digits(x, width);
        assert (Digits(y, width) + sep)[..width] == Digits(y, width);
      }
    }
  }

  lemma NotBeforeItself(s: string)
    ensures !Precedes(s, s)
  {
    if Precedes(s, s) {
      PrecedesAsymmetric(s, s);
    }
  }

  lemma FieldWidths(t: Instant)
    requires Valid(t)
    ensures t.year < Pow10(4) && t.month < Pow10(2) && t.day < Pow10(2)
    ensures t.hour < Pow10(2) && t.minute < Pow10(2) && t.second < Pow10(2) && t.nanos < Pow10(9)
  {
    assert Pow10(2) == 100 && Pow10(4) == 10000 && Pow10(6) == 1000000 && Pow10(9) == NANOS_PER_SECOND;
  }

  lemma SecondTextOrder(a: Instant, b: Instant)
    requires Valid(a) && Valid(b)
    ensures Precedes(SecondText(a), SecondText(b)) <==> EarlierSecond(a, b)
  {
    FieldWidths(a);
    FieldWidths(b);
    var sa, sb := Digits(a.second, 2), Digits(b.second, 2);
    DigitsOrder(a.second, b.second, 2);
    FieldOrder(a.minute, b.minute, 2, ":", sa, sb);
    var ma, mb := Digits(a.minute, 2) + ":" + sa, Digits(b.minute, 2) + ":" + sb;
    FieldOrder(a.hour, b.hour, 2, ":", ma, mb);
    var ha, hb := Digits(a.hour, 2) + ":" + ma, Digits(b.hour, 2) + ":" + mb;
    FieldOrder(a.day, b.day, 2, "T", ha, hb);
    var da, db := Digits(a.day, 2) + "T" + ha, Digits(b.day, 2) + "T" + hb;
    FieldOrder(a.month, b.month, 2, "-", da, db);
    var na, nb := Digits(a.month, 2) + "-" + da, Digits(b.month, 2) + "-" + db;
    FieldOrder(a.year, b.year, 4, "-", na, nb);
  }

  lemma SecondTextTells(a: Instant, b: Instant)
    requires Valid(a) && Valid(b)
    ensures SecondText(a) == SecondText(b) <==> SameSecond(a, b)
  {
    if SecondText(a) == SecondText(b) {
      NotBeforeItself(SecondText(a));
      SecondTextOrder(a, b);
      SecondTextOrder(b, a);
    }
  }

  // -------------------------------------------------------------- order of the texts

  /** The two times fall in one second, and the trimmed fraction of one is a proper
      prefix of that of the other. */
  predicate Reversed(a: Instant, b: Instant) {
    SameSecond(a, b) && (Fraction(a) < Fraction(b) || Fraction(b) < Fraction(a))
  }

  lemma FractionOrder(a: Instant, b: Instant)
    requires Valid(a) && Valid(b) && a.nanos != b.nanos
    ensures Fraction(a) != Fraction(b)
    ensures Precedes(FractionText(a) + "Z", FractionText(b) + "Z") <==>
      if Fraction(a) < Fraction(b) || Fraction(b) < Fraction(a) then b.nanos < a.nanos else a.nanos < b.nanos
  {
    FieldWidths(a);
    FieldWidths(b);
    var u, v := Digits(a.nanos, 9), Digits(b.nanos, 9);
    DigitsOrder(a.nanos, b.nanos, 9);
    DigitsOrder(b.nanos, a.nanos, 9);
    TrimmedOrder(u, v);
    var p, q := Fraction(a), Fraction(b);
    if p != "" && q != "" {
      assert (("." + p) + "Z")[1..] == p + "Z" && (("." + q) + "Z")[1..] == q + "Z";
    } else {
      PadUndoesTrim(u);
      PadUndoesTrim(v);
      assert p != "" ==> p[0] in p;
      assert q != "" ==> q[0] in q;
    }
  }

  /** The byte order of stored times is the time order, except exactly when both fall in
      one second and one trimmed fraction is a proper prefix of the other: there it is
      the reverse. */
  lemma TextOrderIsTimeOrder(a: Instant, b: Instant)
    requires Valid(a) && Valid(b)
    ensures Precedes(FormatTime(a), FormatTime(b)) <==> if Reversed(a, b) then Before(b, a) else Before(a, b)
    ensures FormatTime(a) == FormatTime(b) <==> a == b
  {
    SecondTextOrder(a, b);
    SecondTextTells(a, b);
    BeforeMeansEarlierFields(a, b);
    BeforeMeansEarlierFields(b, a);
    PrecedesAppend(SecondText(a), SecondText(b), FractionText(a) + "Z", FractionText(b) + "Z");
    if a == b {
      NotBeforeItself(FormatTime(a));
    } else {
      if SameSecond(a, b) {
        FractionOrder(a, b);
        FractionOrder(b, a);
      }
      if FormatTime(a) == FormatTime(b) {
        NotBeforeItself(FormatTime(a));
        TextsDiffer(a, b);
      }
    }
  }

  lemma TextsDiffer(a: Instant, b: Instant)
    requires Valid(a) && Valid(b) && a != b
    ensures FormatTime(a) != FormatTime(b)
  {
    SecondTextTells(a, b);
    if FormatTime(a) == FormatTime(b) {
      assert FormatTime(a)[..19] == SecondText(a) && FormatTime(b)[..19] == SecondText(b);
      assert FormatTime(a)[19..] == FractionText(a) + "Z" && FormatTime(b)[19..] == FractionText(b) + "Z";
      FractionOrder(a, b);
      FractionOrder(b, a);
      NotBeforeItself(FractionText(a) + "Z");
    }
  }

  /** So the listing, meant as newest first, puts the later of two updates first exactly
      outside that case. */
  lemma ListingOrderIsTimeOrder(x: Job, y: Job, a: Instant, b: Instant)
    requires Valid(a) && Valid(b) && a != b && x.updatedAt == FormatTime(a) && y.updatedAt == FormatTime(b)
    ensures ListedBefore(x, y) <==> (Before(b, a) <==> !Reversed(a, b))
  {
    TextOrderIsTimeOrder(b, a);
    TextOrderIsTimeOrder(a, b);
    BeforeMeansEarlierFields(a, b);
    BeforeMeansEarlierFields(b, a);
  }

  /** An update on the full second is listed before one half a second later. */
  lemma OlderListedFirst(x: Job, y: Job)
    requires x.updatedAt == FormatTime(Instant(2024, 5, 6, 7, 8, 9, 0))
    requires y.updatedAt == FormatTime(Instant(2024, 5, 6, 7, 8, 9, 500_000_000))
    ensures Before(Instant(2024, 5, 6, 7, 8, 9, 0), Instant(2024, 5, 6, 7, 8, 9, 500_000_000))
    ensures ListedBefore(x, y)
  {
    var a, b := Instant(2024, 5, 6, 7, 8, 9, 0), Instant(2024, 5, 6, 7, 8, 9, 500_000_000);
    TrimmedZero(9);
    FractionOrder(a, b);
    assert Fraction(a) == "";
    assert Reversed(a, b);
    ListingOrderIsTimeOrder(x, y, a, b);
  }

  lemma {:induction false} TrimmedZero(width: nat)
    ensures Digits(0, width) == seq(width, _ => '0')
    ensures TrimZeros(seq(width, _ => '0')) == ""
  {
    if width > 0 {
      TrimmedZero(width - 1);
      assert seq(width, _ => '0')[1..] == seq(width - 1, _ => '0');
    }
  }

  // -------------------------------------------------------------- parsing

  /** What a text that is no time reads as. */
  const ZERO_TIME := Instant(1, 1, 1, 0, 0, 0, 0)

  /** A time text split where the layout puts its separators. */
  predicate HasLayout(s: string) {
    && |s| >= 20
    && s[4] == '-' && s[7] == '-' && s[10] == 'T' && s[13] == ':' && s[16] == ':' && s[|s| - 1] == 'Z'
    && IsNumber(s[..4]) && IsNumber(s[5..7]) && IsNumber(s[8..10])
    && IsNumber(s[11..13]) && IsNumber(s[14..16]) && IsNumber(s[17..19])
    && HasFraction(s[19..|s| - 1])
  }

  /** Nothing, or a point and one to nine digits. */
  predicate HasFraction(s: string) {
    s == "" || (s[0] == '.' && 2 <= |s| <= 10 && IsNumber(s[1..]))
  }

  lemma PaddedIsNumber(s: string, width: nat)
    requires |s| <= width && IsNumber(s)
    ensures IsNumber(PadZeros(s, width))
  {
  }

  function ReadFraction(s: string): nat
    requires HasFraction(s)
  {
    if s == "" then 0
    else
      PaddedIsNumber(s[1..], 9);
      Number(PadZeros(s[1..], 9))
  }

  function ParseTime(s: string): Instant {
    if !HasLayout(s) then ZERO_TIME
    else
      var t := Instant(
        Number(s[..4]), Number(s[5..7]), Number(s[8..10]),
        Number(s[11..13]), Number(s[14..16]), Number(s[17..19]), ReadFraction(s[19..|s| - 1]));
      if Valid(t) then t else ZERO_TIME
  }

  lemma Slice(x: string, y: string, z: string)
    ensures (x + y + z)[|x|..|x| + |y|] == y
  {
  }

  /** Three fields with a separator between them. */
  lemma ThreeFields(a: string, b: string, c: string, sep: char)
    requires |b| == |c| == 2
    ensures var s, n := a + [sep] + b + [sep] + c, |a|;
      |s| == n + 6 && s[..n] == a && s[n] == sep && s[n + 1..n + 3] == b && s[n + 3] == sep && s[n + 4..] == c
  {
    var s := a + [sep] + b + [sep] + c;
    assert s == "" + a + ([sep] + b + [sep] + c);
    Slice("", a, [sep] + b + [sep] + c);
    assert s == (a + [sep]) + b + ([sep] + c);
    Slice(a + [sep], b, [sep] + c);
    assert s == (a + [sep] + b + [sep]) + c + "";
    Slice(a + [sep] + b + [sep], c, "");
  }

  lemma Sliced(year: string, month: string, day: string, hour: string, minute: string, second: string, tail: string)
    requires |year| == 4 && |month| == |day| == |hour| == |minute| == |second| == 2
    ensures var s := year + "-" + (month + "-" + (day + "T" + (hour + ":" + (minute + ":" + second)))) + (tail + "Z");
      && |s| == 20 + |tail|
      && s[4] == '-' && s[7] == '-' && s[10] == 'T' && s[13] == ':' && s[16] == ':' && s[|s| - 1] == 'Z'
      && s[..4] == year && s[5..7] == month && s[8..10] == day
      && s[11..13] == hour && s[14..16] == minute && s[17..19] == second && s[19..|s| - 1] == tail
  {
    var date, clock := year + "-" + month + "-" + day, hour + ":" + minute + ":" + second;
    var s := year + "-" + (month + "-" + (day + "T" + (hour + ":" + (minute + ":" + second)))) + (tail + "Z");
    ThreeFields(year, month, day, '-');
    ThreeFields(hour, minute, second, ':');
    assert date == year + ['-'] + month + ['-'] + day && clock == hour + [':'] + minute + [':'] + second;
    assert s == date + "T" + clock + tail + "Z";
    assert s[..10] == date && s[11..19] == clock && s[10] == 'T';
    assert date[8..] == date[8..10] && clock[6..] == clock[6..8];
    assert forall i, j | 0 <= i <= j <= 10 :: s[..10][i..j] == s[i..j];
    assert forall i, j | 0 <= i <= j <= 8 :: s[11..19][i..j] == s[11 + i..11 + j];
  }

  lemma FractionReadsBack(t: Instant)
    requires Valid(t)
    ensures HasFraction(FractionText(t)) && ReadFraction(FractionText(t)) == t.nanos
  {
    FieldWidths(t);
    var digits := Digits(t.nanos, 9);
    PadUndoesTrim(digits);
    NumberOfDigits(t.nanos, 9);
    if Fraction(t) == "" {
      TrimmedEmpty(digits);
      TrimmedZero(9);
      assert Digits(t.nanos, 9) == Digits(0, 9);
      NumberOfDigits(0, 9);
    } else {
      assert FractionText(t)[1..] == Fraction(t);
    }
  }

  /** Reading a stored time gives back the time that was stored. */
  lemma ParseUndoesFormat(t: Instant)
    requires Valid(t)
    ensures ParseTime(FormatTime(t)) == t
  {
    FieldWidths(t);
    Sliced(Digits(t.year, 4), Digits(t.month, 2), Digits(t.day, 2),
      Digits(t.hour, 2), Digits(t.minute, 2), Digits(t.second, 2), FractionText(t));
    FractionReadsBack(t);
    NumberOfDigits(t.year, 4);
    NumberOfDigits(t.month, 2);
    NumberOfDigits(t.day, 2);
    NumberOfDigits(t.hour, 2);
    NumberOfDigits(t.minute, 2);
    NumberOfDigits(t.second, 2);
  }

  /** The text of a time: its fields in digits, with dashes, a T, colons and a Z between and
      behind them, and its nanoseconds behind a point without trailing zeros, if there are any. */
  lemma FormatTimeExact(t: Instant)
    requires Valid(t)
    ensures var s := FormatTime(t);
      && |s| >= 20
      && s[4] == '-' && s[7] == '-' && s[10] == 'T' && s[13] == ':' && s[16] == ':' && s[|s| - 1] == 'Z'
      && Reads(s[..4], t.year) && Reads(s[5..7], t.month) && Reads(s[8..10], t.day)
      && Reads(s[11..13], t.hour) && Reads(s[14..16], t.minute) && Reads(s[17..19], t.second)
      && (t.nanos == 0 <==> |s| == 20)
      && (t.nanos > 0 ==>
          && 22 <= |s| <= 30 && s[19] == '.' && s[|s| - 2] != '0'
          && Reads(PadZeros(s[20..|s| - 1], 9), t.nanos))
  {
    FieldWidths(t);
    Sliced(Digits(t.year, 4), Digits(t.month, 2), Digits(t.day, 2),
      Digits(t.hour, 2), Digits(t.minute, 2), Digits(t.second, 2), FractionText(t));
    NumberOfDigits(t.year, 4);
    NumberOfDigits(t.month, 2);
    NumberOfDigits(t.day, 2);
    NumberOfDigits(t.hour, 2);
    NumberOfDigits(t.minute, 2);
    NumberOfDigits(t.second, 2);
    FractionTextExact(t);
    var s, tail := FormatTime(t), FractionText(t);
    if t.nanos > 0 {
      assert s[19..|s| - 1] == tail;
      assert s[20..|s| - 1] == tail[1..];
      assert s[|s| - 2] == tail[|tail| - 1];
    }
  }

  /** A decimal numeral of this value. */
  predicate Reads(s: string, n: nat) {
    IsNumber(s) && Number(s) == n
  }

  lemma FractionTextExact(t: Instant)
    requires Valid(t)
    ensures var tail := FractionText(t);
      && (t.nanos == 0 <==> tail == "")
      && (t.nanos > 0 ==>
          && 2 <= |tail| <= 10 && tail[0] == '.' && tail[|tail| - 1] != '0' && Reads(PadZeros(tail[1..], 9), t.nanos))
  {
    FractionReadsBack(t);
    if t.nanos == 0 {
      TrimmedZero(9);
    } else {
      PointedFraction(t, Fraction(t));
    }
  }

  lemma PointedFraction(t: Instant, fraction: string)
    requires fraction == Fraction(t) && HasFraction(FractionText(t)) && ReadFraction(FractionText(t)) == t.nanos > 0
    ensures fraction != "" && FractionText(t) == "." + fraction && fraction[|fraction| - 1] != '0'
    ensures |fraction| <= 9 && Reads(PadZeros(fraction, 9), t.nanos)
  {
    TrimZerosEnd(Digits(t.nanos, 9));
    PaddedIsNumber(fraction, 9);
    assert ("." + fraction)[1..] == fraction;
  }

  lemma {:induction false} TrimZerosEnd(s: string)
    ensures TrimZeros(s) != "" ==> TrimZeros(s)[|TrimZeros(s)| - 1] != '0'
  {
    if s != "" {
      TrimZerosEnd(s[1..]);
    }
  }
}
