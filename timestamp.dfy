/** The receiver's timestamp formatter: `format_timestamp` turns an ISO-8601
    timestamp into "<day><suffix> <Month> <Year> - <hh>:<mm> <AM|PM> UTC" and
    hands back its input untouched when that fails. */
module Timestamp {
  import opened PyValues

  /** A calendar date and wall-clock time as `datetime.fromisoformat`
      produces it; `offsetMinutes` is the UTC offset, absent for a naive time. */
  datatype DateTime = DateTime(
    year: nat, month: nat, day: nat,
    hour: nat, minute: nat, second: nat, microsecond: nat,
    offsetMinutes: Option<int>)

  predicate IsLeapYear(y: int) {
    y % 4 == 0 && (y % 100 != 0 || y % 400 == 0)
  }

  function DaysInMonth(y: int, m: int): (n: nat)
    requires 1 <= m <= 12
    ensures 28 <= n <= 31
  {
    if m == 2 then (if IsLeapYear(y) then 29 else 28)
    else if m == 4 || m == 6 || m == 9 || m == 11 then 30
    else 31
  }

  /** The ranges `datetime` enforces; a `timezone` offset must lie strictly
      within one day. */
  predicate Valid(dt: DateTime) {
    && 1 <= dt.year <= 9999
    && 1 <= dt.month <= 12
    && 1 <= dt.day <= DaysInMonth(dt.year, dt.month)
    && dt.hour < 24 && dt.minute < 60 && dt.second < 60
    && dt.microsecond < 1000000
    && (dt.offsetMinutes.Some? ==> -1440 < dt.offsetMinutes.value < 1440)
  }

  // ---------------------------------------------------------------------
  // Fixed-width decimal fields

  function Pow10(w: nat): (p: nat)
    ensures p >= 1
  {
    if w == 0 then 1 else 10 * Pow10(w - 1)
  }

  /** `n` written with exactly `width` digits, as `%0<width>d` writes a
      number that fits. */
  function Pad(n: nat, width: nat): string
  {
    if width == 0 then [] else Pad(n / 10, width - 1) + [DigitChar(n % 10)]
  }

  lemma {:induction false} PadRoundTrip(n: nat, width: nat)
    requires n < Pow10(width)
    ensures |Pad(n, width)| == width
    ensures IsDigits(Pad(n, width))
    ensures DigitsValue(Pad(n, width)) == n
  {
    if width > 0 {
      PadRoundTrip(n / 10, width - 1);
      var p := Pad(n, width);
      assert p[..|p| - 1] == Pad(n / 10, width - 1);
    }
  }

  // ---------------------------------------------------------------------
  // Parsing

  /** Index of the first sign character, or the length when there is none. */
  function SignIndex(s: string): (k: nat)
    ensures k <= |s|
    ensures forall i :: 0 <= i < k ==> s[i] != '+' && s[i] != '-'
    ensures k < |s| ==> s[k] == '+' || s[k] == '-'
  {
    if s == [] || s[0] == '+' || s[0] == '-' then 0 else 1 + SignIndex(s[1..])
  }

  /** `[.fff | .ffffff]` as microseconds. */
  function ParseFraction(f: string): Option<nat> {
    if f == [] then Some(0)
    else if f[0] == '.' && (|f| == 4 || |f| == 7) && IsDigits(f[1..]) then
      Some(if |f| == 4 then DigitsValue(f[1..]) * 1000 else DigitsValue(f[1..]))
    else None
  }

  /** `[±HH:MM]` as signed minutes (`Some(None)` when there is no offset). */
  function ParseOffset(z: string): Option<Option<int>> {
    if z == [] then Some(None)
    else if |z| == 6 && (z[0] == '+' || z[0] == '-') && z[3] == ':'
      && IsDigits(z[1..3]) && IsDigits(z[4..6])
    then
      var m := DigitsValue(z[1..3]) * 60 + DigitsValue(z[4..6]);
      Some(Some(if z[0] == '-' then -m else m))
    else None
  }

  /** The grammar `YYYY-MM-DD?HH:MM:SS[.fff|.ffffff][±HH:MM]` (any single
      character between date and time), followed by the range checks of
      `datetime` and `timezone`. */
  function ParseIsoFormat(t: string): (r: Option<DateTime>)
    ensures r.Some? ==> Valid(r.value)
  {
    if |t| < 19 || t[4] != '-' || t[7] != '-' || t[13] != ':' || t[16] != ':' then None
    else if !(IsDigits(t[..4]) && IsDigits(t[5..7]) && IsDigits(t[8..10])
              && IsDigits(t[11..13]) && IsDigits(t[14..16]) && IsDigits(t[17..19]))
    then None
    else
      var rest := t[19..];
      var k := SignIndex(rest);
      match (ParseFraction(rest[..k]), ParseOffset(rest[k..]))
      case (Some(us), Some(offset)) =>
        var dt := DateTime(DigitsValue(t[..4]), DigitsValue(t[5..7]), DigitsValue(t[8..10]),
                           DigitsValue(t[11..13]), DigitsValue(t[14..16]), DigitsValue(t[17..19]),
                           us, offset);
        if Valid(dt) then Some(dt) else None
      case _ => None
  }

  /** `dt.isoformat()` for a naive time, as `datetime.utcnow()` gives one:
      the fraction is written only when it is not zero. */
  function IsoFormatNaive(dt: DateTime): string {
    Layout(Pad(dt.year, 4), Pad(dt.month, 2), Pad(dt.day, 2),
           Pad(dt.hour, 2), Pad(dt.minute, 2), Pad(dt.second, 2),
           if dt.microsecond == 0 then "" else "." + Pad(dt.microsecond, 6))
  }

  /** `YYYY-MM-DDTHH:MM:SS` followed by `tail`, from its fields. */
  function Layout(y: string, mo: string, d: string, h: string, mi: string, sec: string,
                  tail: string): string {
    y + "-" + mo + "-" + d + "T" + h + ":" + mi + ":" + sec + tail
  }

  lemma FractionRoundTrip(us: nat)
    requires us < 1000000
    ensures ParseFraction(if us == 0 then "" else "." + Pad(us, 6)) == Some(us)
  {
    if us != 0 {
      PadRoundTrip(us, 6);
      assert ("." + Pad(us, 6))[1..] == Pad(us, 6);
    }
  }

  /** Where the fields of a date-time text of the `isoformat()` layout sit. */
  lemma {:induction false} HeadLayout(y: string, mo: string, d: string, h: string, mi: string, sec: string,
                   tail: string)
    requires |y| == 4 && |mo| == 2 && |d| == 2 && |h| == 2 && |mi| == 2 && |sec| == 2
    ensures var t := Layout(y, mo, d, h, mi, sec, tail);
      && |t| >= 19 && t[4] == '-' && t[7] == '-' && t[13] == ':' && t[16] == ':'
      && t[..4] == y && t[5..7] == mo && t[8..10] == d
      && t[11..13] == h && t[14..16] == mi && t[17..19] == sec && t[19..] == tail
  {
    var t := Layout(y, mo, d, h, mi, sec, tail);
    var s6 := sec + tail;
    var s5 := mi + ":" + s6;
    var s4 := h + ":" + s5;
    var s3 := d + "T" + s4;
    var s2 := mo + "-" + s3;
    var s1 := y + "-" + s2;
    assert t == s1;
    assert s1[..4] == y && s1[4] == '-' && s1[5..] == s2;
    assert s2[..2] == mo && s2[2] == '-' && s2[3..] == s3;
    assert s3[..2] == d && s3[3..] == s4;
    assert s4[..2] == h && s4[2] == ':' && s4[3..] == s5;
    assert s5[..2] == mi && s5[2] == ':' && s5[3..] == s6;
    assert s6[..2] == sec && s6[2..] == tail;
  }

  lemma TailRoundTrip(us: nat)
    requires us < 1000000
    ensures var rest := (if us == 0 then "" else "." + Pad(us, 6)) + "+00:00";
      var k := SignIndex(rest);
      ParseFraction(rest[..k]) == Some(us) && ParseOffset(rest[k..]) == Some(Some(0))
  {
    var frac := if us == 0 then "" else "." + Pad(us, 6);
    if us != 0 {
      PadRoundTrip(us, 6);
      assert forall i :: 0 <= i < |frac| ==> frac[i] != '+' && frac[i] != '-';
    }
    SignIndexAt(frac, "+00:00");
    var rest := frac + "+00:00";
    assert rest[..|frac|] == frac;
    assert rest[|frac|..] == "+00:00";
    FractionRoundTrip(us);
    ZeroOffsetParses();
  }

  lemma ZeroOffsetParses()
    ensures ParseOffset("+00:00") == Some(Some(0))
  {
    assert "+00:00"[1..3] == "00" && "+00:00"[4..6] == "00";
    assert "00"[..1] == "0" && "0"[..0] == "";
    assert DigitsValue("00") == 0;
  }

  /** What `isoformat()` writes for a naive time, with the `+00:00` that
      replaces its `Z`, parses back to that time at offset zero. */
  lemma {:induction false} IsoRoundTrip(dt: DateTime)
    requires Valid(dt) && dt.offsetMinutes.None?
    ensures ParseIsoFormat(IsoFormatNaive(dt) + "+00:00") == Some(dt.(offsetMinutes := Some(0)))
  {
    var y, mo, d := Pad(dt.year, 4), Pad(dt.month, 2), Pad(dt.day, 2);
    var h, mi, sec := Pad(dt.hour, 2), Pad(dt.minute, 2), Pad(dt.second, 2);
    PadRoundTrip(dt.year, 4);
    PadRoundTrip(dt.month, 2);
    PadRoundTrip(dt.day, 2);
    PadRoundTrip(dt.hour, 2);
    PadRoundTrip(dt.minute, 2);
    PadRoundTrip(dt.second, 2);
    var frac := if dt.microsecond == 0 then "" else "." + Pad(dt.microsecond, 6);
    TailRoundTrip(dt.microsecond);
    LayoutAppend(y, mo, d, h, mi, sec, frac, "+00:00");
    ParseOfLayout(y, mo, d, h, mi, sec, frac + "+00:00", dt.microsecond, Some(0));
  }

  lemma {:induction false} LayoutAppend(y: string, mo: string, d: string, h: string, mi: string,
                                        sec: string, tail: string, more: string)
    ensures Layout(y, mo, d, h, mi, sec, tail) + more == Layout(y, mo, d, h, mi, sec, tail + more)
  {
  }

  /** A text of the `isoformat()` layout parses to the time its fields spell. */
  lemma {:induction false} ParseOfLayout(y: string, mo: string, d: string, h: string, mi: string, sec: string,
                      tail: string, us: nat, offset: Option<int>)
    requires |y| == 4 && |mo| == 2 && |d| == 2 && |h| == 2 && |mi| == 2 && |sec| == 2
    requires IsDigits(y) && IsDigits(mo) && IsDigits(d)
    requires IsDigits(h) && IsDigits(mi) && IsDigits(sec)
    requires ParseFraction(tail[..SignIndex(tail)]) == Some(us)
    requires ParseOffset(tail[SignIndex(tail)..]) == Some(offset)
    requires Valid(DateTime(DigitsValue(y), DigitsValue(mo), DigitsValue(d),
                            DigitsValue(h), DigitsValue(mi), DigitsValue(sec), us, offset))
    ensures ParseIsoFormat(Layout(y, mo, d, h, mi, sec, tail)) == Some(DateTime(DigitsValue(y), DigitsValue(mo), DigitsValue(d),
                            DigitsValue(h), DigitsValue(mi), DigitsValue(sec), us, offset))
  {
    HeadLayout(y, mo, d, h, mi, sec, tail);
  }

  lemma {:induction false} SignIndexAt(a: string, b: string)
    requires forall i :: 0 <= i < |a| ==> a[i] != '+' && a[i] != '-'
    requires b != [] && (b[0] == '+' || b[0] == '-')
    ensures SignIndex(a + b) == |a|
    decreases |a|
  {
    if a != [] {
      assert (a + b)[1..] == a[1..] + b;
      SignIndexAt(a[1..], b);
    }
  }

  // ---------------------------------------------------------------------
  // Rendering

  /** The English ordinal suffix of a day number. Within a month only the
      1st, 2nd, 3rd, 21st, 22nd, 23rd and 31st take a suffix other than "th". */
  function OrdinalSuffix(day: int): (s: string)
    ensures |s| == 2
    ensures 1 <= day <= 31 ==> (s == "st" <==> day == 1 || day == 21 || day == 31)
    ensures 1 <= day <= 31 ==> (s == "nd" <==> day == 2 || day == 22)
    ensures 1 <= day <= 31 ==> (s == "rd" <==> day == 3 || day == 23)
    ensures 1 <= day <= 31 ==> (s == "th" <==> !(day in {1, 2, 3, 21, 22, 23, 31}))
  {
    if 10 <= day % 100 <= 20 then "th"
    else if day % 10 == 1 then "st"
    else if day % 10 == 2 then "nd"
    else if day % 10 == 3 then "rd"
    else "th"
  }

  /** `%I`: the hour on a 12-hour clock. */
  function Hour12(hour: nat): (h: nat)
    requires hour < 24
    ensures 1 <= h <= 12
    ensures h % 12 == hour % 12
  {
    if hour % 12 == 0 then 12 else hour % 12
  }

  /** `%p` in the C locale. */
  function Meridiem(hour: nat): (m: string)
    ensures m == "AM" <==> hour < 12
    ensures m == "AM" || m == "PM"
  {
    if hour < 12 then "AM" else "PM"
  }

  /** The 24-hour hour a 12-hour reading denotes. */
  function Hour24(h12: nat, meridiem: string): nat {
    h12 % 12 + (if meridiem == "PM" then 12 else 0)
  }

  /** `%I` with `%p` loses no information about the hour. */
  lemma ClockRoundTrip(hour: nat)
    requires hour < 24
    ensures Hour24(Hour12(hour), Meridiem(hour)) == hour
  {
  }

  const MonthNames: seq<string> := [
    "January", "February", "March", "April", "May", "June", "July",
    "August", "September", "October", "November", "December"]

  /** `%B` gives each month a name of its own. */
  lemma MonthNamesDistinct()
    ensures |MonthNames| == 12
    ensures forall i, j :: 0 <= i < j < 12 ==> MonthNames[i] != MonthNames[j]
  {
  }

  /** The text `f"%{day}{suffix}"` puts into the `strftime` format: a
      directive libc reads with its own rules (`%1st` is a width-1 `%s`). */
  function DayDirective(day: nat): (r: string)
    ensures |r| >= 4 && r[0] == '%'
    ensures IsDigits(r[1..|r| - 2]) && DigitsValue(r[1..|r| - 2]) == day
    ensures r[|r| - 2..] == OrdinalSuffix(day)
    ensures r[1] == '0' ==> day == 0 && |r| == 4
  {
    var digits := NatToDecimal(day);
    var r := "%" + digits + OrdinalSuffix(day);
    assert r[1..|r| - 2] == digits;
    assert r[1] == digits[0];
    r
  }

  /** What the C library's `strftime` prints for one directive and one time. */
  type Libc = (string, DateTime) -> string

  /** What ` - %I:%M %p UTC` prints: the 12-hour clock, in fifteen
      characters. */
  function ClockText(hour: nat, minute: nat): (r: string)
    requires hour < 24 && minute < 60
    ensures |r| == 15 && r[..3] == " - " && r[5] == ':'
    ensures IsDigits(r[3..5]) && DigitsValue(r[3..5]) == Hour12(hour)
    ensures IsDigits(r[6..8]) && DigitsValue(r[6..8]) == minute
    ensures r[8..] == " " + Meridiem(hour) + " UTC"
  {
    var hh := Pad(Hour12(hour), 2);
    var mm := Pad(minute, 2);
    PadRoundTrip(Hour12(hour), 2);
    PadRoundTrip(minute, 2);
    var r := " - " + hh + ":" + mm + " " + Meridiem(hour) + " UTC";
    assert r[3..5] == hh && r[6..8] == mm;
    r
  }

  /** What ` %B %Y - %I:%M %p UTC` prints: the part of the format after the
      day token, which needs no help from the C library. The month name and
      the year read back, and the clock follows them. */
  function AfterDay(dt: DateTime): (r: string)
    requires Valid(dt)
    ensures var month := MonthNames[dt.month - 1];
      && |r| >= |month| + 18
      && r[..|month| + 2] == " " + month + " "
      && IsDigits(r[|month| + 2..|r| - 15]) && DigitsValue(r[|month| + 2..|r| - 15]) == dt.year
      && r[|month| + 2] != '0'
      && r[|r| - 15..] == ClockText(dt.hour, dt.minute)
  {
    var month := MonthNames[dt.month - 1];
    var year := NatToDecimal(dt.year);
    var r := " " + month + " " + year + ClockText(dt.hour, dt.minute);
    assert r[..|month| + 2] == " " + month + " ";
    assert r[|month| + 2..|r| - 15] == year;
    assert r[|month| + 2] == year[0];
    r
  }

  /** `dt.strftime(f"%{day}{suffix} %B %Y - %I:%M %p UTC")`. */
  function Render(dt: DateTime, libc: Libc): string
    requires Valid(dt)
  {
    libc(DayDirective(dt.day), dt) + AfterDay(dt)
  }

  /** `format_timestamp(s)` for a `str`: every `Z` becomes `+00:00`, the
      text is parsed and rendered; on any failure the input comes back. */
  function FormatTimestamp(raw: string, libc: Libc): (r: string)
    ensures ParseIsoFormat(ReplaceAll(raw, "Z", "+00:00")).None? ==> r == raw
    ensures ParseIsoFormat(ReplaceAll(raw, "Z", "+00:00")).Some? ==>
      |r| >= 4 && r[|r| - 4..] == " UTC"
  {
    match ParseIsoFormat(ReplaceAll(raw, "Z", "+00:00"))
    case None => raw
    case Some(dt) => Render(dt, libc)
  }

  /** `format_timestamp(x)` for any value: anything but a `str` has no
      `replace`, the exception is caught and `x` itself comes back. */
  function FormatValue(j: Json, libc: Libc): (r: Json)
    ensures !j.JStr? ==> r == j
    ensures j.JStr? ==> r == JStr(FormatTimestamp(j.s, libc))
  {
    if j.JStr? then JStr(FormatTimestamp(j.s, libc)) else j
  }

  /** The default timestamp `utcnow().isoformat() + 'Z'` always formats: it
      never falls back to the raw text. */
  lemma ClockTimestampFormats(now: DateTime, libc: Libc)
    requires Valid(now) && now.offsetMinutes.None?
    ensures FormatTimestamp(IsoFormatNaive(now) + "Z", libc)
         == Render(now.(offsetMinutes := Some(0)), libc)
  {
    IsoHasNoZ(now);
    ReplaceCharAtEnd(IsoFormatNaive(now), 'Z', "+00:00");
    IsoRoundTrip(now);
  }

  lemma IsoHasNoZ(dt: DateTime)
    ensures 'Z' !in IsoFormatNaive(dt)
  {
    forall w: nat, n: nat ensures 'Z' !in Pad(n, w) { PadDigits(n, w); }
  }

  lemma {:induction false} PadDigits(n: nat, width: nat)
    ensures IsDigits(Pad(n, width))
  {
    if width > 0 { PadDigits(n / 10, width - 1); }
  }

  // ---------------------------------------------------------------------
  // Worked examples

  lemma PadTwo(n: nat)
    requires n < 100
    ensures Pad(n, 2) == [DigitChar(n / 10), DigitChar(n % 10)]
  {
    var tens := n / 10;
    assert tens < 10 && tens % 10 == tens && tens / 10 == 0;
    assert Pad(tens, 1) == [DigitChar(tens)];
  }

  lemma PadYear2021()
    ensures Pad(2021, 4) == "2021"
  {
  }

  /** A text without `Z` is what `replace('Z', '+00:00')` gives back. */
  lemma NoZ(raw: string)
    requires 'Z' !in raw
    ensures ReplaceAll(raw, "Z", "+00:00") == raw
  {
    forall i | 0 <= i <= |raw| - 1 ensures !OccursAt(raw, "Z", i) {
      assert raw[i..i + 1] == [raw[i]];
    }
    ReplaceAbsent(raw, "Z", "+00:00");
  }

  /** How `Render` lays out already computed pieces. */
  lemma {:induction false} RenderPieces(dt: DateTime, libc: Libc, month: string, year: string,
                                        hh: string, mm: string, ampm: string)
    requires Valid(dt)
    requires MonthNames[dt.month - 1] == month && NatToDecimal(dt.year) == year
    requires Pad(Hour12(dt.hour), 2) == hh && Pad(dt.minute, 2) == mm && Meridiem(dt.hour) == ampm
    ensures Render(dt, libc)
         == libc(DayDirective(dt.day), dt) + (" " + month + " " + year + " - " + hh + ":" + mm
                                              + " " + ampm + " UTC")
  {
  }

  /** The formatted form of a naive `isoformat()` text with `Z`, from the
      pieces `Render` puts together. */
  lemma {:induction false} FormatOfPieces(raw: string, dt: DateTime, libc: Libc, directive: string,
      month: string, year: string, hh: string, mm: string, ampm: string)
    requires Valid(dt) && dt.offsetMinutes.None? && raw == IsoFormatNaive(dt) + "Z"
    requires DayDirective(dt.day) == directive
    requires MonthNames[dt.month - 1] == month && NatToDecimal(dt.year) == year
    requires Pad(Hour12(dt.hour), 2) == hh && Pad(dt.minute, 2) == mm && Meridiem(dt.hour) == ampm
    ensures FormatTimestamp(raw, libc)
         == libc(directive, dt.(offsetMinutes := Some(0)))
            + (" " + month + " " + year + " - " + hh + ":" + mm + " " + ampm + " UTC")
  {
    ClockTimestampFormats(dt, libc);
    RenderPieces(dt.(offsetMinutes := Some(0)), libc, month, year, hh, mm, ampm);
  }

  lemma SpellNineThirtyPM()
    ensures " " + "April" + " " + "2021" + " - " + "09" + ":" + "30" + " " + "PM" + " UTC"
         == " April 2021 - 09:30 PM UTC"
  {
  }

  lemma SpellTwelveFiveAM()
    ensures " " + "April" + " " + "2021" + " - " + "12" + ":" + "05" + " " + "AM" + " UTC"
         == " April 2021 - 12:05 AM UTC"
  {
  }

  lemma IsoTextOfFirst()
    ensures IsoFormatNaive(DateTime(2021, 4, 1, 21, 30, 0, 0, None)) + "Z" == "2021-04-01T21:30:00Z"
  {
    PadYear2021();
    PadTwo(4); PadTwo(1); PadTwo(21); PadTwo(30); PadTwo(0);
  }

  lemma YearText2021()
    ensures NatToDecimal(2021) == "2021"
  {
    assert NatToDecimal(2) == "2";
    assert NatToDecimal(20) == "20";
    assert NatToDecimal(202) == "202";
  }

  lemma DirectiveFirst()
    ensures DayDirective(1) == "%1st"
  {
    assert NatToDecimal(1) == "1" && OrdinalSuffix(1) == "st";
  }

  lemma DirectiveEleventh()
    ensures DayDirective(11) == "%11th"
  {
    assert NatToDecimal(1) == "1";
    assert NatToDecimal(11) == "11" && OrdinalSuffix(11) == "th";
  }

  lemma FirstPieces()
    ensures DayDirective(1) == "%1st" && MonthNames[3] == "April" && NatToDecimal(2021) == "2021"
    ensures Pad(Hour12(21), 2) == "09" && Pad(30, 2) == "30" && Meridiem(21) == "PM"
  {
    DirectiveFirst(); YearText2021();
    PadTwo(9); PadTwo(30);
  }

  /** "2021-04-01T21:30:00Z": the 1st, 9:30 in the evening. */
  lemma FormatsFirstOfApril(libc: Libc)
    ensures FormatTimestamp("2021-04-01T21:30:00Z", libc)
         == libc("%1st", DateTime(2021, 4, 1, 21, 30, 0, 0, Some(0))) + " April 2021 - 09:30 PM UTC"
  {
    IsoTextOfFirst();
    FirstPieces();
    FormatOfPieces("2021-04-01T21:30:00Z", DateTime(2021, 4, 1, 21, 30, 0, 0, None), libc,
                   "%1st", "April", "2021", "09", "30", "PM");
    SpellNineThirtyPM();
  }

  lemma IsoTextOfEleventh()
    ensures IsoFormatNaive(DateTime(2021, 4, 11, 0, 5, 0, 0, None)) + "Z" == "2021-04-11T00:05:00Z"
  {
    PadYear2021();
    PadTwo(4); PadTwo(11); PadTwo(0); PadTwo(5);
  }

  lemma EleventhPieces()
    ensures DayDirective(11) == "%11th" && MonthNames[3] == "April" && NatToDecimal(2021) == "2021"
    ensures Pad(Hour12(0), 2) == "12" && Pad(5, 2) == "05" && Meridiem(0) == "AM"
  {
    DirectiveEleventh(); YearText2021();
    PadTwo(5); PadTwo(12);
  }

  /** "2021-04-11T00:05:00Z": the 11th takes "th", midnight reads 12 AM. */
  lemma FormatsEleventhAtMidnight(libc: Libc)
    ensures FormatTimestamp("2021-04-11T00:05:00Z", libc)
         == libc("%11th", DateTime(2021, 4, 11, 0, 5, 0, 0, Some(0))) + " April 2021 - 12:05 AM UTC"
  {
    IsoTextOfEleventh();
    EleventhPieces();
    FormatOfPieces("2021-04-11T00:05:00Z", DateTime(2021, 4, 11, 0, 5, 0, 0, None), libc,
                   "%11th", "April", "2021", "12", "05", "AM");
    SpellTwelveFiveAM();
  }

  /** A text that is not a timestamp comes back unchanged. */
  lemma KeepsNonTimestamp(libc: Libc)
    ensures FormatTimestamp("not-a-date", libc) == "not-a-date"
  {
    NoZ("not-a-date");
  }

  lemma OffsetFieldsExample()
    ensures IsDigits("2021") && IsDigits("04") && IsDigits("01")
    ensures IsDigits("21") && IsDigits("30") && IsDigits("00")
    ensures DigitsValue("2021") == 2021 && DigitsValue("04") == 4 && DigitsValue("01") == 1
    ensures DigitsValue("21") == 21 && DigitsValue("30") == 30 && DigitsValue("00") == 0
  {
    PadYear2021();
    PadRoundTrip(2021, 4);
    PadTwo(4); PadTwo(1); PadTwo(21); PadTwo(30); PadTwo(0);
    PadRoundTrip(4, 2); PadRoundTrip(1, 2); PadRoundTrip(21, 2); PadRoundTrip(30, 2);
    PadRoundTrip(0, 2);
  }

  lemma OffsetTailExample()
    ensures SignIndex("+05:30") == 0
    ensures ParseFraction("+05:30"[..0]) == Some(0)
    ensures ParseOffset("+05:30"[0..]) == Some(Some(330))
  {
    assert "+05:30"[1..3] == "05" && "+05:30"[4..6] == "30";
    PadTwo(5); PadTwo(30);
    PadRoundTrip(5, 2); PadRoundTrip(30, 2);
    assert "+05:30"[0..] == "+05:30";
  }

  lemma ParsesOffsetExample()
    ensures ParseIsoFormat(Layout("2021", "04", "01", "21", "30", "00", "+05:30"))
         == Some(DateTime(2021, 4, 1, 21, 30, 0, 0, Some(330)))
  {
    OffsetFieldsExample();
    OffsetTailExample();
    ParseOfLayout("2021", "04", "01", "21", "30", "00", "+05:30", 0, Some(330));
  }

  lemma OffsetTextExample()
    ensures "2021-04-01T21:30:00+05:30" == Layout("2021", "04", "01", "21", "30", "00", "+05:30")
    ensures 'Z' !in "2021-04-01T21:30:00+05:30"
  {
  }

  lemma RendersOffsetExample(libc: Libc)
    ensures Render(DateTime(2021, 4, 1, 21, 30, 0, 0, Some(330)), libc)
         == libc("%1st", DateTime(2021, 4, 1, 21, 30, 0, 0, Some(330))) + " April 2021 - 09:30 PM UTC"
  {
    FirstPieces();
    RenderPieces(DateTime(2021, 4, 1, 21, 30, 0, 0, Some(330)), libc, "April", "2021", "09", "30", "PM");
    SpellNineThirtyPM();
  }

  /** The offset is parsed but never applied: a time at +05:30 prints its own
      wall-clock hour, labelled UTC. */
  lemma OffsetIsNotConverted(libc: Libc)
    ensures FormatTimestamp("2021-04-01T21:30:00+05:30", libc)
         == libc("%1st", DateTime(2021, 4, 1, 21, 30, 0, 0, Some(330))) + " April 2021 - 09:30 PM UTC"
  {
    var raw := "2021-04-01T21:30:00+05:30";
    OffsetTextExample();
    ParsesOffsetExample();
    FormatOfParsed(raw, DateTime(2021, 4, 1, 21, 30, 0, 0, Some(330)), libc);
    RendersOffsetExample(libc);
  }

  /** A text without `Z` that parses is rendered from what it parses to. */
  lemma {:induction false} FormatOfParsed(raw: string, dt: DateTime, libc: Libc)
    requires 'Z' !in raw && ParseIsoFormat(raw) == Some(dt)
    ensures FormatTimestamp(raw, libc) == Render(dt, libc)
  {
    NoZ(raw);
  }
}
