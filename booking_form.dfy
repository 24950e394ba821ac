// The booking form of the dashboard and the packages page: date fields, the
// date guard chain, the duration text of a package, the end date suggested
// from a start date, and the seven-day cancellation window.
module BookingForm {
  import opened Common

  const MsPerDay: int := 1000 * 60 * 60 * 24

  /** The value of a date input: empty, text the Date parser refuses, or a
      calendar day (days since 1970-01-01, parsed as midnight UTC). */
  datatype DateField = NoDate | Malformed | Day(day: int)

  /** `new Date(field).getTime()`: None stands for NaN. */
  function InstantOf(f: DateField): Option<int>
  {
    if f.Day? then Some(f.day * MsPerDay) else None
  }

  /** `a <= b` on two Date values; any comparison with NaN is false. */
  predicate NotAfter(a: Option<int>, b: Option<int>)
  {
    a.Some? && b.Some? && a.value <= b.value
  }

  datatype DateError = MissingDates | InvalidDate | StartNotFuture | EndNotAfterStart

  function DateMessage(e: DateError): string
  {
    match e
    case MissingDates => "Please select both start and end dates"
    case InvalidDate => "Invalid date format"
    case StartNotFuture => "Start date must be in the future"
    case EndNotAfterStart => "End date must be after start date"
  }

  /** The booking date checks in their source order. `nanGuard` is the dashboard's
      extra "Invalid date format" check, which the packages page does not have. */
  function CheckDates(start: DateField, end: DateField, nowMs: int, nanGuard: bool): (r: Option<DateError>)
    ensures r == Some(MissingDates) <==> start == NoDate || end == NoDate
    ensures r == Some(InvalidDate) ==> nanGuard
    ensures nanGuard ==> (r == None <==> start.Day? && end.Day? && start.day * MsPerDay > nowMs && end.day > start.day)
    ensures !nanGuard ==> (r == None <==>
              start != NoDate && end != NoDate
              && !NotAfter(InstantOf(start), Some(nowMs))
              && !NotAfter(InstantOf(end), InstantOf(start)))
  {
    if start == NoDate || end == NoDate then Some(MissingDates)
    else if nanGuard && (start == Malformed || end == Malformed) then Some(InvalidDate)
    else if NotAfter(InstantOf(start), Some(nowMs)) then Some(StartNotFuture)
    else if NotAfter(InstantOf(end), InstantOf(start)) then Some(EndNotAfterStart)
    else None
  }

  /** Without the NaN check, two unparseable dates pass every comparison. */
  lemma MalformedDatesPassWithoutGuard(nowMs: int)
    ensures CheckDates(Malformed, Malformed, nowMs, false) == None
    ensures CheckDates(Malformed, Malformed, nowMs, true) == Some(InvalidDate)
  {
  }

  /** Whatever the guard, a date pair that passes with it passes without it:
      the guarded chain is the stricter one. */
  lemma {:induction false} GuardIsStricter(start: DateField, end: DateField, nowMs: int)
    ensures CheckDates(start, end, nowMs, true) == None ==> CheckDates(start, end, nowMs, false) == None
  {
    if CheckDates(start, end, nowMs, true) == None {
      assert start.Day? && end.Day?;
      assert InstantOf(end).value > InstantOf(start).value;
    }
  }

  // ---- parseInt and durations ------------------------------------------------

  function DigitPrefix(s: string): (r: string)
    ensures |r| <= |s| && r == s[..|r|] && AllDigits(r)
    ensures |r| < |s| ==> !IsDigit(s[|r|])
  {
    if s != [] && IsDigit(s[0]) then [s[0]] + DigitPrefix(s[1..]) else []
  }

  predicate IsHexDigit(c: char) { IsDigit(c) || 'a' <= c <= 'f' || 'A' <= c <= 'F' }

  function HexDigitValue(c: char): (v: nat)
    requires IsHexDigit(c)
    ensures v < 16
  {
    if IsDigit(c) then c as int - '0' as int
    else if 'a' <= c <= 'f' then c as int - 'a' as int + 10
    else c as int - 'A' as int + 10
  }

  predicate AllHexDigits(s: string) { forall i :: 0 <= i < |s| ==> IsHexDigit(s[i]) }

  function HexPrefix(s: string): (r: string)
    ensures |r| <= |s| && r == s[..|r|] && AllHexDigits(r)
    ensures |r| < |s| ==> !IsHexDigit(s[|r|])
  {
    if s != [] && IsHexDigit(s[0]) then [s[0]] + HexPrefix(s[1..]) else []
  }

  /** The value of a run of hexadecimal digits. */
  function HexValue(d: string): nat
    requires AllHexDigits(d)
  {
    if d == [] then 0 else HexValue(d[..|d| - 1]) * 16 + HexDigitValue(d[|d| - 1])
  }

  /** The text after a `0x` or `0X` prefix, when there is one. */
  predicate HasHexPrefix(body: string) { |body| >= 2 && body[0] == '0' && (body[1] == 'x' || body[1] == 'X') }

  /** The run of digits `parseInt` reads once white space and sign are gone: a
      `0x` or `0X` prefix selects base 16, otherwise base 10; None (NaN) when the
      run is empty. */
  function ReadRun(body: string): (r: Option<nat>)
    ensures r.Some? ==> body != [] && IsDigit(body[0])
  {
    if HasHexPrefix(body) then
      var d := HexPrefix(body[2..]);
      if d == [] then None else Some(HexValue(d))
    else
      var d := DigitPrefix(body);
      if d == [] then None else Some(DigitsValue(d))
  }

  /** An optional sign, then the run. */
  function ReadSigned(t: string): (r: Option<int>)
    ensures r.Some? ==> exists i :: 0 <= i < |t| && IsDigit(t[i])
  {
    if t != [] && (t[0] == '-' || t[0] == '+') then
      match ReadRun(t[1..])
      case Some(v) => assert IsDigit(t[1]); Some(if t[0] == '-' then -(v as int) else v)
      case None => None
    else
      match ReadRun(t)
      case Some(v) => Some(v)
      case None => None
  }

  /** `parseInt(s)` with no radix: leading white space goes, then an optional
      sign and the run of digits of the base the prefix selects. */
  function ParseInt(s: string): (r: Option<int>)
    ensures r.Some? ==> exists i :: 0 <= i < |s| && IsDigit(s[i])
  {
    var t := TrimStart(s);
    assert t == s[|s| - |t|..];
    assert forall i :: 0 <= i < |t| ==> t[i] == s[|s| - |t| + i];
    ReadSigned(t)
  }

  lemma {:induction false} DigitPrefixOfDigits(d: string, rest: string)
    requires AllDigits(d)
    requires rest == [] || !IsDigit(rest[0])
    ensures DigitPrefix(d + rest) == d
  {
    if d != [] {
      assert (d + rest)[1..] == d[1..] + rest;
      DigitPrefixOfDigits(d[1..], rest);
    }
  }

  lemma ReadRunOfDigits(d: string, rest: string)
    requires d != [] && AllDigits(d)
    requires rest == [] || !IsDigit(rest[0])
    requires !(d == "0" && rest != [] && (rest[0] == 'x' || rest[0] == 'X'))
    ensures ReadRun(d + rest) == Some(DigitsValue(d))
  {
    DigitPrefixOfDigits(d, rest);
    if |d| >= 2 {
      assert (d + rest)[1] == d[1];
    }
    assert !HasHexPrefix(d + rest);
  }

  /** A run of decimal digits followed by anything that is not a digit reads as
      the value of the run (unless it is the `0` of a `0x` prefix). */
  lemma ParseIntReadsDigitRun(d: string, rest: string)
    requires d != [] && AllDigits(d)
    requires rest == [] || !IsDigit(rest[0])
    requires !(d == "0" && rest != [] && (rest[0] == 'x' || rest[0] == 'X'))
    ensures ParseInt(d + rest) == Some(DigitsValue(d))
  {
    ReadRunOfDigits(d, rest);
    var p := d + rest;
    assert p[0] == d[0] && IsDigit(p[0]);
    assert ReadSigned(p) == Some(DigitsValue(d));
    TrimStartKeeps(p);
  }

  /** A minus sign in front of a run negates its value. */
  lemma NegatedRun(p: string, v: nat)
    requires ReadRun(p) == Some(v)
    ensures ParseInt("-" + p) == Some(-(v as int))
  {
    var m := "-" + p;
    assert m[0] == '-';
    assert m[1..] == p;
    assert ReadSigned(m) == Some(-(v as int));
    TrimStartKeeps(m);
  }

  lemma TrimStartKeeps(s: string)
    requires s != [] && (IsDigit(s[0]) || s[0] == '-')
    ensures TrimStart(s) == s
  {
  }

  /** Leading white space does not change what parseInt reads. */
  lemma ParseIntSkipsSpace(c: char, s: string)
    requires IsJsSpace(c)
    ensures ParseInt([c] + s) == ParseInt(s)
  {
    assert ([c] + s)[1..] == s;
  }

  /** Reading back the decimal text of any number gives the number. */
  lemma ParseIntOfIntToString(n: int)
    ensures ParseInt(IntToString(n)) == Some(n)
  {
    var m: nat := if n < 0 then -n else n;
    DigitsValueOfNat(m);
    ReadRunOfDigits(NatToString(m), []);
    assert NatToString(m) + [] == NatToString(m);
    if n < 0 {
      NegatedRun(NatToString(m), m);
    } else {
      ParseIntReadsDigitRun(NatToString(m), []);
    }
  }

  lemma {:induction false} HexPrefixOfHexDigits(h: string, rest: string)
    requires AllHexDigits(h)
    requires rest == [] || !IsHexDigit(rest[0])
    ensures HexPrefix(h + rest) == h
  {
    if h != [] {
      assert (h + rest)[1..] == h[1..] + rest;
      HexPrefixOfHexDigits(h[1..], rest);
    }
  }

  /** The hexadecimal prefix is honoured: after `0x` or `0X`, a run of
      hexadecimal digits reads in base 16, and no digit at all is NaN. */
  lemma ParseIntHex(x: char, h: string, rest: string)
    requires x == 'x' || x == 'X'
    requires AllHexDigits(h)
    requires rest == [] || !IsHexDigit(rest[0])
    ensures ParseInt(['0', x] + h + rest) == if h == [] then None else Some(HexValue(h))
  {
    var body := ['0', x] + h + rest;
    assert body[2..] == h + rest;
    HexPrefixOfHexDigits(h, rest);
    assert HasHexPrefix(body);
    assert ReadRun(body) == if h == [] then None else Some(HexValue(h));
    assert body[0] == '0';
    TrimStartKeeps(body);
  }

  /** "0x1A" is 26. */
  lemma HexValueExample()
    ensures HexValue("1A") == 26
  {
    assert "1A"[..1] == "1";
    assert "1"[..0] == "";
  }


  /** `s.split(' ')[0]` */
  function FirstWord(s: string): (r: string)
    ensures |r| <= |s| && r == s[..|r|] && ' ' !in r
  {
    if s == [] || s[0] == ' ' then [] else [s[0]] + FirstWord(s[1..])
  }

  /** getDurationDays: the number the duration text starts with ("5 Days" is 5). */
  function DurationDays(duration: string): Option<int>
  {
    ParseInt(FirstWord(duration))
  }

  lemma {:induction false} FirstWordOf(w: string, rest: string)
    requires ' ' !in w
    ensures FirstWord(w + " " + rest) == w
  {
    if w != [] {
      assert (w + " " + rest)[1..] == w[1..] + " " + rest;
      FirstWordOf(w[1..], rest);
    }
  }

  /** A duration written as a number of days and a unit ("5 Days") counts
      that many days. */
  lemma DurationOfDaysText(n: nat, unit: string)
    ensures DurationDays(NatToString(n) + " " + unit) == Some(n)
  {
    FirstWordOf(NatToString(n), unit);
    ParseIntOfIntToString(n);
  }

  /** handleStartDateChange: the end-date field becomes start + duration days when a
      start date and a package are both present. An unparseable start or duration
      makes `toISOString` throw, and the field keeps its value. */
  function SuggestedEnd(start: DateField, duration: Option<string>, current: DateField): (r: DateField)
    ensures start.Day? && duration.Some? && DurationDays(duration.value).Some?
            ==> r == Day(start.day + DurationDays(duration.value).value)
    ensures !(start.Day? && duration.Some? && DurationDays(duration.value).Some?) ==> r == current
  {
    if !start.Day? || duration.None? then current
    else
      var n := DurationDays(duration.value);
      if n.None? then current else Day(start.day + n.value)
  }

  // ---- cancellation window -----------------------------------------------------

  /** `Math.ceil(a / b)` for a positive divisor. */
  function CeilDiv(a: int, b: int): int
    requires b > 0
  {
    -((-a) / b)
  }

  /** canCancelBooking: more than seven days, rounded up, are left before the
      start. A booking without a parseable StartDate gives NaN, never cancellable. */
  predicate CanCancelBooking(startDay: Option<int>, nowMs: int)
  {
    startDay.Some? && CeilDiv(startDay.value * MsPerDay - nowMs, MsPerDay) > 7
  }

  /** The rounded-up day count exceeds seven exactly when more than seven whole
      days of milliseconds remain before the start. */
  lemma {:induction false} CanCancelIffMoreThanSevenDays(startDay: int, nowMs: int)
    ensures CanCancelBooking(Some(startDay), nowMs) <==> startDay * MsPerDay - nowMs > 7 * MsPerDay
  {
    var a := startDay * MsPerDay - nowMs;
    var q := (-a) / MsPerDay;
    assert -a == q * MsPerDay + (-a) % MsPerDay;
    assert 0 <= (-a) % MsPerDay < MsPerDay;
    if a > 7 * MsPerDay {
      assert q * MsPerDay < -7 * MsPerDay + MsPerDay;
      assert q < -7 + 1;
    } else {
      assert q * MsPerDay > -7 * MsPerDay - MsPerDay;
      assert q > -8;
    }
  }
}
