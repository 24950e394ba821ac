// The credit-card form shared by the dashboard and the packages page:
// the four field patterns, the expiry comparison against the current month,
// the last-four extraction, and the three input formatters.
module CardForm {
  import opened Common

  /** `^\d{4}\s\d{4}\s\d{4}\s\d{4}$` */
  predicate IsCardNumber(s: string)
  {
    |s| == 19 && forall i :: 0 <= i < 19 ==> if i % 5 == 4 then IsJsSpace(s[i]) else IsDigit(s[i])
  }

  /** `^\d{2}\/\d{2}$`, the dashboard's expiry pattern (any two-digit month) */
  predicate IsLooseExpiry(s: string)
  {
    |s| == 5 && IsDigit(s[0]) && IsDigit(s[1]) && s[2] == '/' && IsDigit(s[3]) && IsDigit(s[4])
  }

  /** `^(0[1-9]|1[0-2])\/([0-9]{2})$`, the packages page's expiry pattern */
  predicate IsMonthExpiry(s: string)
  {
    |s| == 5 && s[2] == '/' && IsDigit(s[3]) && IsDigit(s[4])
    && ((s[0] == '0' && '1' <= s[1] <= '9') || (s[0] == '1' && '0' <= s[1] <= '2'))
  }

  /** `^\d{3,4}$` */
  predicate IsCvv(s: string) { (|s| == 3 || |s| == 4) && AllDigits(s) }

  /** `^[a-zA-Z\s]{2,50}$` */
  predicate IsCardholderName(s: string)
  {
    2 <= |s| <= 50 && forall i :: 0 <= i < |s| ==> IsAsciiLetter(s[i]) || IsJsSpace(s[i])
  }

  function DigitValue(c: char): int requires IsDigit(c) { c as int - '0' as int }

  /** `parseInt(month)` of the MM part. */
  function ExpiryMM(s: string): int requires IsLooseExpiry(s) { 10 * DigitValue(s[0]) + DigitValue(s[1]) }

  /** `parseInt(year)` of the YY part. */
  function ExpiryYY(s: string): int requires IsLooseExpiry(s) { 10 * DigitValue(s[3]) + DigitValue(s[4]) }

  /** The month `new Date(2000 + YY, MM - 1)` falls in, counted as year * 12 + month index.
      The Date constructor carries a month index outside 0..11 into the year, which
      this count does by construction (MM 00 is December of the year before, MM 13
      January of the year after). */
  function ExpiryMonth(s: string): int requires IsLooseExpiry(s)
  {
    (2000 + ExpiryYY(s)) * 12 + (ExpiryMM(s) - 1)
  }

  /** The current moment as the forms read it: milliseconds since the epoch, the
      current month counted as year * 12 + month index, and how far into that month
      the moment lies. */
  datatype Clock = Clock(epochMs: int, month: int, msIntoMonth: nat)

  /** `expiry < now`: the first instant of the expiry month lies before now. Month
      starts increase with the month count, so this holds exactly when the expiry
      month is an earlier month, or is this month and its first instant has passed. */
  predicate ExpiredAt(s: string, now: Clock)
    requires IsLooseExpiry(s)
  {
    ExpiryMonth(s) < now.month || (ExpiryMonth(s) == now.month && now.msIntoMonth > 0)
  }

  datatype CardFields = CardFields(number: string, expiry: string, cvv: string, holder: string)

  datatype CardError = MissingField | BadNumber | BadExpiry | BadCvv | BadHolder | Expired

  function Message(e: CardError): string
  {
    match e
    case MissingField => "Please fill in all payment fields"
    case BadNumber => "Please enter a valid card number in format: XXXX XXXX XXXX XXXX"
    case BadExpiry => "Please enter expiry date in format: MM/YY"
    case BadCvv => "Please enter a valid CVV (3-4 digits)"
    case BadHolder => "Please enter a valid cardholder name (2-50 characters, letters and spaces only)"
    case Expired => "Card has expired. Please use a valid card."
  }

  /** The expiry pattern in force: the packages page bounds the month, the dashboard does not. */
  predicate ExpiryShape(s: string, boundedMonth: bool)
  {
    if boundedMonth then IsMonthExpiry(s) else IsLooseExpiry(s)
  }

  /** Check number `k` of the chain holds of the fields. */
  predicate Holds(k: nat, f: CardFields, now: Clock, boundedMonth: bool)
  {
    match k
    case 0 => f.number != "" && f.expiry != "" && f.cvv != "" && f.holder != ""
    case 1 => IsCardNumber(f.number)
    case 2 => ExpiryShape(f.expiry, boundedMonth)
    case 3 => IsCvv(f.cvv)
    case 4 => IsCardholderName(f.holder)
    case _ => ExpiryShape(f.expiry, boundedMonth) && IsLooseExpiry(f.expiry) && !ExpiredAt(f.expiry, now)
  }

  function Rank(e: CardError): nat
  {
    match e
    case MissingField => 0
    case BadNumber => 1
    case BadExpiry => 2
    case BadCvv => 3
    case BadHolder => 4
    case Expired => 5
  }

  lemma MonthExpiryIsLoose(s: string)
    ensures IsMonthExpiry(s) ==> IsLooseExpiry(s)
  {
  }

  /** The payment guard chain: the first failing check, or None when the card
      may be submitted. Every check before the reported one passed. */
  function CheckCard(f: CardFields, now: Clock, boundedMonth: bool): (r: Option<CardError>)
    ensures r == None <==> forall k: nat :: k <= 5 ==> Holds(k, f, now, boundedMonth)
    ensures r.Some? ==> !Holds(Rank(r.value), f, now, boundedMonth)
    ensures r.Some? ==> forall k: nat :: k < Rank(r.value) ==> Holds(k, f, now, boundedMonth)
  {
    MonthExpiryIsLoose(f.expiry);
    if !Holds(0, f, now, boundedMonth) then Some(MissingField)
    else if !Holds(1, f, now, boundedMonth) then Some(BadNumber)
    else if !Holds(2, f, now, boundedMonth) then Some(BadExpiry)
    else if !Holds(3, f, now, boundedMonth) then Some(BadCvv)
    else if !Holds(4, f, now, boundedMonth) then Some(BadHolder)
    else if !Holds(5, f, now, boundedMonth) then Some(Expired)
    else None
  }

  /** A well-formed card whose expiry month is before the current month is
      always turned away, on either page. */
  lemma {:induction false} EarlierMonthRejected(f: CardFields, now: Clock, boundedMonth: bool)
    requires forall k: nat :: k < 5 ==> Holds(k, f, now, boundedMonth)
    requires IsLooseExpiry(f.expiry) && ExpiryMonth(f.expiry) < now.month
    ensures CheckCard(f, now, boundedMonth) == Some(Expired)
  {
    assert Holds(0, f, now, boundedMonth) && Holds(1, f, now, boundedMonth) && Holds(2, f, now, boundedMonth);
    assert Holds(3, f, now, boundedMonth) && Holds(4, f, now, boundedMonth);
  }

  /** A card expiring this month is turned away once the month's first
      millisecond has passed, although it is valid to the month's end. */
  lemma {:induction false} OwnMonthRejected(f: CardFields, now: Clock, boundedMonth: bool)
    requires forall k: nat :: k < 5 ==> Holds(k, f, now, boundedMonth)
    requires IsLooseExpiry(f.expiry) && ExpiryMonth(f.expiry) == now.month && now.msIntoMonth > 0
    ensures CheckCard(f, now, boundedMonth) == Some(Expired)
  {
    assert Holds(0, f, now, boundedMonth) && Holds(1, f, now, boundedMonth) && Holds(2, f, now, boundedMonth);
    assert Holds(3, f, now, boundedMonth) && Holds(4, f, now, boundedMonth);
  }

  /** The bounded pattern is the loose one restricted to months 01..12. */
  lemma MonthExpiryIff(s: string)
    ensures IsMonthExpiry(s) <==> IsLooseExpiry(s) && 1 <= ExpiryMM(s) <= 12
  {
  }

  /** The dashboard takes "13/30" as a well-formed expiry (read as January 2031);
      the packages page refuses it at the pattern. */
  lemma MonthThirteenOnlyLoose()
    ensures IsLooseExpiry("13/30") && !IsMonthExpiry("13/30")
    ensures ExpiryMonth("13/30") == 2031 * 12
  {
  }

  // ---- last four -----------------------------------------------------------

  /** `s.replace(/\s/g, '')` */
  function RemoveSpaces(s: string): (r: string)
    ensures |r| <= |s|
  {
    if s == [] then [] else (if IsJsSpace(s[0]) then [] else [s[0]]) + RemoveSpaces(s[1..])
  }

  /** `cardNumber.slice(-4).replace(/\s/g, '')` */
  function LastFour(card: string): string
  {
    RemoveSpaces(if |card| <= 4 then card else card[|card| - 4..])
  }

  lemma {:induction false} RemoveSpacesNoSpace(s: string)
    requires forall i :: 0 <= i < |s| ==> !IsJsSpace(s[i])
    ensures RemoveSpaces(s) == s
  {
    if s != [] { RemoveSpacesNoSpace(s[1..]); }
  }

  /** Of a well-formed card number, the last four are exactly its last four digits. */
  lemma LastFourOfCard(card: string)
    requires IsCardNumber(card)
    ensures LastFour(card) == card[15..] && |LastFour(card)| == 4 && AllDigits(LastFour(card))
    ensures var d := DigitsOf(card); |d| >= 4 && d[|d| - 4..] == LastFour(card)
  {
    var tail := card[15..];
    assert forall i :: 0 <= i < 4 ==> tail[i] == card[15 + i];
    assert AllDigits(tail);
    RemoveSpacesNoSpace(tail);
    assert card == card[..15] + tail;
    DigitsOfAppend(card[..15], tail);
    DigitsOfDigits(tail);
  }

  // ---- formatters ------------------------------------------------------------

  /** `digits.replace(/(\d{4})/g, '$1 ')`: a space after every complete group of four. */
  function Grouped(d: string): string
  {
    if |d| < 4 then d else d[..4] + " " + Grouped(d[4..])
  }

  /** Groups of four digits separated by single spaces, the last group 1..4 long. */
  function Spaced(d: string): string
  {
    if |d| <= 4 then d else d[..4] + " " + Spaced(d[4..])
  }

  /** formatCardNumber */
  function FormatCardNumber(v: string): string
  {
    JsTrim(Grouped(DigitsOf(RemoveSpaces(v))))
  }

  lemma {:induction false} DigitsOfRemoveSpaces(s: string)
    ensures DigitsOf(RemoveSpaces(s)) == DigitsOf(s)
  {
    if s != [] {
      DigitsOfRemoveSpaces(s[1..]);
      var h := if IsJsSpace(s[0]) then [] else [s[0]];
      DigitsOfAppend(h, RemoveSpaces(s[1..]));
    }
  }

  lemma {:induction false} GroupedIsSpaced(d: string)
    ensures Grouped(d) == Spaced(d) + (if |d| > 0 && |d| % 4 == 0 then " " else "")
  {
    if |d| > 4 { GroupedIsSpaced(d[4..]); }
  }

  lemma {:induction false} SpacedEnds(d: string)
    requires d != []
    ensures Spaced(d) != [] && Spaced(d)[0] == d[0] && Spaced(d)[|Spaced(d)| - 1] == d[|d| - 1]
  {
    if |d| > 4 { SpacedEnds(d[4..]); }
  }

  /** The shape of the formatted number: a space at every fifth position, a digit
      everywhere else, never a trailing space. */
  lemma {:induction false} SpacedShape(d: string)
    requires AllDigits(d)
    ensures |Spaced(d)| == if d == [] then 0 else |d| + (|d| - 1) / 4
    ensures forall i :: 0 <= i < |Spaced(d)| ==> if i % 5 == 4 then Spaced(d)[i] == ' ' else IsDigit(Spaced(d)[i])
  {
    if |d| > 4 {
      var rest := Spaced(d[4..]);
      SpacedShape(d[4..]);
      assert Spaced(d) == d[..4] + " " + rest;
      forall i | 0 <= i < |Spaced(d)|
        ensures if i % 5 == 4 then Spaced(d)[i] == ' ' else IsDigit(Spaced(d)[i])
      {
        if i >= 5 { assert Spaced(d)[i] == rest[i - 5]; }
      }
    }
  }

  lemma {:induction false} DigitsOfSpaced(d: string)
    requires AllDigits(d)
    ensures DigitsOf(Spaced(d)) == d
  {
    if |d| <= 4 {
      DigitsOfDigits(d);
    } else {
      DigitsOfSpaced(d[4..]);
      DigitsOfAppend(d[..4] + " ", Spaced(d[4..]));
      DigitsOfAppend(d[..4], " ");
      DigitsOfDigits(d[..4]);
      assert d == d[..4] + d[4..];
    }
  }

  /** The formatted number is the input's digits, grouped. */
  lemma {:induction false} FormatCardNumberSpaced(v: string)
    ensures FormatCardNumber(v) == Spaced(DigitsOf(v))
  {
    var d := DigitsOf(RemoveSpaces(v));
    DigitsOfRemoveSpaces(v);
    GroupedIsSpaced(d);
    if d != [] {
      SpacedEnds(d);
      var s := Spaced(d);
      assert !IsJsSpace(s[0]) && !IsJsSpace(s[|s| - 1]);
      if |d| % 4 == 0 {
        assert (s + " ")[0] == s[0];
        assert TrimStart(s + " ") == s + " ";
        assert (s + " ")[..|s|] == s;
        assert TrimEnd(s + " ") == TrimEnd(s);
      } else {
        assert TrimStart(s) == s;
      }
    }
  }

  /** formatCardNumber is idempotent: formatting its own output changes nothing. */
  lemma {:induction false} FormatCardNumberIdempotent(v: string)
    ensures FormatCardNumber(FormatCardNumber(v)) == FormatCardNumber(v)
  {
    var d := DigitsOf(v);
    FormatCardNumberSpaced(v);
    FormatCardNumberSpaced(Spaced(d));
    DigitsOfSpaced(d);
  }

  /** Sixteen digits typed in any layout format to a number the card pattern accepts. */
  lemma {:induction false} SixteenDigitsFormatToCard(v: string)
    requires |DigitsOf(v)| == 16
    ensures IsCardNumber(FormatCardNumber(v))
  {
    FormatCardNumberSpaced(v);
    SpacedShape(DigitsOf(v));
  }

  function Min(a: int, b: int): int { if a <= b then a else b }

  /** formatExpiryDate: the digits, and once there are two of them `MM/` followed by
      at most two more. */
  function FormatExpiry(v: string): (r: string)
    ensures |r| <= 5 || r == DigitsOf(v)
  {
    var d := DigitsOf(v);
    if |d| >= 2 then d[..2] + "/" + d[2..Min(4, |d|)] else d
  }

  lemma {:induction false} FormatExpiryIdempotent(v: string)
    ensures FormatExpiry(FormatExpiry(v)) == FormatExpiry(v)
  {
    var d := DigitsOf(v);
    if |d| >= 2 {
      var m := Min(4, |d|);
      DigitsOfAppend(d[..2] + "/", d[2..m]);
      DigitsOfAppend(d[..2], "/");
      AllDigitsSlice(d, 0, 2);
      AllDigitsSlice(d, 2, m);
      DigitsOfDigits(d[..2]);
      DigitsOfDigits(d[2..m]);
      assert d[..2] + d[2..m] == d[..m];
    } else {
      DigitsOfDigits(d);
    }
  }

  lemma AllDigitsSlice(d: string, i: int, j: int)
    requires AllDigits(d) && 0 <= i <= j <= |d|
    ensures AllDigits(d[i..j])
  {
    assert forall k :: 0 <= k < j - i ==> d[i..j][k] == d[i + k];
  }

  /** Four or more digits format to a value the dashboard's expiry pattern accepts. */
  lemma FormatExpiryShape(v: string)
    requires |DigitsOf(v)| >= 4
    ensures IsLooseExpiry(FormatExpiry(v))
  {
    var d := DigitsOf(v);
    assert FormatExpiry(v) == [d[0], d[1], '/', d[2], d[3]];
  }

  /** formatCVV: at most the first four digits. */
  function FormatCvv(v: string): (r: string)
    ensures |r| <= 4 && AllDigits(r)
    ensures r == DigitsOf(v)[..Min(4, |DigitsOf(v)|)]
  {
    var d := DigitsOf(v);
    AllDigitsSlice(d, 0, Min(4, |d|));
    d[..Min(4, |d|)]
  }

  lemma FormatCvvIdempotent(v: string)
    ensures FormatCvv(FormatCvv(v)) == FormatCvv(v)
    ensures IsCvv(FormatCvv(v)) <==> |DigitsOf(v)| >= 3
  {
    DigitsOfDigits(FormatCvv(v));
  }
}
