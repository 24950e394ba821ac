// The insurance service: policies kept by id, issued ACTIVE with a policy
// number taken from the clock, overwritten field by field, cancelled, renewed a
// year at a time, and the three fixed quotes offered for a booking that exists.
module InsuranceService {
  import opened Common
  import opened Table
  import opened Http

  // ---- calendar dates -------------------------------------------------------

  /** The Gregorian leap-year rule `LocalDate` follows (the zero tests do not
      depend on the sign convention of the remainder). */
  predicate IsLeap(y: int) { y % 4 == 0 && (y % 100 != 0 || y % 400 == 0) }

  function DaysInMonth(y: int, m: int): (n: int)
    requires 1 <= m <= 12
    ensures 28 <= n <= 31
    ensures m == 2 ==> (n == 29 <==> IsLeap(y))
  {
    if m == 2 then (if IsLeap(y) then 29 else 28)
    else if m == 4 || m == 6 || m == 9 || m == 11 then 30
    else 31
  }

  datatype YearMonthDay = YearMonthDay(year: int, month: int, day: int)

  /** A `LocalDate`: a year, a month from 1 to 12 and a day of that month. */
  type Date = d: YearMonthDay | 1 <= d.month <= 12 && 1 <= d.day <= DaysInMonth(d.year, d.month)
    witness YearMonthDay(2000, 1, 1)

  /** Calendar order. */
  predicate Before(a: Date, b: Date)
  {
    a.year < b.year || (a.year == b.year && (a.month < b.month || (a.month == b.month && a.day < b.day)))
  }

  /** `plusYears(1)`: the same month and day one year later, except that 29
      February becomes 28 February when the next year is not a leap year. */
  function PlusOneYear(d: Date): (r: Date)
    ensures r.year == d.year + 1 && r.month == d.month
    ensures r.day != d.day <==> d.month == 2 && d.day == 29 && !IsLeap(d.year + 1)
    ensures r.day != d.day ==> r.day == 28
  {
    var day := if d.month == 2 && d.day == 29 && !IsLeap(d.year + 1) then 28 else d.day;
    YearMonthDay(d.year + 1, d.month, day)
  }

  /** A renewed end date always lies after the old one. */
  lemma RenewalExtends(d: Date)
    ensures Before(d, PlusOneYear(d))
  {
  }

  /** 29 February 2024 renews to 28 February 2025. */
  lemma LeapDayRenewal()
    ensures PlusOneYear(YearMonthDay(2024, 2, 29)) == YearMonthDay(2025, 2, 28)
  {
    assert !IsLeap(2025);
  }

  // ---- policies -------------------------------------------------------------

  /** A policy; the entity and its transfer object carry the same fields and
      `toDto`/`toEntity` copy every one, so one datatype serves both. Money is
      in cents. */
  datatype Insurance = Insurance(insuranceId: Option<int>, userId: Option<int>, bookingId: Option<int>,
                                 policyType: Option<string>, policyNumber: Option<string>,
                                 premium: Option<int>, coverageAmount: Option<int>,
                                 startDate: Option<Date>, endDate: Option<Date>,
                                 status: Option<string>, coverageDetails: Option<string>)

  function NotFound(id: int): string { "Insurance not found with id: " + IntToString(id) }

  /** Renewing a policy without an end date dereferences null. */
  const NullEndDate := "NullPointerException"

  const PolicyPrefix := "POL-"

  /** `"POL-" + System.currentTimeMillis()` */
  function PolicyNumber(nowMs: int): (r: string)
    ensures StartsWith(r, PolicyPrefix)
    ensures ParseLong(r[|PolicyPrefix|..]) == Some(nowMs)
  {
    var r := PolicyPrefix + IntToString(nowMs);
    assert r[|PolicyPrefix|..] == IntToString(nowMs);
    ParseLongOfIntToString(nowMs);
    r
  }

  /** Different clock readings give different policy numbers. */
  lemma PolicyNumbersDiffer(t1: int, t2: int)
    requires t1 != t2
    ensures PolicyNumber(t1) != PolicyNumber(t2)
  {
  }

  /** The six fields an update copies from the body; null copies as null. */
  function Overwritten(e: Insurance, d: Insurance): (r: Insurance)
    ensures r.insuranceId == e.insuranceId && r.userId == e.userId && r.bookingId == e.bookingId
    ensures r.status == e.status && r.policyNumber == e.policyNumber
    ensures r.policyType == d.policyType && r.premium == d.premium && r.coverageAmount == d.coverageAmount
    ensures r.startDate == d.startDate && r.endDate == d.endDate && r.coverageDetails == d.coverageDetails
  {
    e.(policyType := d.policyType, premium := d.premium, coverageAmount := d.coverageAmount,
       startDate := d.startDate, endDate := d.endDate, coverageDetails := d.coverageDetails)
  }

  /** Only the last of two updates shows, so repeating an update changes nothing. */
  lemma LastUpdateWins(e: Insurance, d1: Insurance, d2: Insurance)
    ensures Overwritten(Overwritten(e, d1), d2) == Overwritten(e, d2)
    ensures Overwritten(Overwritten(e, d2), d2) == Overwritten(e, d2)
  {
  }

  /** An update never touches the cancellation state of a policy. */
  lemma UpdateKeepsStatus(e: Insurance, d: Insurance)
    requires e.status == Some("CANCELLED")
    ensures Overwritten(e, d).status == Some("CANCELLED")
  {
  }

  // ---- quotes ---------------------------------------------------------------

  const Basic := "BASIC"
  const Premium := "PREMIUM"
  const Comprehensive := "COMPREHENSIVE"

  /** The benefits of a policy type; an unknown type has none. */
  function Benefits(policyType: string): (r: seq<string>)
    ensures policyType == Basic ==> |r| == 3
    ensures policyType == Premium ==> |r| == 5
    ensures policyType == Comprehensive ==> |r| == 7
    ensures r != [] <==> policyType == Basic || policyType == Premium || policyType == Comprehensive
  {
    var all := ["Trip cancellation", "Medical emergencies", "Lost luggage", "Trip delay",
                "Flight cancellation", "Adventure sports", "Pre-existing conditions"];
    if policyType == Basic then all[..3]
    else if policyType == Premium then all[..5]
    else if policyType == Comprehensive then all
    else []
  }

  /** Each richer policy keeps every benefit of the one below it, in order. */
  lemma BenefitsNested()
    ensures Benefits(Basic) == Benefits(Premium)[..3]
    ensures Benefits(Premium) == Benefits(Comprehensive)[..5]
  {
  }

  /** One quote; premium and coverage in cents. */
  datatype Quote = Quote(policyType: string, premium: int, coverageAmount: int, benefits: seq<string>)

  function MakeQuote(policyType: string, premium: int, coverage: int): (q: Quote)
    ensures q.policyType == policyType && q.benefits == Benefits(policyType)
    ensures q.premium == premium && q.coverageAmount == coverage
  {
    Quote(policyType, premium, coverage, Benefits(policyType))
  }

  /** getInsuranceQuotes: the three fixed quotes when the booking service
      answers with a body, none when it does not or the call throws. */
  function Quotes(booking: Fetch<JsonObject>): (r: seq<Quote>)
    ensures booking.Answered? ==> |r| == 3
    ensures !booking.Answered? ==> r == []
    ensures forall i :: 0 <= i < |r| ==> r[i].benefits == Benefits(r[i].policyType) && r[i].benefits != []
    ensures |r| == 3 ==> r[0].policyType == Basic && r[0].premium == 5000 && r[0].coverageAmount == 1000000
                         && r[1].policyType == Premium && r[1].premium == 10000 && r[1].coverageAmount == 2500000
                         && r[2].policyType == Comprehensive && r[2].premium == 20000 && r[2].coverageAmount == 5000000
  {
    if booking.Answered? then
      [MakeQuote(Basic, 5000, 1000000), MakeQuote(Premium, 10000, 2500000),
       MakeQuote(Comprehensive, 20000, 5000000)]
    else []
  }

  /** Down the list of quotes the premium, the coverage and the benefits all
      grow, and each quote's benefits extend the previous one's. */
  lemma QuotesGrow(booking: Fetch<JsonObject>, i: int)
    requires 0 <= i < |Quotes(booking)| - 1
    ensures Quotes(booking)[i].premium < Quotes(booking)[i + 1].premium
    ensures Quotes(booking)[i].coverageAmount < Quotes(booking)[i + 1].coverageAmount
    ensures |Quotes(booking)[i].benefits| < |Quotes(booking)[i + 1].benefits|
    ensures Quotes(booking)[i].benefits == Quotes(booking)[i + 1].benefits[..|Quotes(booking)[i].benefits|]
  {
    BenefitsNested();
  }

  // ---- enriched views -------------------------------------------------------

  /** A policy with the "booking" entry of its map: None when no entry was put,
      Some(None) when it was put as null. */
  datatype PolicyWithBooking = PolicyWithBooking(insurance: Insurance, booking: Option<Option<JsonObject>>)

  /** One policy of getUserInsuranceWithBookingDetails: the booking's data when
      the answer has a body, nothing when it has none, null when the call throws. */
  function WithBooking(p: Insurance, bookingOf: Option<int> -> Fetch<JsonObject>): (r: PolicyWithBooking)
    ensures r.insurance == p
    ensures bookingOf(p.bookingId).Answered? ==> r.booking == Some(bookingOf(p.bookingId).data)
    ensures bookingOf(p.bookingId).BadAnswer? ==> r.booking.None?
    ensures bookingOf(p.bookingId).Threw? ==> r.booking == Some(None)
  {
    match bookingOf(p.bookingId)
    case Answered(data) => PolicyWithBooking(p, Some(data))
    case BadAnswer => PolicyWithBooking(p, None)
    case Threw => PolicyWithBooking(p, Some(None))
  }

  /** The map of getInsuranceWithBookingAndUserDetails: each entry is None when
      it was not put; `error` is put once anything throws, and the entries put
      before the exception stay. */
  datatype PolicyDetails = PolicyDetails(insurance: Option<Insurance>, booking: Option<Option<JsonObject>>,
                                         user: Option<Option<JsonObject>>, error: Option<string>)

  const DetailsFailed := "Failed to fetch insurance details"

  /** What a 2xx answer with a body puts; nothing otherwise. */
  function Put(f: Fetch<JsonObject>): Option<Option<JsonObject>>
  {
    if f.Answered? then Some(f.data) else None
  }

  class InsuranceStore {
    var rows: map<int, Insurance>
    var nextId: int

    /** Keys run from 1 below the next id, and every row carries its own key. */
    ghost predicate Valid()
      reads this
    {
      nextId >= 1 && forall k :: k in rows ==> 1 <= k < nextId && rows[k].insuranceId == Some(k)
    }

    constructor ()
      ensures Valid() && rows == map[] && nextId == 1
    {
      rows := map[];
      nextId := 1;
    }

    /** getAllInsurance: every stored policy, in id order. */
    function All(): (r: seq<Insurance>)
      reads this
      ensures forall p :: p in r ==> p in rows.Values
      ensures forall k :: k in rows && 1 <= k < nextId ==> rows[k] in r
    {
      Listing(rows, nextId)
    }

    /** getInsuranceById: the not-found exception for an unknown id. */
    function ById(id: int): (r: Result<Insurance>)
      reads this
      ensures r.Ok? <==> id in rows
      ensures r.Ok? ==> r.value == rows[id]
      ensures r.Err? ==> r.error == NotFound(id)
    {
      if id in rows then Ok(rows[id]) else Err(NotFound(id))
    }

    /** getInsuranceByUserId: exactly the user's policies. */
    function ByUser(userId: int): (r: seq<Insurance>)
      reads this
      ensures forall p :: p in r ==> p in rows.Values && p.userId == Some(userId)
      ensures forall k :: k in rows && 1 <= k < nextId && rows[k].userId == Some(userId) ==> rows[k] in r
    {
      Filter(All(), (p: Insurance) => p.userId == Some(userId))
    }

    /** getInsuranceByBookingId: exactly the booking's policies. */
    function ByBooking(bookingId: int): (r: seq<Insurance>)
      reads this
      ensures forall p :: p in r ==> p in rows.Values && p.bookingId == Some(bookingId)
      ensures forall k :: k in rows && 1 <= k < nextId && rows[k].bookingId == Some(bookingId) ==> rows[k] in r
    {
      Filter(All(), (p: Insurance) => p.bookingId == Some(bookingId))
    }

    /** createInsurance: issued ACTIVE under a policy number from the clock,
        whatever the body said; saved under its own id when that id is stored,
        a new one otherwise. */
    method Create(dto: Insurance, nowMs: int) returns (r: Insurance)
      requires Valid()
      modifies this
      ensures Valid()
      ensures var key := SaveKey(old(rows), old(nextId), dto.insuranceId);
              r == dto.(insuranceId := Some(key), policyNumber := Some(PolicyNumber(nowMs)), status := Some("ACTIVE"))
              && rows == old(rows)[key := r]
              && nextId == (if key == old(nextId) then old(nextId) + 1 else old(nextId))
      ensures StartsWith(r.policyNumber.value, PolicyPrefix)
    {
      var key := SaveKey(rows, nextId, dto.insuranceId);
      r := dto.(insuranceId := Some(key), policyNumber := Some(PolicyNumber(nowMs)), status := Some("ACTIVE"));
      rows := rows[key := r];
      if key == nextId {
        nextId := nextId + 1;
      }
    }

    /** updateInsurance: the six copied fields; unknown ids throw. */
    method Update(id: int, dto: Insurance) returns (r: Result<Insurance>)
      requires Valid()
      modifies this
      ensures Valid() && nextId == old(nextId)
      ensures r.Ok? <==> id in old(rows)
      ensures r.Ok? ==> r.value == Overwritten(old(rows)[id], dto) && rows == old(rows)[id := r.value]
      ensures r.Err? ==> r.error == NotFound(id) && rows == old(rows)
    {
      if id !in rows {
        return Err(NotFound(id));
      }
      var p := Overwritten(rows[id], dto);
      rows := rows[id := p];
      r := Ok(p);
    }

    /** deleteInsurance: unknown ids throw. */
    method Delete(id: int) returns (r: Result<()>)
      requires Valid()
      modifies this
      ensures Valid() && nextId == old(nextId)
      ensures r.Ok? <==> id in old(rows)
      ensures r.Ok? ==> rows == old(rows) - {id}
      ensures r.Err? ==> r.error == NotFound(id) && rows == old(rows)
    {
      if id !in rows {
        return Err(NotFound(id));
      }
      rows := rows - {id};
      r := Ok(());
    }

    /** cancelInsurance: the status becomes CANCELLED and nothing else changes. */
    method Cancel(id: int) returns (r: Result<Insurance>)
      requires Valid()
      modifies this
      ensures Valid() && nextId == old(nextId)
      ensures r.Ok? <==> id in old(rows)
      ensures r.Ok? ==> r.value == old(rows)[id].(status := Some("CANCELLED")) && rows == old(rows)[id := r.value]
      ensures r.Err? ==> r.error == NotFound(id) && rows == old(rows)
    {
      if id !in rows {
        return Err(NotFound(id));
      }
      var p := rows[id].(status := Some("CANCELLED"));
      rows := rows[id := p];
      r := Ok(p);
    }

    /** renewInsurance: the end date moves a year on and the policy is ACTIVE
        again, even a cancelled one; unknown ids throw, and so does a policy
        without an end date. */
    method Renew(id: int) returns (r: Result<Insurance>)
      requires Valid()
      modifies this
      ensures Valid() && nextId == old(nextId)
      ensures r.Ok? <==> id in old(rows) && old(rows)[id].endDate.Some?
      ensures r.Ok? ==> r.value == old(rows)[id].(endDate := Some(PlusOneYear(old(rows)[id].endDate.value)),
                                                  status := Some("ACTIVE"))
                        && rows == old(rows)[id := r.value]
      ensures id !in old(rows) ==> r == Err(NotFound(id)) && rows == old(rows)
      ensures id in old(rows) && old(rows)[id].endDate.None? ==> r == Err(NullEndDate) && rows == old(rows)
    {
      if id !in rows {
        return Err(NotFound(id));
      }
      var p := rows[id];
      if p.endDate.None? {
        return Err(NullEndDate);
      }
      p := p.(endDate := Some(PlusOneYear(p.endDate.value)), status := Some("ACTIVE"));
      rows := rows[id := p];
      r := Ok(p);
    }

    /** getInsuranceWithBookingAndUserDetails */
    function Details(id: int, bookingOf: Option<int> -> Fetch<JsonObject>, userOf: Option<int> -> Fetch<JsonObject>)
      : (r: PolicyDetails)
      reads this
      ensures id !in rows ==> r == PolicyDetails(None, None, None, Some(DetailsFailed))
      ensures id in rows ==> r.insurance == Some(rows[id])
      ensures id in rows && bookingOf(rows[id].bookingId).Threw? ==>
                r.booking.None? && r.user.None? && r.error == Some(DetailsFailed)
      ensures (id in rows && !bookingOf(rows[id].bookingId).Threw?) ==>
                r.booking == Put(bookingOf(rows[id].bookingId))
                && r.user == Put(userOf(rows[id].userId))
                && (r.error.Some? <==> userOf(rows[id].userId).Threw?)
    {
      if id !in rows then PolicyDetails(None, None, None, Some(DetailsFailed))
      else
        var p := rows[id];
        var b := bookingOf(p.bookingId);
        if b.Threw? then PolicyDetails(Some(p), None, None, Some(DetailsFailed))
        else
          var u := userOf(p.userId);
          if u.Threw? then PolicyDetails(Some(p), Put(b), None, Some(DetailsFailed))
          else PolicyDetails(Some(p), Put(b), Put(u), None)
    }
  }

  /** getUserInsuranceWithBookingDetails: the user's policies in order, each
      with its booking entry. */
  method UserPoliciesWithBookings(store: InsuranceStore, userId: int, bookingOf: Option<int> -> Fetch<JsonObject>)
    returns (r: seq<PolicyWithBooking>)
    ensures |r| == |store.ByUser(userId)|
    ensures forall i :: 0 <= i < |r| ==> r[i] == WithBooking(store.ByUser(userId)[i], bookingOf)
    ensures forall i :: 0 <= i < |r| ==> r[i].insurance.userId == Some(userId)
  {
    var policies := store.ByUser(userId);
    r := [];
    var i := 0;
    while i < |policies|
      invariant 0 <= i <= |policies|
      invariant |r| == i
      invariant forall j :: 0 <= j < i ==> r[j] == WithBooking(policies[j], bookingOf)
    {
      r := r + [WithBooking(policies[i], bookingOf)];
      i := i + 1;
    }
    assert forall j :: 0 <= j < |r| ==> policies[j] in policies;
  }
}
