// The package service: travel packages kept by id, the agent's own list, a
// package with its bookings, and the agent statistics gathered package by
// package from the booking, user and payment services.
module PackageService {
  import opened Common
  import opened Table
  import opened Http
  import opened PackageMapper

  function NotFound(id: int): string { "Package not found with id: " + IntToString(id) }

  const DetailsFailed := "Failed to fetch package details"

  /** The transfer record of a stored package. */
  function Dto(p: TravelPackage): (d: TravelPackageDto)
    ensures ToEntity(Some(d)) == Some(p)
  {
    ToDto(Some(p)).value
  }

  /** `"confirmed".equals(b.get("status"))` */
  predicate IsConfirmed(b: JsonObject) { Field(b, "status") == JStr("confirmed") }

  /** `filter(confirmed).count()` */
  function ConfirmedCount(bs: seq<JsonObject>): (n: nat)
    ensures n <= |bs|
    ensures n == |Filter(bs, IsConfirmed)|
  {
    Count(bs, IsConfirmed)
  }

  // ---- a package with its bookings -------------------------------------

  /** The map `getPackageWithBookingDetails` returns, one field per key, None
      where the key was never put. The bookings entry is Some(None) when it was
      put as null. */
  datatype PackageDetails = PackageDetails(package: Option<TravelPackageDto>,
                                           bookings: Option<Option<seq<JsonObject>>>,
                                           totalBookings: Option<nat>, confirmedBookings: Option<nat>,
                                           error: Option<string>)

  // ---- agent statistics ------------------------------------------------

  /** The "agent" entry: the user service's data, or the placeholder. */
  datatype AgentEntry = AgentData(data: Option<JsonObject>) | AgentFallback(name: string, id: int)

  /** The "userInfo" entry: the user service's data, or 'Unknown User'. */
  datatype UserEntry = UserData(data: Option<JsonObject>) | UnknownUser(id: int)

  /** The "paymentInfo" entry: the payment service's data, or status 'UNKNOWN'
      with amount 0. */
  datatype PaymentEntry = PaymentData(data: JsonObject) | UnknownPayment

  /** A booking copied and enriched with its package and, when the booking
      names them, its user and payment. */
  datatype EnrichedBooking = EnrichedBooking(booking: JsonObject, packageInfo: TravelPackageDto,
                                             userInfo: Option<UserEntry>, paymentInfo: Option<PaymentEntry>)

  /** The statistics map (the revenue entry is not modelled). */
  datatype AgentStatistics = AgentStatistics(packages: seq<TravelPackageDto>, totalPackages: int, agent: AgentEntry,
                                             totalBookings: int, totalConfirmedBookings: int,
                                             pendingBookings: int, bookings: seq<EnrichedBooking>)

  function AgentEntryOf(agentId: int, f: Fetch<JsonObject>): (a: AgentEntry)
    ensures f.Answered? <==> a.AgentData?
    ensures !f.Answered? ==> a == AgentFallback("Agent " + IntToString(agentId), agentId)
  {
    if f.Answered? then AgentData(f.data) else AgentFallback("Agent " + IntToString(agentId), agentId)
  }

  /** The user lookup of a booking: any failure gives the placeholder. */
  function UserInfo(userId: int, f: Fetch<JsonObject>): (u: UserEntry)
    ensures f.Answered? <==> u.UserData?
    ensures !f.Answered? ==> u == UnknownUser(userId)
  {
    if f.Answered? then UserData(f.data) else UnknownUser(userId)
  }

  /** The payment lookup of a booking. An answer puts its data, but a null data
      entry or a status that is not a string throws on the status read, and the
      handler replaces the entry with the placeholder; an answer that is not 2xx
      puts nothing. */
  function PaymentInfo(f: Fetch<JsonObject>): (p: Option<PaymentEntry>)
    ensures p.None? <==> f.BadAnswer?
    ensures f.Threw? ==> p == Some(UnknownPayment)
    ensures p.Some? && p.value.PaymentData? <==>
              f.Answered? && f.data.Some? && (Field(f.data.value, "status").JStr? || Field(f.data.value, "status").JNull?)
  {
    match f
    case BadAnswer => None
    case Threw => Some(UnknownPayment)
    case Answered(data) =>
      if data.None? then Some(UnknownPayment)
      else
        var status := Field(data.value, "status");
        if status.JStr? || status.JNull? then Some(PaymentData(data.value)) else Some(UnknownPayment)
  }

  /** One pass of the inner loop: a "userId" or "paymentId" that is neither
      null nor a number throws out of the loop (Err). */
  function EnrichBooking(b: JsonObject, pkg: TravelPackageDto, users: int -> Fetch<JsonObject>,
                         payments: int -> Fetch<JsonObject>): (r: Result<EnrichedBooking>)
    ensures r.Ok? <==> NumberOrNull(Field(b, "userId")).Ok? && NumberOrNull(Field(b, "paymentId")).Ok?
    ensures r.Ok? ==> r.value.booking == b && r.value.packageInfo == pkg
    ensures r.Ok? ==> (r.value.userInfo.Some? <==> Field(b, "userId").JNum?)
    ensures r.Ok? ==> (r.value.paymentInfo.Some? ==> Field(b, "paymentId").JNum?)
  {
    var userId := NumberOrNull(Field(b, "userId"));
    var paymentId := NumberOrNull(Field(b, "paymentId"));
    if userId.Err? || paymentId.Err? then Err("ClassCastException")
    else
      var user := if userId.value.Some? then Some(UserInfo(userId.value.value, users(userId.value.value))) else None;
      var payment := if paymentId.value.Some? then PaymentInfo(payments(paymentId.value.value)) else None;
      Ok(EnrichedBooking(b, pkg, user, payment))
  }

  /** The index of the first booking whose enrichment throws, or the length
      when none does. */
  function FirstFailure(bs: seq<JsonObject>, pkg: TravelPackageDto, users: int -> Fetch<JsonObject>,
                        payments: int -> Fetch<JsonObject>): (n: nat)
    ensures n <= |bs|
    ensures forall k :: 0 <= k < n ==> EnrichBooking(bs[k], pkg, users, payments).Ok?
    ensures n < |bs| ==> EnrichBooking(bs[n], pkg, users, payments).Err?
  {
    if bs == [] || EnrichBooking(bs[0], pkg, users, payments).Err? then 0
    else
      var n := 1 + FirstFailure(bs[1..], pkg, users, payments);
      assert forall k :: 1 <= k < |bs| ==> bs[k] == bs[1..][k - 1];
      n
  }

  /** The enrichments of the first `n` bookings, none of which throws. */
  function EnrichedPrefix(bs: seq<JsonObject>, n: nat, pkg: TravelPackageDto, users: int -> Fetch<JsonObject>,
                          payments: int -> Fetch<JsonObject>): (r: seq<EnrichedBooking>)
    requires n <= FirstFailure(bs, pkg, users, payments)
    ensures |r| == n
    ensures forall k :: 0 <= k < n ==> Ok(r[k]) == EnrichBooking(bs[k], pkg, users, payments)
  {
    seq(n, k requires 0 <= k < n => EnrichBooking(bs[k], pkg, users, payments).value)
  }

  /** What one package adds: the bookings enriched before any throw, and its
      counts only when the whole list went through. */
  datatype Tally = Tally(bookings: seq<EnrichedBooking>, total: nat, confirmed: nat)

  function PackageTally(pkg: TravelPackageDto, bookingsOf: Option<int> -> Fetch<seq<JsonObject>>,
                        users: int -> Fetch<JsonObject>, payments: int -> Fetch<JsonObject>): (t: Tally)
    ensures t.confirmed <= t.total <= |t.bookings|
    ensures !(bookingsOf(pkg.packageId).Answered? && bookingsOf(pkg.packageId).data.Some?) ==> t == Tally([], 0, 0)
  {
    var f := bookingsOf(pkg.packageId);
    if f.Answered? && f.data.Some? then
      var bs := f.data.value;
      var n := FirstFailure(bs, pkg, users, payments);
      if n == |bs| then Tally(EnrichedPrefix(bs, n, pkg, users, payments), |bs|, ConfirmedCount(bs))
      else Tally(EnrichedPrefix(bs, n, pkg, users, payments), 0, 0)
    else Tally([], 0, 0)
  }

  /** The tallies of the packages in order, added up. */
  function Tallies(pkgs: seq<TravelPackageDto>, bookingsOf: Option<int> -> Fetch<seq<JsonObject>>,
                   users: int -> Fetch<JsonObject>, payments: int -> Fetch<JsonObject>): Tally
  {
    if pkgs == [] then Tally([], 0, 0)
    else
      var init := Tallies(pkgs[..|pkgs| - 1], bookingsOf, users, payments);
      var last := PackageTally(pkgs[|pkgs| - 1], bookingsOf, users, payments);
      Tally(init.bookings + last.bookings, init.total + last.total, init.confirmed + last.confirmed)
  }

  /** The tallies of one more package add that package's tally. */
  lemma TallyStep(pkgs: seq<TravelPackageDto>, i: int, bookingsOf: Option<int> -> Fetch<seq<JsonObject>>,
                  users: int -> Fetch<JsonObject>, payments: int -> Fetch<JsonObject>)
    requires 0 <= i < |pkgs|
    ensures var init := Tallies(pkgs[..i], bookingsOf, users, payments);
            var last := PackageTally(pkgs[i], bookingsOf, users, payments);
            Tallies(pkgs[..i + 1], bookingsOf, users, payments)
              == Tally(init.bookings + last.bookings, init.total + last.total, init.confirmed + last.confirmed)
  {
    assert pkgs[..i + 1][..i] == pkgs[..i];
  }

  /** The confirmed count never exceeds the total, and the total never exceeds
      the number of bookings gathered, so the pending figure is never negative. */
  lemma {:induction false} TalliesBounded(pkgs: seq<TravelPackageDto>, bookingsOf: Option<int> -> Fetch<seq<JsonObject>>,
                                          users: int -> Fetch<JsonObject>, payments: int -> Fetch<JsonObject>)
    ensures var t := Tallies(pkgs, bookingsOf, users, payments);
            t.confirmed <= t.total <= |t.bookings|
  {
    if pkgs != [] {
      TalliesBounded(pkgs[..|pkgs| - 1], bookingsOf, users, payments);
    }
  }

  /** A package whose bookings cannot be fetched contributes nothing: the
      statistics are those of the other packages. */
  lemma {:induction false} FailedPackageSkipped(before: seq<TravelPackageDto>, pkg: TravelPackageDto,
                                                after: seq<TravelPackageDto>,
                                                bookingsOf: Option<int> -> Fetch<seq<JsonObject>>,
                                                users: int -> Fetch<JsonObject>, payments: int -> Fetch<JsonObject>)
    requires !(bookingsOf(pkg.packageId).Answered? && bookingsOf(pkg.packageId).data.Some?)
    ensures Tallies(before + [pkg] + after, bookingsOf, users, payments)
         == Tallies(before + after, bookingsOf, users, payments)
    decreases |after|
  {
    var skipped := PackageTally(pkg, bookingsOf, users, payments);
    if after == [] {
      TalliesSnoc(before, pkg, bookingsOf, users, payments);
      var t := Tallies(before, bookingsOf, users, payments);
      assert t.bookings + skipped.bookings == t.bookings;
      assert before + [pkg] + after == before + [pkg];
      assert before + after == before;
    } else {
      var init := after[..|after| - 1];
      var last := after[|after| - 1];
      FailedPackageSkipped(before, pkg, init, bookingsOf, users, payments);
      assert before + [pkg] + after == (before + [pkg] + init) + [last];
      assert before + after == (before + init) + [last];
      SameTalliesSnoc(before + [pkg] + init, before + init, last, bookingsOf, users, payments);
    }
  }

  /** Lists with the same tallies keep them when one package joins both. */
  lemma SameTalliesSnoc(a: seq<TravelPackageDto>, b: seq<TravelPackageDto>, pkg: TravelPackageDto,
                        bookingsOf: Option<int> -> Fetch<seq<JsonObject>>,
                        users: int -> Fetch<JsonObject>, payments: int -> Fetch<JsonObject>)
    requires Tallies(a, bookingsOf, users, payments) == Tallies(b, bookingsOf, users, payments)
    ensures Tallies(a + [pkg], bookingsOf, users, payments) == Tallies(b + [pkg], bookingsOf, users, payments)
  {
    TalliesSnoc(a, pkg, bookingsOf, users, payments);
    TalliesSnoc(b, pkg, bookingsOf, users, payments);
  }

  /** Tallies of a list with one more package at its end. */
  lemma TalliesSnoc(pkgs: seq<TravelPackageDto>, pkg: TravelPackageDto, bookingsOf: Option<int> -> Fetch<seq<JsonObject>>,
                    users: int -> Fetch<JsonObject>, payments: int -> Fetch<JsonObject>)
    ensures var init := Tallies(pkgs, bookingsOf, users, payments);
            var last := PackageTally(pkg, bookingsOf, users, payments);
            Tallies(pkgs + [pkg], bookingsOf, users, payments)
              == Tally(init.bookings + last.bookings, init.total + last.total, init.confirmed + last.confirmed)
  {
    assert (pkgs + [pkg])[..|pkgs + [pkg]| - 1] == pkgs;
    assert (pkgs + [pkg])[|pkgs + [pkg]| - 1] == pkg;
  }

  /** When every fetch answers with a list and no booking throws, every booking
      is gathered and counted. */
  lemma {:induction false} AllAnsweredAllCounted(pkgs: seq<TravelPackageDto>,
                                                 bookingsOf: Option<int> -> Fetch<seq<JsonObject>>,
                                                 users: int -> Fetch<JsonObject>, payments: int -> Fetch<JsonObject>)
    requires forall i :: 0 <= i < |pkgs| ==>
               var f := bookingsOf(pkgs[i].packageId);
               f.Answered? && f.data.Some? && FirstFailure(f.data.value, pkgs[i], users, payments) == |f.data.value|
    ensures var t := Tallies(pkgs, bookingsOf, users, payments);
            t.total == |t.bookings|
  {
    if pkgs != [] {
      var init := pkgs[..|pkgs| - 1];
      assert forall i :: 0 <= i < |init| ==> init[i] == pkgs[i];
      AllAnsweredAllCounted(init, bookingsOf, users, payments);
    }
  }

  class PackageStore {
    var rows: map<int, TravelPackage>
    var nextId: int

    /** Keys run from 1 below the next id, and every row carries its own key. */
    ghost predicate Valid()
      reads this
    {
      nextId >= 1 && forall k :: k in rows ==> 1 <= k < nextId && rows[k].packageId == Some(k)
    }

    constructor ()
      ensures Valid() && rows == map[] && nextId == 1
    {
      rows := map[];
      nextId := 1;
    }

    /** getAllPackages: every stored package, in id order. */
    function All(): (r: seq<TravelPackageDto>)
      reads this
      ensures forall k :: k in rows && 1 <= k < nextId ==> Dto(rows[k]) in r
      ensures forall d :: d in r ==> ToEntity(Some(d)).value in rows.Values
    {
      var s := Listing(rows, nextId);
      var r := seq(|s|, i requires 0 <= i < |s| => Dto(s[i]));
      assert forall k :: k in rows && 1 <= k < nextId ==> Dto(rows[k]) in r by {
        forall k | k in rows && 1 <= k < nextId ensures Dto(rows[k]) in r {
          var i :| 0 <= i < |s| && s[i] == rows[k];
          assert r[i] == Dto(rows[k]);
        }
      }
      assert forall d :: d in r ==> ToEntity(Some(d)).value in rows.Values by {
        forall d | d in r ensures ToEntity(Some(d)).value in rows.Values {
          var i :| 0 <= i < |r| && r[i] == d;
          assert ToEntity(Some(r[i])).value == s[i];
          assert s[i] in s;
        }
      }
      r
    }

    /** getPackageById */
    function ById(id: int): (r: Result<TravelPackageDto>)
      reads this
      ensures r.Ok? <==> id in rows
      ensures r.Ok? ==> ToEntity(Some(r.value)) == Some(rows[id])
      ensures r.Err? ==> r.error == NotFound(id)
    {
      if id in rows then Ok(Dto(rows[id])) else Err(NotFound(id))
    }

    /** getPackagesByAgent: exactly the agent's stored packages, in id order. */
    function ByAgent(agentId: int): (r: seq<TravelPackageDto>)
      requires Valid()
      reads this
      ensures forall d :: d in r ==> d.agentId == Some(agentId) && ToEntity(Some(d)).value in rows.Values
      ensures forall k :: k in rows && rows[k].agentId == Some(agentId) ==> Dto(rows[k]) in r
    {
      var all := All();
      var r := Filter(all, (d: TravelPackageDto) => d.agentId == Some(agentId));
      assert forall k :: k in rows && rows[k].agentId == Some(agentId) ==> Dto(rows[k]) in r by {
        forall k | k in rows && rows[k].agentId == Some(agentId) ensures Dto(rows[k]) in r {
          assert Dto(rows[k]) in all;
        }
      }
      r
    }

    /** createPackage: the incoming id is cleared, so the package always gets a
        fresh one. */
    method Create(dto: TravelPackageDto) returns (saved: TravelPackageDto)
      requires Valid()
      modifies this
      ensures Valid()
      ensures saved == dto.(packageId := Some(old(nextId)))
      ensures rows == old(rows)[old(nextId) := ToEntity(Some(saved)).value] && nextId == old(nextId) + 1
    {
      var entity := ToEntity(Some(dto)).value.(packageId := None);
      var key := SaveKey(rows, nextId, entity.packageId);
      var stored := entity.(packageId := Some(key));
      rows := rows[key := stored];
      nextId := nextId + 1;
      saved := Dto(stored);
    }

    /** updatePackage: the stored entity takes the record's fields through the
        mapper and keeps its id. */
    method Update(id: int, dto: TravelPackageDto) returns (r: Result<TravelPackageDto>)
      requires Valid()
      modifies this
      ensures Valid() && nextId == old(nextId)
      ensures r.Ok? <==> id in old(rows)
      ensures r.Ok? ==> r.value == dto.(packageId := Some(id))
                        && rows == old(rows)[id := Updated(old(rows)[id], dto)]
      ensures r.Err? ==> r.error == NotFound(id) && rows == old(rows)
    {
      if id !in rows {
        return Err(NotFound(id));
      }
      var entity := new PackageEntity(rows[id]);
      UpdateEntityFromDto(Some(dto), entity);
      var updated := entity.Value();
      var key := SaveKey(rows, nextId, updated.packageId);
      rows := rows[key := updated];
      r := Ok(Dto(updated));
    }

    /** deletePackage: exactly that id leaves. */
    method Delete(id: int) returns (r: Result<()>)
      requires Valid()
      modifies this
      ensures Valid() && nextId == old(nextId)
      ensures r.Ok? <==> id in old(rows)
      ensures r.Ok? ==> rows == old(rows) - {id}
      ensures r.Err? ==> r.error == NotFound(id) && rows == old(rows)
    {
      if id !in rows {
        return Err(NotFound(id));
      }
      rows := rows - {id};
      r := Ok(());
    }

    /** getPackageWithBookingDetails: an unknown package gives only the error
        entry; an answer with a list gives it with its counts; an answer that is
        not 2xx gives no bookings and zero counts; null data throws on the count
        after the bookings entry was put, and a failed call throws before it. */
    function WithBookingDetails(packageId: int, bookingsOf: Fetch<seq<JsonObject>>): (r: PackageDetails)
      reads this
      ensures r.error.None? <==> packageId in rows && (bookingsOf.BadAnswer? || (bookingsOf.Answered? && bookingsOf.data.Some?))
      ensures r.error.Some? ==> r.error == Some(DetailsFailed) && r.totalBookings.None? && r.confirmedBookings.None?
      ensures r.package.Some? <==> packageId in rows
      ensures packageId in rows && bookingsOf.BadAnswer? ==>
                r.bookings == Some(Some([])) && r.totalBookings == Some(0) && r.confirmedBookings == Some(0)
      ensures packageId in rows && bookingsOf.Answered? && bookingsOf.data.Some? ==>
                r.bookings == Some(bookingsOf.data) && r.totalBookings == Some(|bookingsOf.data.value|)
                && r.confirmedBookings == Some(ConfirmedCount(bookingsOf.data.value))
                && r.confirmedBookings.value <= r.totalBookings.value
    {
      match ById(packageId)
      case Err(_) => PackageDetails(None, None, None, None, Some(DetailsFailed))
      case Ok(p) =>
        match bookingsOf
        case Answered(Some(bs)) => PackageDetails(Some(p), Some(Some(bs)), Some(|bs|), Some(ConfirmedCount(bs)), None)
        case Answered(None) => PackageDetails(Some(p), Some(None), None, None, Some(DetailsFailed))
        case BadAnswer => PackageDetails(Some(p), Some(Some([])), Some(0), Some(0), None)
        case Threw => PackageDetails(Some(p), None, None, None, Some(DetailsFailed))
    }

    /** getAgentPackagesWithStatistics: the agent's packages and their number,
        the agent entry, and the tallies of the packages in order, with pending
        the total less the confirmed. */
    method AgentStatisticsOf(agentId: int, agentFetch: Fetch<JsonObject>,
                             bookingsOf: Option<int> -> Fetch<seq<JsonObject>>,
                             users: int -> Fetch<JsonObject>, payments: int -> Fetch<JsonObject>)
      returns (r: AgentStatistics)
      requires Valid()
      ensures r.packages == ByAgent(agentId) && r.totalPackages == |r.packages|
      ensures r.agent == AgentEntryOf(agentId, agentFetch)
      ensures var t := Tallies(r.packages, bookingsOf, users, payments);
              r.bookings == t.bookings && r.totalBookings == t.total && r.totalConfirmedBookings == t.confirmed
      ensures 0 <= r.pendingBookings == r.totalBookings - r.totalConfirmedBookings
      ensures r.totalConfirmedBookings <= r.totalBookings <= |r.bookings|
    {
      var pkgs := ByAgent(agentId);
      var agent := AgentEntryOf(agentId, agentFetch);
      var all, total, confirmed := Gather(pkgs, bookingsOf, users, payments);
      TalliesBounded(pkgs, bookingsOf, users, payments);
      r := AgentStatistics(pkgs, |pkgs|, agent, total, confirmed, Max0(total - confirmed), all);
    }
  }

  /** `Math.max(0, n)` */
  function Max0(n: int): (r: int)
    ensures r >= 0 && r >= n && (r == 0 || r == n)
  {
    if n > 0 then n else 0
  }

  /** The outer loop: the packages in order, each adding its tally. */
  method Gather(pkgs: seq<TravelPackageDto>, bookingsOf: Option<int> -> Fetch<seq<JsonObject>>,
                users: int -> Fetch<JsonObject>, payments: int -> Fetch<JsonObject>)
    returns (all: seq<EnrichedBooking>, total: nat, confirmed: nat)
    ensures Tally(all, total, confirmed) == Tallies(pkgs, bookingsOf, users, payments)
  {
    all, total, confirmed := [], 0, 0;
    var i := 0;
    while i < |pkgs|
      invariant 0 <= i <= |pkgs|
      invariant Tally(all, total, confirmed) == Tallies(pkgs[..i], bookingsOf, users, payments)
    {
      var added, count, conf := OnePackage(pkgs[i], bookingsOf, users, payments);
      all, total, confirmed := all + added, total + count, confirmed + conf;
      TallyStep(pkgs, i, bookingsOf, users, payments);
      i := i + 1;
    }
    assert pkgs[..i] == pkgs;
  }

  /** The body of the outer loop: the bookings of one package, enriched, and
      its counts, which a failed fetch or a throw in the middle leave at zero. */
  method OnePackage(pkg: TravelPackageDto, bookingsOf: Option<int> -> Fetch<seq<JsonObject>>,
                    users: int -> Fetch<JsonObject>, payments: int -> Fetch<JsonObject>)
    returns (added: seq<EnrichedBooking>, count: nat, confirmed: nat)
    ensures Tally(added, count, confirmed) == PackageTally(pkg, bookingsOf, users, payments)
  {
    added, count, confirmed := [], 0, 0;
    var f := bookingsOf(pkg.packageId);
    if f.Answered? && f.data.Some? {
      var bs := f.data.value;
      added := EnrichAll(bs, pkg, users, payments);
      if |added| == |bs| {
        count := |bs|;
        confirmed := ConfirmedCount(bs);
      }
    }
  }

  /** The inner loop over one package's bookings: each is enriched in turn until
      one throws, and the ones before it stay gathered. */
  method EnrichAll(bs: seq<JsonObject>, pkg: TravelPackageDto, users: int -> Fetch<JsonObject>,
                   payments: int -> Fetch<JsonObject>) returns (added: seq<EnrichedBooking>)
    ensures var n := FirstFailure(bs, pkg, users, payments);
            |added| == n && added == EnrichedPrefix(bs, n, pkg, users, payments)
  {
    added := [];
    var j := 0;
    while j < |bs|
      invariant 0 <= j <= FirstFailure(bs, pkg, users, payments)
      invariant added == EnrichedPrefix(bs, j, pkg, users, payments)
    {
      var e := EnrichBooking(bs[j], pkg, users, payments);
      if e.Err? {
        break;
      }
      added := added + [e.value];
      j := j + 1;
    }
  }
}
