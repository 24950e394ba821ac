// The booking service: bookings kept by id, created pending, moved between
// statuses, looked up by user or package, and the agent dashboard that gathers
// the bookings of an agent's packages.
module BookingService {
  import opened Common
  import opened Table
  import opened Http

  /** A booking; the entity and its transfer object carry the same fields, and
      `toDto`/`toEntity` copy every one, so one datatype serves both. Dates are
      day numbers. */
  datatype Booking = Booking(bookingId: Option<int>, userId: Option<int>, packageId: Option<int>,
                             startDate: Option<int>, endDate: Option<int>, status: Option<string>,
                             paymentId: Option<int>)

  function NotFound(id: int): string { "Booking not found with id: " + IntToString(id) }

  /** A package of the agent as the package service lists it; `packageId` is the
      text `toString` gives of the value, if there is one. */
  datatype AgentPackage = AgentPackage(packageId: Option<string>)

  /** The dashboard map: the statistics, or the error entry alongside whatever
      "packages" entry was put before the exception. */
  datatype AgentDashboard =
    | Statistics(packages: seq<AgentPackage>, bookings: seq<Booking>, totalBookings: nat,
                 confirmedBookings: nat, pendingBookings: nat)
    | DashboardError(packagesEntry: Option<Option<seq<AgentPackage>>>)

  /** `Long.valueOf(pkg.get("packageId").toString())` for every package, or None
      when one of them throws. */
  function PackageIds(ps: seq<AgentPackage>): (r: Option<seq<int>>)
    ensures r.Some? <==> forall i :: 0 <= i < |ps| ==> ps[i].packageId.Some? && ParseLong(ps[i].packageId.value).Some?
    ensures r.Some? ==> |r.value| == |ps| && forall i :: 0 <= i < |ps| ==> Some(r.value[i]) == ParseLong(ps[i].packageId.value)
  {
    if ps == [] then Some([])
    else
      var rest := PackageIds(ps[1..]);
      assert forall i :: 1 <= i < |ps| ==> ps[i] == ps[1..][i - 1];
      if ps[0].packageId.None? || ParseLong(ps[0].packageId.value).None? || rest.None? then None
      else Some([ParseLong(ps[0].packageId.value).value] + rest.value)
  }

  /** An enriched booking; `package` is None when no "package" entry was put, and
      Some(None) when it was put as null. */
  datatype EnrichedBooking<P> = EnrichedBooking(booking: Booking, package: Option<Option<P>>)

  /** The enrichment of one booking. */
  function Enrich<P>(b: Booking, fetch: Option<int> -> Fetch<P>): (e: EnrichedBooking<P>)
    ensures e.booking == b
    ensures fetch(b.packageId).Answered? ==> e.package == Some(fetch(b.packageId).data)
    ensures fetch(b.packageId).BadAnswer? ==> e.package.None?
    ensures fetch(b.packageId).Threw? ==> e.package == Some(None)
  {
    match fetch(b.packageId)
    case Answered(data) => EnrichedBooking(b, Some(data))
    case BadAnswer => EnrichedBooking(b, None)
    case Threw => EnrichedBooking(b, Some(None))
  }

  predicate IsConfirmed(b: Booking) { b.status == Some("confirmed") }
  predicate IsPending(b: Booking) { b.status == Some("pending") }

  class BookingStore {
    var rows: map<int, Booking>
    var nextId: int

    /** Keys run from 1 below the next id, and every row carries its own key. */
    ghost predicate Valid()
      reads this
    {
      nextId >= 1 && forall k :: k in rows ==> 1 <= k < nextId && rows[k].bookingId == Some(k)
    }

    constructor ()
      ensures Valid() && rows == map[] && nextId == 1
    {
      rows := map[];
      nextId := 1;
    }

    /** getAllBookings */
    function All(): seq<Booking>
      reads this
    {
      Listing(rows, nextId)
    }

    /** getBookingById */
    function ById(id: int): (r: Result<Booking>)
      reads this
      ensures r.Ok? <==> id in rows
      ensures r.Ok? ==> r.value == rows[id]
      ensures r.Err? ==> r.error == NotFound(id)
    {
      if id in rows then Ok(rows[id]) else Err(NotFound(id))
    }

    /** getBookingsByUser: exactly the stored bookings of that user. */
    function ByUser(userId: Option<int>): (r: seq<Booking>)
      requires Valid()
      reads this
      ensures forall b :: b in r <==> b in rows.Values && b.userId == userId
    {
      Filter(All(), (b: Booking) => b.userId == userId)
    }

    /** getBookingsByPackage: exactly the stored bookings on that package. */
    function ByPackage(packageId: Option<int>): (r: seq<Booking>)
      requires Valid()
      reads this
      ensures forall b :: b in r <==> b in rows.Values && b.packageId == packageId
    {
      Filter(All(), (b: Booking) => b.packageId == packageId)
    }

    /** getUserBookingsWithPackageDetails: the user's bookings in order, each with
        its package as the package service returns it; a failure for one booking
        leaves the others alone. */
    function WithPackageDetails<P>(userId: Option<int>, fetch: Option<int> -> Fetch<P>): (r: seq<EnrichedBooking<P>>)
      requires Valid()
      reads this
      ensures |r| == |ByUser(userId)|
      ensures forall i :: 0 <= i < |r| ==> r[i] == Enrich(ByUser(userId)[i], fetch)
    {
      var mine := ByUser(userId);
      seq(|mine|, i requires 0 <= i < |mine| => Enrich(mine[i], fetch))
    }

    /** The bookings of the packages in order, each package's bookings in turn:
        the list the dashboard loop builds. */
    function OfPackages(ids: seq<int>): seq<Booking>
      requires Valid()
      reads this
    {
      if ids == [] then [] else OfPackages(ids[..|ids| - 1]) + ByPackage(Some(ids[|ids| - 1]))
    }

    /** createBooking: a fresh id and status 'pending', whatever the request said. */
    method Create(dto: Booking) returns (saved: Booking)
      requires Valid()
      modifies this
      ensures Valid()
      ensures saved == dto.(bookingId := Some(old(nextId)), status := Some("pending"))
      ensures rows == old(rows)[old(nextId) := saved] && nextId == old(nextId) + 1
    {
      saved := dto.(bookingId := Some(nextId), status := Some("pending"));
      rows := rows[nextId := saved];
      nextId := nextId + 1;
    }

    /** updateBooking: six fields overwritten from the request, the id kept. */
    method Update(id: int, dto: Booking) returns (r: Result<Booking>)
      requires Valid()
      modifies this
      ensures Valid() && nextId == old(nextId)
      ensures r.Ok? <==> id in old(rows)
      ensures r.Ok? ==> r.value == dto.(bookingId := old(rows)[id].bookingId) && rows == old(rows)[id := r.value]
      ensures r.Err? ==> r.error == NotFound(id) && rows == old(rows)
    {
      if id !in rows {
        return Err(NotFound(id));
      }
      var b := rows[id].(userId := dto.userId, packageId := dto.packageId, startDate := dto.startDate,
                         endDate := dto.endDate, status := dto.status, paymentId := dto.paymentId);
      rows := rows[id := b];
      r := Ok(b);
    }

    /** deleteBooking: exactly that id leaves. */
    method Delete(id: int) returns (r: Result<()>)
      requires Valid()
      modifies this
      ensures Valid() && nextId == old(nextId)
      ensures r.Ok? <==> id in old(rows)
      ensures r.Ok? ==> rows == old(rows) - {id}
      ensures r.Err? ==> r.error == NotFound(id) && rows == old(rows)
    {
      if id !in rows {
        return Err(NotFound(id));
      }
      rows := rows - {id};
      r := Ok(());
    }

    /** cancelBooking and confirmBooking: the status, from whatever it was. */
    method SetStatus(id: int, status: string) returns (r: Result<Booking>)
      requires Valid()
      modifies this
      ensures Valid() && nextId == old(nextId)
      ensures r.Ok? <==> id in old(rows)
      ensures r.Ok? ==> r.value == old(rows)[id].(status := Some(status)) && rows == old(rows)[id := r.value]
      ensures r.Err? ==> r.error == NotFound(id) && rows == old(rows)
    {
      if id !in rows {
        return Err(NotFound(id));
      }
      var b := rows[id].(status := Some(status));
      rows := rows[id := b];
      r := Ok(b);
    }

    method Cancel(id: int) returns (r: Result<Booking>)
      requires Valid()
      modifies this
      ensures Valid() && nextId == old(nextId)
      ensures r.Ok? <==> id in old(rows)
      ensures r.Ok? ==> r.value == old(rows)[id].(status := Some("cancelled")) && rows == old(rows)[id := r.value]
      ensures r.Err? ==> rows == old(rows)
    {
      r := SetStatus(id, "cancelled");
    }

    method Confirm(id: int) returns (r: Result<Booking>)
      requires Valid()
      modifies this
      ensures Valid() && nextId == old(nextId)
      ensures r.Ok? <==> id in old(rows)
      ensures r.Ok? ==> r.value == old(rows)[id].(status := Some("confirmed")) && rows == old(rows)[id := r.value]
      ensures r.Err? ==> rows == old(rows)
    {
      r := SetStatus(id, "confirmed");
    }

    /** getAgentDashboardData: the agent's packages, the bookings of each in turn,
        and the counts; a package service that answers badly gives empty lists
        and zero counts, one that throws (or a package id that does not parse)
        gives the error entry. */
    method AgentDashboardData(fetch: Fetch<seq<AgentPackage>>) returns (d: AgentDashboard)
      requires Valid()
      ensures fetch.Threw? ==> d == DashboardError(None)
      ensures fetch.BadAnswer? ==> d == Statistics([], [], 0, 0, 0)
      ensures fetch == Answered(None) ==> d == DashboardError(Some(None))
      ensures fetch.Answered? && fetch.data.Some? && PackageIds(fetch.data.value).None? ==>
                d == DashboardError(Some(fetch.data))
      ensures fetch.Answered? && fetch.data.Some? && PackageIds(fetch.data.value).Some? ==>
                var all := OfPackages(PackageIds(fetch.data.value).value);
                d == Statistics(fetch.data.value, all, |all|, Count(all, IsConfirmed), Count(all, IsPending))
    {
      if fetch.Threw? {
        return DashboardError(None);
      }
      if fetch.BadAnswer? {
        return Statistics([], [], 0, 0, 0);
      }
      if fetch.data.None? {
        return DashboardError(Some(None));
      }
      var maybeIds := PackageIds(fetch.data.value);
      if maybeIds.None? {
        return DashboardError(Some(fetch.data));
      }
      var ids := maybeIds.value;
      var all: seq<Booking> := [];
      var i := 0;
      while i < |ids|
        invariant 0 <= i <= |ids|
        invariant all == OfPackages(ids[..i])
      {
        assert ids[..i + 1][..i] == ids[..i];
        all := all + ByPackage(Some(ids[i]));
        i := i + 1;
      }
      assert ids[..i] == ids;
      d := Statistics(fetch.data.value, all, |all|, Count(all, IsConfirmed), Count(all, IsPending));
    }
  }

  /** Every booking on the dashboard is a stored booking on one of the agent's
      packages, and every stored booking on one of them is there. */
  lemma {:induction false} DashboardBookingsExact(store: BookingStore, ids: seq<int>)
    requires store.Valid()
    ensures forall b :: b in store.OfPackages(ids) <==>
              b in store.rows.Values && b.packageId.Some? && b.packageId.value in ids
  {
    if ids != [] {
      var init := ids[..|ids| - 1];
      DashboardBookingsExact(store, init);
      assert ids == init + [ids[|ids| - 1]];
      forall b ensures b in store.OfPackages(ids) <==>
                       b in store.rows.Values && b.packageId.Some? && b.packageId.value in ids {
        assert b in store.OfPackages(ids) <==> b in store.OfPackages(init) || b in store.ByPackage(Some(ids[|ids| - 1]));
      }
    }
  }

  /** The dashboard counts never exceed the total. */
  lemma DashboardCountsBounded(all: seq<Booking>)
    ensures Count(all, IsConfirmed) + Count(all, IsPending) <= |all|
  {
    CountSplit(all, IsConfirmed, IsPending);
  }

  /** A package listed twice has its bookings counted twice. */
  lemma RepeatedPackageCountedTwice(store: BookingStore, id: int)
    requires store.Valid()
    ensures |store.OfPackages([id, id])| == 2 * |store.ByPackage(Some(id))|
  {
    assert [id, id][..1] == [id];
    assert [id][..0] == [];
    assert store.OfPackages([id]) == store.ByPackage(Some(id));
    assert store.OfPackages([id, id]) == store.OfPackages([id]) + store.ByPackage(Some(id));
  }
}
