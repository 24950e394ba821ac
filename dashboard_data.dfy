// The dashboard loaders of the client's service layer: each gathers several
// lists in parallel and stands in an empty list for every call that failed, and
// the agent loader falls back to filtering the full lists by the agent's
// packages when the dedicated endpoint fails. The client resolves every call as
// `{success, data}` with `data` the response body, and the backend's list
// endpoints answer `{data: list, success: true}`, so `data` is itself a wrapper.
module DashboardData {
  import opened Common
  import opened ClientRecords
  import opened AdminDashboard

  /** The fields the loaders read; every other field of a record passes through. */
  datatype DashPackage = DashPackage(packageId: Option<int>, title: Option<string>)
  datatype DashBooking = DashBooking(bookingId: Option<int>, packageId: Option<int>, status: Option<string>)
  datatype DashPayment = DashPayment(bookingId: Option<int>, amount: Option<int>)

  /** `result.success ? result.data : []`: the body of a successful call as it
      came, without looking inside it. */
  function ListOr<T>(r: Reply<Body<T>>): (b: Body<T>)
    ensures r.Success? ==> b == r.data
    ensures r.Failure? ==> b == Items([])
  {
    if r.Success? then r.data else Items([])
  }

  /** The body the backend's list endpoints answer: `{data: list, success: true}`. */
  predicate Wrapped<T>(r: Reply<Body<T>>)
  {
    r.Failure? || (r.data.Object? && r.data.data.Some? && r.data.data.value.Items?)
  }

  /** What a loader resolves to. `thrown` stands for an exception escaping the
      awaited calls, with its message. */
  datatype Loaded<D> = Loaded(data: D) | LoadFailed(error: Option<string>)

  datatype UserData = UserData(bookings: Body<DashBooking>, payments: Body<DashPayment>, packages: Body<DashPackage>)

  /** getUserDashboardData */
  function UserDashboardData(bookings: Reply<Body<DashBooking>>, payments: Reply<Body<DashPayment>>,
                             packages: Reply<Body<DashPackage>>, thrown: Option<Option<string>>): (r: Loaded<UserData>)
    ensures thrown.Some? ==> r == LoadFailed(thrown.value)
    ensures thrown.None? ==> r.Loaded?
    ensures r.Loaded? ==> r.data.bookings == ListOr(bookings) && r.data.payments == ListOr(payments)
                          && r.data.packages == ListOr(packages)
  {
    if thrown.Some? then LoadFailed(thrown.value)
    else Loaded(UserData(ListOr(bookings), ListOr(payments), ListOr(packages)))
  }

  /** Each list's fallback is independent of the other two calls. */
  lemma UserListsIndependent(bookings: Reply<Body<DashBooking>>, payments: Reply<Body<DashPayment>>,
                             packages: Reply<Body<DashPackage>>, failed: Option<string>)
    ensures UserDashboardData(bookings, payments, packages, None).data.bookings
            == UserDashboardData(bookings, Failure(failed), Failure(failed), None).data.bookings
    ensures UserDashboardData(bookings, payments, packages, None).data.packages
            == UserDashboardData(Failure(failed), Failure(failed), packages, None).data.packages
  {
  }

  /** The loaders hand the backend's wrappers on as they came: unwrapping a
      loaded entry one level gives the list the backend sent, and a failed call
      the empty list. */
  lemma UserDataStillWrapped(bookings: Reply<Body<DashBooking>>, payments: Reply<Body<DashPayment>>,
                             packages: Reply<Body<DashPackage>>)
    requires Wrapped(bookings) && Wrapped(payments) && Wrapped(packages)
    ensures var r := UserDashboardData(bookings, payments, packages, None);
            Unwrap(Success(r.data.bookings)) == Unwrap(bookings)
            && Unwrap(Success(r.data.payments)) == Unwrap(payments)
            && Unwrap(Success(r.data.packages)) == Unwrap(packages)
            && (bookings.Success? ==> !r.data.bookings.Items?)
  {
  }

  datatype AgentData = AgentData(packages: seq<DashPackage>, bookings: seq<DashBooking>, payments: seq<DashPayment>)

  /** `agentPackages.map(pkg => pkg.packageId)` */
  function PackageIds(ps: seq<DashPackage>): (r: seq<Option<int>>)
    ensures |r| == |ps| && forall i :: 0 <= i < |ps| ==> r[i] == ps[i].packageId
  {
    seq(|ps|, i requires 0 <= i < |ps| => ps[i].packageId)
  }

  /** The fallback's bookings: those on one of the given packages. */
  function AgentBookings(ids: seq<Option<int>>, bookings: seq<DashBooking>): seq<DashBooking>
  {
    Filter(bookings, (b: DashBooking) => b.packageId in ids)
  }

  /** `agentBookings.some(booking => booking.bookingId === payment.bookingId)` */
  predicate PaysFor(ours: seq<DashBooking>, y: DashPayment)
  {
    exists b :: b in ours && b.bookingId == y.bookingId
  }

  function AgentPayments(ours: seq<DashBooking>, payments: seq<DashPayment>): seq<DashPayment>
  {
    Filter(payments, (y: DashPayment) => PaysFor(ours, y))
  }

  /** The filtering of the fallback, given the three lists. */
  function AgentLists(packages: seq<DashPackage>, bookings: seq<DashBooking>, payments: seq<DashPayment>): (r: AgentData)
    ensures r.packages == packages
    ensures forall b :: b in r.bookings <==> b in bookings && b.packageId in PackageIds(packages)
    ensures forall y :: y in r.payments <==> y in payments && PaysFor(r.bookings, y)
  {
    var ours := AgentBookings(PackageIds(packages), bookings);
    AgentData(packages, ours, AgentPayments(ours, payments))
  }

  /** `result.success ? result.data : []` followed by `.map` or `.filter`: only an
      array has them, so any other body throws a TypeError. */
  function ArrayOf<T>(r: Reply<Body<T>>): (l: Option<seq<T>>)
    ensures r.Failure? ==> l == Some([])
    ensures r.Success? ==> (l.Some? <==> r.data.Items?)
    ensures r.Success? && l.Some? ==> l.value == r.data.items
  {
    if r.Failure? then Some([])
    else if r.data.Items? then Some(r.data.items)
    else None
  }

  /** The fallback as written: `.map` on the packages' body, then `.filter` on the
      bookings' and the payments' bodies. A body that is not an array throws, and
      the loader's catch answers a failure with the TypeError's message,
      `typeError`. */
  function AgentFallbackAsWritten(packages: Reply<Body<DashPackage>>, bookings: Reply<Body<DashBooking>>,
                                  payments: Reply<Body<DashPayment>>, typeError: string): (r: Loaded<AgentData>)
    ensures r.Loaded? <==> ArrayOf(packages).Some? && ArrayOf(bookings).Some? && ArrayOf(payments).Some?
    ensures r.Loaded? ==> r.data == AgentLists(ArrayOf(packages).value, ArrayOf(bookings).value, ArrayOf(payments).value)
    ensures r.LoadFailed? ==> r.error == Some(typeError)
  {
    var ps := ArrayOf(packages);
    if ps.None? then LoadFailed(Some(typeError))
    else
      var bs := ArrayOf(bookings);
      if bs.None? then LoadFailed(Some(typeError))
      else
        var ys := ArrayOf(payments);
        if ys.None? then LoadFailed(Some(typeError))
        else Loaded(AgentLists(ps.value, bs.value, ys.value))
  }

  /** Against the backend's wrapped answers the fallback as written fails as soon
      as one of its three calls succeeds, and succeeds only with three empty lists. */
  lemma WrappedFallbackFails(packages: Reply<Body<DashPackage>>, bookings: Reply<Body<DashBooking>>,
                             payments: Reply<Body<DashPayment>>, typeError: string)
    requires Wrapped(packages) && Wrapped(bookings) && Wrapped(payments)
    ensures var r := AgentFallbackAsWritten(packages, bookings, payments, typeError);
            (r.Loaded? <==> packages.Failure? && bookings.Failure? && payments.Failure?)
            && (r.Loaded? ==> r.data == AgentData([], [], []))
            && (r.LoadFailed? ==> r.error == Some(typeError))
  {
    var r := AgentFallbackAsWritten(packages, bookings, payments, typeError);
    if r.Loaded? {
      var d := AgentLists([], [], []);
      assert d.bookings == [] && d.payments == [];
    }
  }

  /** The fallback as intended: each body unwrapped one level, as the other pages
      do, before the filtering. */
  function AgentFallback(packages: Reply<Body<DashPackage>>, bookings: Reply<Body<DashBooking>>,
                         payments: Reply<Body<DashPayment>>): (r: AgentData)
    ensures r.packages == Unwrap(packages)
    ensures forall b :: b in r.bookings <==> b in Unwrap(bookings) && b.packageId in PackageIds(Unwrap(packages))
    ensures forall y :: y in r.payments <==> y in Unwrap(payments) && PaysFor(r.bookings, y)
  {
    AgentLists(Unwrap(packages), Unwrap(bookings), Unwrap(payments))
  }

  /** On bare lists the two fallbacks agree, so the unwrapping changes nothing
      the source already handled. */
  lemma FallbackAgreesOnBareLists(packages: Reply<Body<DashPackage>>, bookings: Reply<Body<DashBooking>>,
                                  payments: Reply<Body<DashPayment>>, typeError: string)
    requires packages.Failure? || packages.data.Items?
    requires bookings.Failure? || bookings.data.Items?
    requires payments.Failure? || payments.data.Items?
    ensures AgentFallbackAsWritten(packages, bookings, payments, typeError) == Loaded(AgentFallback(packages, bookings, payments))
  {
  }

  /** What the agent loader shows: the dedicated endpoint's body as it came, or the
      fallback's lists. */
  datatype AgentView<E> = Enhanced(body: E) | Fallback(lists: AgentData)

  /** getAgentDashboardData as written. */
  function AgentDashboardDataAsWritten<E>(enhanced: Reply<E>, packages: Reply<Body<DashPackage>>,
                                          bookings: Reply<Body<DashBooking>>, payments: Reply<Body<DashPayment>>,
                                          thrown: Option<Option<string>>, typeError: string): (r: Loaded<AgentView<E>>)
    ensures thrown.Some? ==> r == LoadFailed(thrown.value)
    ensures thrown.None? && enhanced.Success? ==> r == Loaded(Enhanced(enhanced.data))
    ensures thrown.None? && enhanced.Failure? ==>
              match AgentFallbackAsWritten(packages, bookings, payments, typeError)
              case Loaded(d) => r == Loaded(Fallback(d))
              case LoadFailed(e) => r == LoadFailed(e)
  {
    if thrown.Some? then LoadFailed(thrown.value)
    else if enhanced.Success? then Loaded(Enhanced(enhanced.data))
    else match AgentFallbackAsWritten(packages, bookings, payments, typeError)
      case Loaded(d) => Loaded(Fallback(d))
      case LoadFailed(e) => LoadFailed(e)
  }

  /** getAgentDashboardData with the fallback unwrapping its bodies: it answers
      whenever no exception escapes. */
  function AgentDashboardData<E>(enhanced: Reply<E>, packages: Reply<Body<DashPackage>>,
                                 bookings: Reply<Body<DashBooking>>, payments: Reply<Body<DashPayment>>,
                                 thrown: Option<Option<string>>): (r: Loaded<AgentView<E>>)
    ensures thrown.Some? ==> r == LoadFailed(thrown.value)
    ensures thrown.None? && enhanced.Success? ==> r == Loaded(Enhanced(enhanced.data))
    ensures thrown.None? && enhanced.Failure? ==> r == Loaded(Fallback(AgentFallback(packages, bookings, payments)))
  {
    if thrown.Some? then LoadFailed(thrown.value)
    else if enhanced.Success? then Loaded(Enhanced(enhanced.data))
    else Loaded(Fallback(AgentFallback(packages, bookings, payments)))
  }

  /** With the backend's wrapped answers and a failing dedicated endpoint, the
      loader as written fails whenever a fallback call succeeds, while the
      corrected one shows the filtered lists. */
  lemma AgentLoaderDiffers<E>(packages: seq<DashPackage>, bookings: Reply<Body<DashBooking>>,
                              payments: Reply<Body<DashPayment>>, error: Option<string>, typeError: string)
    requires Wrapped(bookings) && Wrapped(payments)
    ensures var wrapped := Success(Object(Some(Items(packages))));
            AgentDashboardDataAsWritten<E>(Failure(error), wrapped, bookings, payments, None, typeError)
              == LoadFailed(Some(typeError))
            && AgentDashboardData<E>(Failure(error), wrapped, bookings, payments, None)
              == Loaded(Fallback(AgentLists(packages, Unwrap(bookings), Unwrap(payments))))
  {
  }

  /** In the corrected fallback, every payment shown belongs to a booking shown,
      and every booking shown is on one of the agent's packages. */
  lemma FallbackStaysWithAgent(packages: Reply<Body<DashPackage>>, bookings: Reply<Body<DashBooking>>,
                               payments: Reply<Body<DashPayment>>)
    ensures var r := AgentFallback(packages, bookings, payments);
            (forall y :: y in r.payments ==> exists b :: b in r.bookings && b.bookingId == y.bookingId)
            && (forall b :: b in r.bookings ==> exists p :: p in r.packages && p.packageId == b.packageId)
  {
    var r := AgentFallback(packages, bookings, payments);
    forall b | b in r.bookings ensures exists p :: p in r.packages && p.packageId == b.packageId {
      var ids := PackageIds(Unwrap(packages));
      var i :| 0 <= i < |ids| && ids[i] == b.packageId;
      assert r.packages[i] in r.packages;
    }
  }

  /** When the agent has no packages, the fallback shows no bookings and no payments. */
  lemma NoPackagesNothingShown(packages: Reply<Body<DashPackage>>, bookings: Reply<Body<DashBooking>>,
                               payments: Reply<Body<DashPayment>>)
    requires Unwrap(packages) == []
    ensures AgentFallback(packages, bookings, payments).bookings == []
    ensures AgentFallback(packages, bookings, payments).payments == []
  {
    var none := PackageIds(Unwrap(packages));
    assert none == [];
    var p := (b: DashBooking) => b.packageId in none;
    CountNone(Unwrap(bookings), p);
    var q := (y: DashPayment) => PaysFor([], y);
    CountNone(Unwrap(payments), q);
  }

  datatype AdminData<U, A> = AdminData(users: Body<U>, packages: Body<DashPackage>, bookings: Body<DashBooking>,
                                       payments: Body<DashPayment>, assistanceRequests: Body<A>)

  /** getAdminDashboardData: success even when every call failed. */
  function AdminDashboardData<U, A>(users: Reply<Body<U>>, packages: Reply<Body<DashPackage>>,
                                    bookings: Reply<Body<DashBooking>>, payments: Reply<Body<DashPayment>>,
                                    assistance: Reply<Body<A>>, thrown: Option<Option<string>>): (r: Loaded<AdminData<U, A>>)
    ensures thrown.Some? ==> r == LoadFailed(thrown.value)
    ensures thrown.None? ==> r.Loaded?
    ensures r.Loaded? ==> r.data.users == ListOr(users) && r.data.packages == ListOr(packages)
                          && r.data.bookings == ListOr(bookings) && r.data.payments == ListOr(payments)
                          && r.data.assistanceRequests == ListOr(assistance)
  {
    if thrown.Some? then LoadFailed(thrown.value)
    else Loaded(AdminData(ListOr(users), ListOr(packages), ListOr(bookings), ListOr(payments), ListOr(assistance)))
  }
}
