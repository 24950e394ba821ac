// The administrator's dashboard: it unwraps the five lists it loads, derives
// the overview figures from them, and applies a user removal, an approval
// decision or a resolution time to its own copy after the call succeeds.
module AdminDashboard {
  import opened Common
  import opened ClientRecords

  /** A response body as far as the unwrapping inspects it: a list, an object whose
      `data` property may hold another body, or anything else. */
  datatype Body<T> = Items(items: seq<T>) | Object(data: Option<Body<T>>) | Scalar

  /** `data.data` if that is a list, else `data` if that is a list, else `[]`;
      a failed response gives `[]`. */
  function Unwrap<T>(r: Reply<Body<T>>): (l: seq<T>)
    ensures r.Failure? ==> l == []
    ensures r.Success? && r.data.Items? ==> l == r.data.items
    ensures r.Success? && r.data.Object? && r.data.data.Some? && r.data.data.value.Items? ==> l == r.data.data.value.items
    ensures r.Success? && r.data.Scalar? ==> l == []
  {
    if r.Failure? then []
    else match r.data
      case Object(Some(Items(inner))) => inner
      case Items(items) => items
      case _ => []
  }

  /** Unwrapping looks one level deep only: a list wrapped twice gives `[]`. */
  lemma UnwrapOneLevel<T>(items: seq<T>)
    ensures Unwrap(Success(Object(Some(Items(items))))) == items
    ensures Unwrap(Success(Object(Some(Object(Some(Items(items))))))) == []
  {
  }

  datatype AdminBooking = AdminBooking(Status: Option<string>, status: Option<string>)
  datatype AdminPayment = AdminPayment(Amount: Option<int>, amount: Option<int>)
  datatype AdminRequest = AdminRequest(RequestID: Option<int>, Status: Option<string>, status: Option<string>,
                                       ResolutionTime: Option<string>)

  /** getUserRole, with 'customer' for a user with neither spelling set. */
  function AdminRole(u: ClientUser): string { OrElse(RoleOf(u), "customer") }

  /** getUserApproval, with 'approved' for a user with neither spelling set. */
  function AdminApproval(u: ClientUser): string { OrElse(ApprovalOf(u), "approved") }

  predicate IsAgent(u: ClientUser) { AdminRole(u) == "agent" }
  predicate IsCustomer(u: ClientUser) { AdminRole(u) == "customer" }
  predicate IsPendingAgent(u: ClientUser) { IsAgent(u) && AdminApproval(u) == "pending" }

  predicate BookingIs(b: AdminBooking, st: string) { Or(b.Status, b.status) == Some(st) }
  predicate IsPendingBooking(b: AdminBooking) { BookingIs(b, "pending") }
  predicate IsConfirmedBooking(b: AdminBooking) { BookingIs(b, "confirmed") }
  predicate IsPendingRequest(r: AdminRequest) { Or(r.Status, r.status) == Some("pending") }

  /** One payment's `payment.Amount || payment.amount || 0`. */
  function AmountOf(p: AdminPayment): int
  {
    var a := OrInt(p.Amount, p.amount);
    if a.Some? then a.value else 0
  }

  /** The sum of `payment.Amount || payment.amount || 0`. */
  function Revenue(ps: seq<AdminPayment>): (r: int)
    ensures ps == [] ==> r == 0
    ensures (forall i :: 0 <= i < |ps| ==> AmountOf(ps[i]) >= 0) ==> r >= 0
  {
    if ps == [] then 0 else AmountOf(ps[0]) + Revenue(ps[1..])
  }

  /** One payment contributes its own amount, and revenue adds up over
      concatenated lists, so the total is the sum of the amounts in any split. */
  lemma {:induction false} RevenueAppend(a: seq<AdminPayment>, b: seq<AdminPayment>)
    ensures Revenue([]) == 0
    ensures forall p :: Revenue([p]) == AmountOf(p)
    ensures Revenue(a + b) == Revenue(a) + Revenue(b)
  {
    if a == [] {
      assert a + b == b;
    } else {
      assert (a + b)[1..] == a[1..] + b;
      RevenueAppend(a[1..], b);
    }
    forall p ensures Revenue([p]) == AmountOf(p) {
      assert [p][1..] == [];
    }
  }

  /** The capitalised amount wins when it is non-zero; a zero or missing one
      falls through to the lower-case amount. */
  lemma AmountPrefersCapital(p: AdminPayment)
    ensures p.Amount.Some? && p.Amount.value != 0 ==> AmountOf(p) == p.Amount.value
    ensures (p.Amount.None? || p.Amount == Some(0)) && p.amount.Some? ==> AmountOf(p) == p.amount.value
    ensures (p.Amount.None? || p.Amount == Some(0)) && (p.amount.None? || p.amount == Some(0)) ==> AmountOf(p) == 0
  {
  }

  datatype Stats = Stats(totalAgents: nat, totalCustomers: nat, pendingAgents: nat, totalPackages: nat,
                         totalBookings: nat, totalRevenue: int, pendingBookings: nat, completedBookings: nat,
                         pendingAssistance: nat)

  function Statistics<P>(users: seq<ClientUser>, packages: seq<P>, bookings: seq<AdminBooking>,
                         payments: seq<AdminPayment>, requests: seq<AdminRequest>): (s: Stats)
  {
    Stats(Count(users, IsAgent), Count(users, IsCustomer), Count(users, IsPendingAgent), |packages|,
          |bookings|, Revenue(payments), Count(bookings, IsPendingBooking), Count(bookings, IsConfirmedBooking),
          Count(requests, IsPendingRequest))
  }

  /** The overview figures are consistent: agents and customers together, and
      pending and confirmed bookings together, never exceed their totals, and
      pending agents are among the agents. */
  lemma StatisticsBounded<P>(users: seq<ClientUser>, packages: seq<P>, bookings: seq<AdminBooking>,
                             payments: seq<AdminPayment>, requests: seq<AdminRequest>)
    ensures var s := Statistics(users, packages, bookings, payments, requests);
            s.totalAgents + s.totalCustomers <= |users| && s.pendingAgents <= s.totalAgents
            && s.pendingBookings + s.completedBookings <= s.totalBookings
            && s.pendingAssistance <= |requests|
  {
    CountSplit(users, IsAgent, IsCustomer);
    CountImplies(users, IsPendingAgent, IsAgent);
    CountSplit(bookings, IsPendingBooking, IsConfirmedBooking);
  }

  /** A user with no role counts as a customer, never as an agent. */
  lemma RoleLessIsCustomer(u: ClientUser)
    requires !Truthy(u.role) && !Truthy(u.Role)
    ensures IsCustomer(u) && !IsAgent(u)
  {
  }

  datatype ApprovalCall = ApproveCall(userId: Option<int>) | RejectCall(userId: Option<int>)

  /** The toast a handler ends with. A failed reply carries no `message`, so a
      failure always shows the handler's own fallback text. */
  datatype AdminNotice = Done | Failed(message: string) | NotYetAvailable

  const RemoveFailed := "Failed to remove user"

  /** `Failed to ${approval} user` */
  function ApprovalFailed(approval: string): (r: string)
    ensures StartsWith(r, "Failed to ") && |r| == |approval| + 15
    ensures r[10..10 + |approval|] == approval
  {
    "Failed to " + approval + " user"
  }

  /** The dashboard's own copy of the lists. */
  class Dashboard<P> {
    var allUsers: seq<ClientUser>
    var allPackages: seq<P>
    var allBookings: seq<AdminBooking>
    var allPayments: seq<AdminPayment>
    var allRequests: seq<AdminRequest>

    constructor ()
      ensures allUsers == [] && allPackages == [] && allBookings == [] && allPayments == [] && allRequests == []
    {
      allUsers := [];
      allPackages := [];
      allBookings := [];
      allPayments := [];
      allRequests := [];
    }

    /** The figures the overview shows. */
    function Overview(): Stats
      reads this
    {
      Statistics(allUsers, allPackages, allBookings, allPayments, allRequests)
    }

    /** loadAdminData: each list is replaced by its unwrapped response. */
    method Load(users: Reply<Body<ClientUser>>, packages: Reply<Body<P>>, bookings: Reply<Body<AdminBooking>>,
                payments: Reply<Body<AdminPayment>>, requests: Reply<Body<AdminRequest>>)
      modifies this
      ensures allUsers == Unwrap(users) && allPackages == Unwrap(packages) && allBookings == Unwrap(bookings)
      ensures allPayments == Unwrap(payments) && allRequests == Unwrap(requests)
    {
      allUsers := Unwrap(users);
      allPackages := Unwrap(packages);
      allBookings := Unwrap(bookings);
      allPayments := Unwrap(payments);
      allRequests := Unwrap(requests);
    }

    /** handleRemoveUser: nothing happens unless the prompt is confirmed; on a
        successful delete every user with that id leaves the list. */
    method RemoveUser(userId: Option<int>, confirmed: bool, reply: Reply<()>)
      returns (called: bool, notice: Option<AdminNotice>)
      modifies this
      ensures called == confirmed
      ensures called && reply.Success? ==> allUsers == Filter(old(allUsers), (u: ClientUser) => IdOf(u) != userId)
                                            && notice == Some(Done)
      ensures !(called && reply.Success?) ==> allUsers == old(allUsers)
      ensures called && reply.Failure? ==> notice == Some(Failed(RemoveFailed))
      ensures !called ==> notice.None?
      ensures allPackages == old(allPackages) && allBookings == old(allBookings)
      ensures allPayments == old(allPayments) && allRequests == old(allRequests)
    {
      called := confirmed;
      notice := None;
      if confirmed {
        if reply.Success? {
          allUsers := Filter(allUsers, (u: ClientUser) => IdOf(u) != userId);
          notice := Some(Done);
        } else {
          notice := Some(Failed(RemoveFailed));
        }
      }
    }

    /** handleUserApproval: 'approved' calls approve and anything else reject; on
        success only the users with that id take the decision, under both spellings. */
    method UserApproval(userId: Option<int>, approval: string, reply: Reply<()>)
      returns (call: ApprovalCall, notice: AdminNotice)
      modifies this
      ensures call == if approval == "approved" then ApproveCall(userId) else RejectCall(userId)
      ensures reply.Success? ==> allUsers == UpdateWhere(old(allUsers), (u: ClientUser) => IdOf(u) == userId,
                                                         (u: ClientUser) => u.(approval := Some(approval), Approval := Some(approval)))
                                 && notice == Done
      ensures reply.Failure? ==> allUsers == old(allUsers) && notice == Failed(ApprovalFailed(approval))
      ensures allPackages == old(allPackages) && allBookings == old(allBookings)
      ensures allPayments == old(allPayments) && allRequests == old(allRequests)
    {
      call := if approval == "approved" then ApproveCall(userId) else RejectCall(userId);
      if reply.Success? {
        allUsers := UpdateWhere(allUsers, (u: ClientUser) => IdOf(u) == userId,
                                (u: ClientUser) => u.(approval := Some(approval), Approval := Some(approval)));
        notice := Done;
      } else {
        notice := Failed(ApprovalFailed(approval));
      }
    }

    /** The booking and assistance status selects only announce that the feature
        is not available yet; no list changes. */
    method StatusChange() returns (notice: AdminNotice)
      ensures notice == NotYetAvailable
    {
      notice := NotYetAvailable;
    }

    /** The resolution-time field leaving focus: a non-blank entry, trimmed, is
        stored on the requests with that RequestID; a blank one changes nothing. */
    method SetResolutionTime(requestId: Option<int>, input: string)
      modifies this
      ensures !JsBlank(input) ==> allRequests == UpdateWhere(old(allRequests), (q: AdminRequest) => q.RequestID == requestId,
                                                             (q: AdminRequest) => q.(ResolutionTime := Some(JsTrim(input))))
      ensures JsBlank(input) ==> allRequests == old(allRequests)
      ensures allUsers == old(allUsers) && allPackages == old(allPackages)
      ensures allBookings == old(allBookings) && allPayments == old(allPayments)
    {
      if !JsBlank(input) {
        allRequests := UpdateWhere(allRequests, (q: AdminRequest) => q.RequestID == requestId,
                                   (q: AdminRequest) => q.(ResolutionTime := Some(JsTrim(input))));
      }
    }
  }

  /** The field is offered only for a completed request with no resolution time. */
  predicate ResolutionInputShown(q: AdminRequest)
  {
    q.Status == Some("completed") && !Truthy(q.ResolutionTime)
  }

  /** After a removal no remaining user has the removed id, and every other user stays. */
  lemma RemovalExact(users: seq<ClientUser>, userId: Option<int>)
    ensures var r := Filter(users, (u: ClientUser) => IdOf(u) != userId);
            (forall i :: 0 <= i < |r| ==> IdOf(r[i]) != userId)
            && (forall u :: u in users && IdOf(u) != userId ==> u in r)
            && |r| <= |users|
  {
  }

  /** Approving a user takes it out of the pending-agent count, and leaves its
      id where it was. */
  lemma {:induction false} ApprovalClearsPending(users: seq<ClientUser>, userId: Option<int>)
    ensures var r := UpdateWhere(users, (u: ClientUser) => IdOf(u) == userId,
                                 (u: ClientUser) => u.(approval := Some("approved"), Approval := Some("approved")));
            forall i :: 0 <= i < |r| && IdOf(users[i]) == userId ==> !IsPendingAgent(r[i]) && IdOf(r[i]) == userId
  {
    var f := (u: ClientUser) => u.(approval := Some("approved"), Approval := Some("approved"));
    var r := UpdateWhere(users, (u: ClientUser) => IdOf(u) == userId, f);
    forall i | 0 <= i < |r| && IdOf(users[i]) == userId ensures !IsPendingAgent(r[i]) && IdOf(r[i]) == userId {
      assert r[i] == f(users[i]);
      assert ApprovalOf(r[i]) == Some("approved");
    }
  }
}
