// The assistance page: a signed-in user's own requests, and the form that
// files a new one into the shared list of requests.
module AssistancePage {
  import opened Common
  import opened ClientRecords

  /** A number as JavaScript computes the new RequestID: `Math.max` of no values
      is -Infinity, and a missing RequestID reads as NaN. */
  datatype JsNumber = Finite(n: int) | NaN | NegInfinity

  /** `Math.max(a, b)`: NaN absorbs, and -Infinity is below every number. */
  function JsMax(a: JsNumber, b: JsNumber): (r: JsNumber)
    ensures r == NaN <==> a == NaN || b == NaN
    ensures r == NegInfinity <==> a == NegInfinity && b == NegInfinity
    ensures r.Finite? ==> (r == a || r == b) && (a.Finite? ==> a.n <= r.n) && (b.Finite? ==> b.n <= r.n)
  {
    if a == NaN || b == NaN then NaN
    else if a == NegInfinity then b
    else if b == NegInfinity then a
    else if a.n >= b.n then a
    else b
  }

  /** `Math.max(...ids)`: NaN exactly when some id is NaN; -Infinity exactly when
      every id is -Infinity, the empty list included; otherwise the largest
      finite id, which is one of them. */
  function MaxOf(ids: seq<JsNumber>): (r: JsNumber)
    ensures r == NaN <==> exists i :: 0 <= i < |ids| && ids[i] == NaN
    ensures r == NegInfinity <==> forall i :: 0 <= i < |ids| ==> ids[i] == NegInfinity
    ensures r.Finite? ==> (forall i :: 0 <= i < |ids| && ids[i].Finite? ==> ids[i].n <= r.n)
                          && exists i :: 0 <= i < |ids| && ids[i] == r
  {
    if ids == [] then NegInfinity
    else
      assert forall i :: 1 <= i < |ids| ==> ids[i] == ids[1..][i - 1];
      JsMax(ids[0], MaxOf(ids[1..]))
  }

  /** `x + 1` */
  function PlusOne(x: JsNumber): (r: JsNumber)
    ensures x.Finite? ==> r == Finite(x.n + 1)
    ensures !x.Finite? ==> r == x
  {
    match x
    case Finite(n) => Finite(n + 1)
    case _ => x
  }

  datatype Request = Request(RequestID: JsNumber, UserID: Option<int>, IssueDescription: string, Subject: string,
                             Message: string, Priority: string, Status: Option<string>, RequestDate: string,
                             Timestamp: string)

  /** The new request's id: NaN when some stored id is NaN; otherwise -Infinity
      when every stored id is -Infinity (the empty list included), and else one
      more than every finite id, so it is fresh among them. */
  lemma NewIdFresh(all: seq<Request>)
    ensures (exists i :: 0 <= i < |all| && all[i].RequestID == NaN) ==> NextRequestId(all) == NaN
    ensures (forall i :: 0 <= i < |all| ==> all[i].RequestID == NegInfinity) ==> NextRequestId(all) == NegInfinity
    ensures (forall i :: 0 <= i < |all| ==> all[i].RequestID != NaN) && (exists i :: 0 <= i < |all| && all[i].RequestID.Finite?)
            ==> NextRequestId(all).Finite?
                && forall i :: 0 <= i < |all| && all[i].RequestID.Finite? ==> all[i].RequestID.n < NextRequestId(all).n
  {
    var ids := Ids(all);
    if exists i :: 0 <= i < |all| && all[i].RequestID == NaN {
      var i :| 0 <= i < |all| && all[i].RequestID == NaN;
      assert ids[i] == NaN;
    }
    if exists i :: 0 <= i < |all| && all[i].RequestID.Finite? {
      var i :| 0 <= i < |all| && all[i].RequestID.Finite?;
      assert ids[i] != NegInfinity;
    }
  }

  /** `all.map(r => r.RequestID)` */
  function Ids(all: seq<Request>): (ids: seq<JsNumber>)
    ensures |ids| == |all|
    ensures forall i :: 0 <= i < |all| ==> ids[i] == all[i].RequestID
  {
    seq(|all|, i requires 0 <= i < |all| => all[i].RequestID)
  }

  function NextRequestId(all: seq<Request>): JsNumber
  {
    PlusOne(MaxOf(Ids(all)))
  }

  /** Once a request with id -Infinity is stored, the next id is -Infinity again
      while no finite id is stored, and one more than the largest finite id once
      one is: for the ids -Infinity and 3 it is 4. */
  lemma NegInfinityIdIsLeast()
    ensures MaxOf([NegInfinity, Finite(3)]) == Finite(3)
    ensures PlusOne(MaxOf([NegInfinity, NegInfinity])) == NegInfinity
  {
  }

  datatype AssistanceForm = AssistanceForm(subject: string, message: string, priority: string)

  const BlankForm := AssistanceForm("", "", "medium")

  /** The new request: both texts joined for the admin view, status pending, the
      user's `UserID`, the next id, and the given clock reading as both the date and
      the timestamp. */
  function NewRequest(all: seq<Request>, user: ClientUser, f: AssistanceForm, nowIso: string): (r: Request)
    ensures r.IssueDescription == f.subject + ": " + f.message
    ensures r.Status == Some("pending") && r.UserID == user.UserID
    ensures r.Subject == f.subject && r.Message == f.message && r.Priority == f.priority
    ensures r.RequestID == NextRequestId(all)
    ensures r.RequestDate == nowIso && r.Timestamp == nowIso
  {
    Request(NextRequestId(all), user.UserID, f.subject + ": " + f.message, f.subject, f.message, f.priority,
            Some("pending"), nowIso, nowIso)
  }

  predicate Owns(userId: Option<int>, r: Request) { r.UserID == userId }

  /** The requests a user sees: exactly those with its `UserID`. */
  function OwnRequests(all: seq<Request>, userId: Option<int>): (r: seq<Request>)
    ensures forall i :: 0 <= i < |r| ==> r[i] in all && r[i].UserID == userId
    ensures forall q :: q in all && q.UserID == userId ==> q in r
  {
    Filter(all, (q: Request) => Owns(userId, q))
  }

  /** What rendering the page gives: a crash (a property read on a missing user),
      the sign-in prompt, or the user's requests. */
  datatype PageView = Crashed | SignInPrompt | ShowRequests(requests: seq<Request>)

  /** Rendering as written: the effect's dependency list reads
      `currentUser.UserID` before the signed-out branch returns. */
  function RenderAsWritten(isAuthenticated: bool, user: Option<ClientUser>, all: seq<Request>): PageView
  {
    if user.None? then Crashed
    else if !isAuthenticated then SignInPrompt
    else ShowRequests(OwnRequests(all, user.value.UserID))
  }

  /** A visitor who is not signed in, on a route open to everyone, crashes the page. */
  lemma SignedOutVisitorCrashes(all: seq<Request>)
    ensures RenderAsWritten(false, None, all) == Crashed
  {
  }

  /** Rendering with `currentUser?.UserID` in the dependency list. */
  function Render(isAuthenticated: bool, user: Option<ClientUser>, all: seq<Request>): (r: PageView)
    ensures r != Crashed <==> (isAuthenticated ==> user.Some?)
    ensures !isAuthenticated ==> r == SignInPrompt
    ensures user.Some? ==> r == RenderAsWritten(isAuthenticated, user, all)
  {
    if !isAuthenticated then SignInPrompt
    else if user.None? then Crashed
    else ShowRequests(OwnRequests(all, user.value.UserID))
  }

  /** In a consistent session (signed in implies a user) the corrected page never
      crashes, and signed-out visitors get the prompt. */
  lemma NeverCrashesInValidSession(isAuthenticated: bool, user: Option<ClientUser>, all: seq<Request>)
    requires isAuthenticated ==> user.Some?
    ensures Render(isAuthenticated, user, all) != Crashed
    ensures !isAuthenticated ==> Render(isAuthenticated, user, all) == SignInPrompt
  {
  }

  /** getStatusBadge's class: the four known statuses have their own, anything
      else shows as pending. */
  function StatusClass(status: string): (r: string)
    ensures status == "in_progress" ==> r == "status-in-progress"
    ensures status in {"pending", "completed", "cancelled"} ==> r == "status-" + status
    ensures !(status in {"pending", "in_progress", "completed", "cancelled"}) ==> r == "status-pending"
  {
    if status == "in_progress" then "status-in-progress"
    else if status == "completed" then "status-completed"
    else if status == "cancelled" then "status-cancelled"
    else "status-pending"
  }

  /** `status.replace('_', ' ')`: only the first underscore becomes a space. */
  function StatusLabel(status: string): (r: string)
    ensures |r| == |status|
    ensures forall i :: 0 <= i < |status| && status[i] != '_' ==> r[i] == status[i]
    ensures forall i :: 0 <= i < |status| && status[i] == '_' ==> r[i] == (if '_' in status[..i] then '_' else ' ')
  {
    if status == [] then []
    else if status[0] == '_' then " " + status[1..]
    else
      var rest := StatusLabel(status[1..]);
      assert forall i :: 1 <= i <= |status| ==> status[..i] == [status[0]] + status[1..][..i - 1];
      [status[0]] + rest
  }

  /** getPriorityBadge's class: the four known priorities have their own, anything
      else shows as medium. */
  function PriorityClass(priority: string): (r: string)
    ensures priority in {"low", "medium", "high", "urgent"} ==> r == "priority-" + priority
    ensures !(priority in {"low", "medium", "high", "urgent"}) ==> r == "priority-medium"
  {
    if priority in {"low", "high", "urgent"} then "priority-" + priority else "priority-medium"
  }

  class Page {
    var userRequests: seq<Request>
    var showForm: bool
    var form: AssistanceForm

    constructor ()
      ensures userRequests == [] && !showForm && form == BlankForm
    {
      userRequests := [];
      showForm := false;
      form := BlankForm;
    }

    /** The effect: when signed in, the shown list becomes the user's requests. */
    method Sync(isAuthenticated: bool, user: Option<ClientUser>, all: seq<Request>)
      modifies this
      ensures isAuthenticated && user.Some? ==> userRequests == OwnRequests(all, user.value.UserID)
      ensures !(isAuthenticated && user.Some?) ==> userRequests == old(userRequests)
      ensures showForm == old(showForm) && form == old(form)
    {
      if isAuthenticated && user.Some? {
        userRequests := OwnRequests(all, user.value.UserID);
      }
    }

    /** handleSubmit: an empty subject or message sends nothing; otherwise the new
        request is handed to the shared list, appended to the shown list, and the
        form resets and closes. */
    method Submit(user: ClientUser, all: seq<Request>, nowIso: string) returns (added: Option<Request>)
      modifies this
      ensures added.Some? <==> old(form).subject != "" && old(form).message != ""
      ensures added.Some? ==> added.value == NewRequest(all, user, old(form), nowIso)
                              && userRequests == old(userRequests) + [added.value]
                              && form == BlankForm && !showForm
      ensures added.None? ==> userRequests == old(userRequests) && form == old(form) && showForm == old(showForm)
    {
      if form.subject == "" || form.message == "" {
        added := None;
        return;
      }
      var r := NewRequest(all, user, form, nowIso);
      added := Some(r);
      userRequests := userRequests + [r];
      form := BlankForm;
      showForm := false;
    }
  }
}
