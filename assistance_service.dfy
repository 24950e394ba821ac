// The assistance service: support requests kept by id, created with defaults,
// partly overwritten, resolved, and listed with the requester's details and a
// chosen booking fetched from the user and booking services.
module AssistanceService {
  import opened Common
  import opened Table
  import opened Http

  /** A stored request. Dates are instants; the conversions through UTC the
      service applies in both directions cancel out, so one number serves both
      the entity and its transfer record. */
  datatype Request = Request(requestId: Option<int>, userId: Option<int>, issueDescription: Option<string>,
                             subject: Option<string>, message: Option<string>, priority: Option<string>,
                             status: Option<string>, requestDate: Option<int>, timestamp: Option<int>,
                             resolutionTime: Option<int>, resolutionNote: Option<string>)

  /** The fields the enhanced transfer record adds from the other services. */
  datatype Details = Details(userName: Option<string>, userEmail: Option<string>, userContactNumber: Option<string>,
                             bookingId: Option<int>, packageName: Option<string>, packageDestination: Option<string>,
                             travelStartDate: Option<string>, travelEndDate: Option<string>,
                             bookingStatus: Option<string>)

  const NoDetails := Details(None, None, None, None, None, None, None, None, None)

  /** The transfer record: the request's own fields and the added details. */
  datatype RequestDto = RequestDto(request: Request, details: Details)

  /** `toDto`: the request's fields, no details. */
  function BasicDto(r: Request): (d: RequestDto)
    ensures d.request == r && d.details == NoDetails
  {
    RequestDto(r, NoDetails)
  }

  // ---- cross-service details -------------------------------------------

  /** The placeholder the user lookup returns when the call fails. */
  const UnknownUser: JsonObject :=
    map["name" := JStr("Unknown User"), "email" := JStr("unknown@example.com"), "contactNumber" := JStr("N/A")]

  /** The placeholder the booking lookup returns when there is nothing to pick. */
  const NoBooking: JsonObject :=
    map["bookingId" := JNum(0), "status" := JStr("Unknown"), "packageTitle" := JStr("No booking information available")]

  /** `getUserDetails`: the data entry of a 2xx answer, which may be null (None);
      the placeholder when the call fails or answers otherwise. */
  function UserDetails(f: Fetch<JsonObject>): (u: Option<JsonObject>)
    ensures f.Answered? ==> u == f.data
    ensures !f.Answered? ==> u == Some(UnknownUser)
  {
    if f.Answered? then f.data else Some(UnknownUser)
  }

  /** The statuses the booking lookup prefers, compared exactly. */
  predicate Preferred(s: string) { s == "CONFIRMED" || s == "ACTIVE" || s == "PENDING" }

  /** The status of the booking at `i` is one of the preferred strings. */
  predicate PreferredAt(bs: seq<JsonObject>, i: int)
    requires 0 <= i < |bs|
  {
    Field(bs[i], "status").JStr? && Preferred(Field(bs[i], "status").s)
  }

  /** The `(String)` cast of the status at `i` throws: it is neither a string
      nor null. */
  predicate CastFailsAt(bs: seq<JsonObject>, i: int)
    requires 0 <= i < |bs|
  {
    !(Field(bs[i], "status").JStr? || Field(bs[i], "status").JNull?)
  }

  lemma ShiftAt(bs: seq<JsonObject>)
    requires bs != []
    ensures forall j :: 0 <= j < |bs[1..]| ==>
              bs[1..][j] == bs[j + 1] && (PreferredAt(bs[1..], j) <==> PreferredAt(bs, j + 1))
              && (CastFailsAt(bs[1..], j) <==> CastFailsAt(bs, j + 1))
  {
  }

  /** The lazy `filter(...).findFirst()`: the first booking whose status is a
      preferred string (Some), none (None), or a class-cast failure (Err) when a
      status before any match is neither a string nor null. */
  function FirstPreferred(bs: seq<JsonObject>): (r: Result<Option<JsonObject>>)
    ensures r.Ok? && r.value.Some? ==>
              exists i :: 0 <= i < |bs| && PreferredAt(bs, i) && bs[i] == r.value.value
                          && forall j :: 0 <= j < i ==> !PreferredAt(bs, j) && !CastFailsAt(bs, j)
    ensures r == Ok(None) <==> forall i :: 0 <= i < |bs| ==> !PreferredAt(bs, i) && !CastFailsAt(bs, i)
    ensures r.Err? <==> exists i :: 0 <= i < |bs| && CastFailsAt(bs, i) && forall j :: 0 <= j < i ==> !PreferredAt(bs, j)
    ensures r.Err? ==> r.error == "ClassCastException"
  {
    if bs == [] then Ok(None)
    else if PreferredAt(bs, 0) then
      assert forall i :: 0 < i < |bs| && CastFailsAt(bs, i) ==> exists j :: 0 <= j < i && PreferredAt(bs, j);
      Ok(Some(bs[0]))
    else if CastFailsAt(bs, 0) then Err("ClassCastException")
    else
      var rest := FirstPreferred(bs[1..]);
      ShiftAt(bs);
      if rest.Ok? && rest.value.Some? then
        ghost var i :| 0 <= i < |bs[1..]| && PreferredAt(bs[1..], i) && bs[1..][i] == rest.value.value
                       && forall j :: 0 <= j < i ==> !PreferredAt(bs[1..], j) && !CastFailsAt(bs[1..], j);
        assert PreferredAt(bs, i + 1) && bs[i + 1] == rest.value.value;
        assert forall j :: 0 <= j < i + 1 ==> !PreferredAt(bs, j) && !CastFailsAt(bs, j);
        rest
      else if rest.Err? then
        ghost var i :| 0 <= i < |bs[1..]| && CastFailsAt(bs[1..], i) && forall j :: 0 <= j < i ==> !PreferredAt(bs[1..], j);
        assert CastFailsAt(bs, i + 1) && forall j :: 0 <= j < i + 1 ==> !PreferredAt(bs, j);
        rest
      else
        assert forall i :: 0 <= i < |bs| ==> !PreferredAt(bs, i) && !CastFailsAt(bs, i);
        rest
  }

  /** `getBookingDetails`: from a nonempty list the first preferred booking,
      else the first booking; the placeholder when the list is missing or empty,
      the call fails, or a status throws. */
  function BookingDetails(f: Fetch<seq<JsonObject>>): (b: JsonObject)
    ensures !(f.Answered? && f.data.Some? && f.data.value != []) ==> b == NoBooking
    ensures f.Answered? && f.data.Some? && f.data.value != [] ==>
              var fp := FirstPreferred(f.data.value);
              (fp.Ok? && fp.value.Some? ==> b == fp.value.value)
              && (fp == Ok(None) ==> b == f.data.value[0])
              && (fp.Err? ==> b == NoBooking)
  {
    if f.Answered? && f.data.Some? && f.data.value != [] then
      match FirstPreferred(f.data.value)
      case Ok(Some(x)) => x
      case Ok(None) => f.data.value[0]
      case Err(_) => NoBooking
    else NoBooking
  }

  /** The selection over a list whose statuses are all strings or null: the
      first booking with a preferred status when there is one, the first
      booking otherwise. */
  lemma SelectionOfCleanList(bs: seq<JsonObject>)
    requires bs != []
    requires forall i :: 0 <= i < |bs| ==> !CastFailsAt(bs, i)
    ensures (exists i :: 0 <= i < |bs| && PreferredAt(bs, i)) ==>
              exists i :: 0 <= i < |bs| && PreferredAt(bs, i) && BookingDetails(Answered(Some(bs))) == bs[i]
                          && forall j :: 0 <= j < i ==> !PreferredAt(bs, j)
    ensures (forall i :: 0 <= i < |bs| ==> !PreferredAt(bs, i)) ==> BookingDetails(Answered(Some(bs))) == bs[0]
  {
    var fp := FirstPreferred(bs);
    assert fp.Ok?;
  }

  /** The booking service writes statuses in lower case, so none is preferred
      and the first booking of the list is the one chosen. */
  lemma LowerCaseStatusesPickFirst(bs: seq<JsonObject>)
    requires bs != []
    requires forall i :: 0 <= i < |bs| ==> Field(bs[i], "status") in {JStr("pending"), JStr("confirmed"), JStr("cancelled")}
    ensures BookingDetails(Answered(Some(bs))) == bs[0]
  {
    LowerCaseNotPreferred(bs);
  }

  lemma {:induction false} LowerCaseNotPreferred(bs: seq<JsonObject>)
    requires forall i :: 0 <= i < |bs| ==> Field(bs[i], "status") in {JStr("pending"), JStr("confirmed"), JStr("cancelled")}
    ensures FirstPreferred(bs) == Ok(None)
  {
    if bs != [] {
      assert forall i :: 0 <= i < |bs[1..]| ==> bs[1..][i] == bs[i + 1];
      LowerCaseNotPreferred(bs[1..]);
    }
  }

  /** The booking id of the chosen booking: 'bookingId', or 'id' only when that
      one is null; kept only when it is a number. */
  function BookingIdOf(b: JsonObject): (r: Option<int>)
    ensures Field(b, "bookingId").JNum? ==> r == Some(Field(b, "bookingId").n)
    ensures Field(b, "bookingId").JNull? && Field(b, "id").JNum? ==> r == Some(Field(b, "id").n)
    ensures !Field(b, "bookingId").JNum? && !(Field(b, "bookingId").JNull? && Field(b, "id").JNum?) ==> r.None?
  {
    var v := if Field(b, "bookingId").JNull? then Field(b, "id") else Field(b, "bookingId");
    if v.JNum? then Some(v.n) else None
  }

  /** The details `toDtoEnhanced` adds: the user's three strings when the user
      lookup gave a map, the chosen booking's fields; a field that is neither a
      string nor null throws (Err). */
  function DetailsOf(user: Option<JsonObject>, booking: JsonObject): (r: Result<Details>)
    ensures r.Ok? <==> (user.Some? ==> Castable(user.value, "name") && Castable(user.value, "email")
                                       && Castable(user.value, "contactNumber"))
                       && Castable(booking, "packageName") && Castable(booking, "destination")
                       && Castable(booking, "startDate") && Castable(booking, "endDate") && Castable(booking, "status")
    ensures r.Err? ==> r.error == "ClassCastException"
    ensures user.None? && r.Ok? ==> r.value.userName.None? && r.value.userEmail.None? && r.value.userContactNumber.None?
    ensures user.Some? && r.Ok? ==> Ok(r.value.userName) == StringOrNull(Field(user.value, "name"))
                                    && Ok(r.value.userEmail) == StringOrNull(Field(user.value, "email"))
                                    && Ok(r.value.userContactNumber) == StringOrNull(Field(user.value, "contactNumber"))
    ensures r.Ok? ==> r.value.bookingId == BookingIdOf(booking)
    ensures r.Ok? ==> Ok(r.value.packageName) == StringOrNull(Field(booking, "packageName"))
                      && Ok(r.value.packageDestination) == StringOrNull(Field(booking, "destination"))
                      && Ok(r.value.travelStartDate) == StringOrNull(Field(booking, "startDate"))
                      && Ok(r.value.travelEndDate) == StringOrNull(Field(booking, "endDate"))
                      && Ok(r.value.bookingStatus) == StringOrNull(Field(booking, "status"))
  {
    var name := if user.Some? then StringOrNull(Field(user.value, "name")) else Ok(None);
    var email := if user.Some? then StringOrNull(Field(user.value, "email")) else Ok(None);
    var contact := if user.Some? then StringOrNull(Field(user.value, "contactNumber")) else Ok(None);
    var packageName := StringOrNull(Field(booking, "packageName"));
    var destination := StringOrNull(Field(booking, "destination"));
    var start := StringOrNull(Field(booking, "startDate"));
    var end := StringOrNull(Field(booking, "endDate"));
    var status := StringOrNull(Field(booking, "status"));
    if name.Err? || email.Err? || contact.Err? || packageName.Err? || destination.Err? || start.Err? || end.Err? || status.Err?
    then Err("ClassCastException")
    else Ok(Details(name.value, email.value, contact.value, BookingIdOf(booking), packageName.value,
                    destination.value, start.value, end.value, status.value))
  }

  /** What the two placeholders enrich to. */
  const PlaceholderDetails := Details(Some("Unknown User"), Some("unknown@example.com"), Some("N/A"), Some(0),
                                      None, None, None, None, Some("Unknown"))

  /** The placeholders themselves never throw: a failed user lookup names the
      unknown user, and the booking placeholder has id 0 and status 'Unknown'. */
  lemma PlaceholdersEnrich()
    ensures DetailsOf(Some(UnknownUser), NoBooking) == Ok(PlaceholderDetails)
  {
  }

  /** The two lookups a request needs, keyed by its user id. */
  datatype Lookups = Lookups(users: Option<int> -> Fetch<JsonObject>, bookings: Option<int> -> Fetch<seq<JsonObject>>)

  /** `toDtoEnhanced`: the request's own fields with the details of the user
      and the booking the two lookups give; the first cast that fails throws. */
  function Enhanced(r: Request, look: Lookups): (d: Result<RequestDto>)
    ensures var details := DetailsOf(UserDetails(look.users(r.userId)), BookingDetails(look.bookings(r.userId)));
            (d.Ok? <==> details.Ok?) && (d.Ok? ==> d.value == RequestDto(r, details.value))
            && (d.Err? ==> d.error == "ClassCastException")
    ensures !look.users(r.userId).Answered? && !look.bookings(r.userId).Answered? ==>
              d == Ok(RequestDto(r, PlaceholderDetails))
  {
    PlaceholdersEnrich();
    match DetailsOf(UserDetails(look.users(r.userId)), BookingDetails(look.bookings(r.userId)))
    case Ok(details) => Ok(RequestDto(r, details))
    case Err(e) => Err(e)
  }

  /** The enhanced records of a list, or the first exception. */
  function EnhancedAll(rs: seq<Request>, look: Lookups): (r: Result<seq<RequestDto>>)
    ensures r.Ok? <==> forall i :: 0 <= i < |rs| ==> Enhanced(rs[i], look).Ok?
    ensures r.Ok? ==> |r.value| == |rs| && forall i :: 0 <= i < |rs| ==> Ok(r.value[i]) == Enhanced(rs[i], look)
  {
    MapAll(rs, (q: Request) => Enhanced(q, look))
  }

  /** The list endpoints: every record enhanced, or, when one enrichment
      throws, every record basic. */
  function WithFallback(rs: seq<Request>, look: Lookups): (r: seq<RequestDto>)
    ensures |r| == |rs|
    ensures forall i :: 0 <= i < |rs| ==> r[i].request == rs[i]
    ensures EnhancedAll(rs, look).Err? ==> forall i :: 0 <= i < |rs| ==> r[i] == BasicDto(rs[i])
    ensures EnhancedAll(rs, look).Ok? ==> forall i :: 0 <= i < |rs| ==> Ok(r[i]) == Enhanced(rs[i], look)
  {
    match EnhancedAll(rs, look)
    case Ok(ds) => ds
    case Err(_) => seq(|rs|, i requires 0 <= i < |rs| => BasicDto(rs[i]))
  }

  /** One record whose enrichment throws turns the whole list basic. */
  lemma OneThrowAllBasic(rs: seq<Request>, look: Lookups, j: int)
    requires 0 <= j < |rs| && Enhanced(rs[j], look).Err?
    ensures forall i :: 0 <= i < |rs| ==> WithFallback(rs, look)[i] == BasicDto(rs[i])
  {
  }

  /** The number of a partial update: the new value when it is present. */
  function Over<T>(current: Option<T>, incoming: Option<T>): (r: Option<T>)
    ensures incoming.Some? ==> r == incoming
    ensures incoming.None? ==> r == current
  {
    if incoming.Some? then incoming else current
  }

  /** The defaults a new request gets before it is saved: status 'pending',
      priority 'medium' and both dates now where they are missing, and the
      description made of subject and message when it is missing and both are
      there; every given value is kept. */
  function WithDefaults(e: Request, now: int): (r: Request)
    ensures r.status.Some? && r.priority.Some? && r.requestDate.Some? && r.timestamp.Some?
    ensures e.status.None? ==> r.status == Some("pending")
    ensures e.priority.None? ==> r.priority == Some("medium")
    ensures e.requestDate.None? ==> r.requestDate == Some(now)
    ensures e.timestamp.None? ==> r.timestamp == Some(now)
    ensures e.issueDescription.None? && e.subject.Some? && e.message.Some? ==>
              r.issueDescription == Some(e.subject.value + ": " + e.message.value)
    ensures r.(status := e.status, priority := e.priority, requestDate := e.requestDate, timestamp := e.timestamp,
               issueDescription := e.issueDescription) == e
    ensures Overwritten(e, r) == r
  {
    var issue := if e.issueDescription.None? && e.subject.Some? && e.message.Some?
                 then Some(e.subject.value + ": " + e.message.value) else e.issueDescription;
    e.(status := Over(Some("pending"), e.status), priority := Over(Some("medium"), e.priority),
       requestDate := Over(Some(now), e.requestDate), timestamp := Over(Some(now), e.timestamp),
       issueDescription := issue)
  }

  /** A request with its status, priority and dates set keeps them. */
  lemma DefaultsKeepGivenFields(e: Request, now: int)
    requires e.status.Some? && e.priority.Some? && e.requestDate.Some? && e.timestamp.Some? && e.issueDescription.Some?
    ensures WithDefaults(e, now) == e
  {
  }

  /** The partial overwrite of `update`: the id and user stay, every other
      field takes the incoming value when it is present. */
  function Overwritten(e: Request, d: Request): (r: Request)
    ensures r.requestId == e.requestId && r.userId == e.userId
  {
    e.(issueDescription := Over(e.issueDescription, d.issueDescription), subject := Over(e.subject, d.subject),
       message := Over(e.message, d.message), priority := Over(e.priority, d.priority),
       status := Over(e.status, d.status), requestDate := Over(e.requestDate, d.requestDate),
       timestamp := Over(e.timestamp, d.timestamp), resolutionTime := Over(e.resolutionTime, d.resolutionTime),
       resolutionNote := Over(e.resolutionNote, d.resolutionNote))
  }

  /** Applying the same update twice is applying it once. */
  lemma UpdateIdempotent(e: Request, d: Request)
    ensures Overwritten(Overwritten(e, d), d) == Overwritten(e, d)
  {
  }

  /** An update with nothing present changes nothing. */
  lemma EmptyUpdateKeeps(e: Request, d: Request)
    requires d.issueDescription.None? && d.subject.None? && d.message.None? && d.priority.None? && d.status.None?
    requires d.requestDate.None? && d.timestamp.None? && d.resolutionTime.None? && d.resolutionNote.None?
    ensures Overwritten(e, d) == e
  {
  }

  class AssistanceStore {
    var rows: map<int, Request>
    var nextId: int

    /** Keys run from 1 below the next id, and every row carries its own key. */
    ghost predicate Valid()
      reads this
    {
      nextId >= 1 && forall k :: k in rows ==> 1 <= k < nextId && rows[k].requestId == Some(k)
    }

    constructor ()
      ensures Valid() && rows == map[] && nextId == 1
    {
      rows := map[];
      nextId := 1;
    }

    /** getAll */
    function All(look: Lookups): (r: seq<RequestDto>)
      reads this
      ensures |r| == |Listing(rows, nextId)|
      ensures forall i :: 0 <= i < |r| ==> r[i].request == Listing(rows, nextId)[i]
    {
      WithFallback(Listing(rows, nextId), look)
    }

    /** getById: None for an unknown id; the basic record when the enrichment
        throws. */
    function ById(id: int, look: Lookups): (r: Option<RequestDto>)
      reads this
      ensures r.Some? <==> id in rows
      ensures r.Some? ==> r.value.request == rows[id]
      ensures r.Some? && Enhanced(rows[id], look).Err? ==> r.value == BasicDto(rows[id])
    {
      if id !in rows then None
      else match Enhanced(rows[id], look)
        case Ok(d) => Some(d)
        case Err(_) => Some(BasicDto(rows[id]))
    }

    /** The stored requests of one user, in id order. */
    function OfUser(userId: int): (r: seq<Request>)
      reads this
      ensures forall q :: q in r ==> q.userId == Some(userId) && q in rows.Values
      ensures forall k :: k in rows && 1 <= k < nextId && rows[k].userId == Some(userId) ==> rows[k] in r
    {
      var all := Listing(rows, nextId);
      var r := Filter(all, (q: Request) => q.userId == Some(userId));
      assert forall q :: q in r ==> q in all;
      r
    }

    /** getByUserId: the user's requests, in id order, all enhanced or all
        basic. */
    function ByUser(userId: int, look: Lookups): (r: seq<RequestDto>)
      reads this
      ensures |r| == |OfUser(userId)| && forall i :: 0 <= i < |r| ==> r[i].request == OfUser(userId)[i]
    {
      WithFallback(OfUser(userId), look)
    }

    /** create: the defaults are applied and the row saved (merged into a stored
        row of the same id); the answer is the enhanced record, and when the
        enrichment throws the row stays saved while the call fails. */
    method Create(dto: RequestDto, now: int, look: Lookups) returns (r: Result<RequestDto>)
      requires Valid()
      modifies this
      ensures Valid()
      ensures var key := SaveKey(old(rows), old(nextId), dto.request.requestId);
              var saved := WithDefaults(dto.request, now).(requestId := Some(key));
              rows == old(rows)[key := saved]
              && nextId == (if key == old(nextId) then old(nextId) + 1 else old(nextId))
              && r == Enhanced(saved, look)
    {
      var entity := WithDefaults(dto.request, now);
      var key := SaveKey(rows, nextId, entity.requestId);
      var saved := entity.(requestId := Some(key));
      rows := rows[key := saved];
      if key == nextId {
        nextId := nextId + 1;
      }
      r := Enhanced(saved, look);
    }

    /** update: the present fields overwrite, the rest stay; None for an unknown
        id. */
    method Update(id: int, dto: RequestDto) returns (r: Option<RequestDto>)
      requires Valid()
      modifies this
      ensures Valid() && nextId == old(nextId)
      ensures r.Some? <==> id in old(rows)
      ensures r.Some? ==> r.value == BasicDto(Overwritten(old(rows)[id], dto.request))
                          && rows == old(rows)[id := r.value.request]
      ensures r.None? ==> rows == old(rows)
    {
      if id !in rows {
        return None;
      }
      var e := Overwritten(rows[id], dto.request);
      rows := rows[id := e];
      r := Some(BasicDto(e));
    }

    /** updateStatus: the status only. */
    method UpdateStatus(id: int, status: Option<string>) returns (r: Option<RequestDto>)
      requires Valid()
      modifies this
      ensures Valid() && nextId == old(nextId)
      ensures r.Some? <==> id in old(rows)
      ensures r.Some? ==> r.value == BasicDto(old(rows)[id].(status := status)) && rows == old(rows)[id := r.value.request]
      ensures r.None? ==> rows == old(rows)
    {
      if id !in rows {
        return None;
      }
      var e := rows[id].(status := status);
      rows := rows[id := e];
      r := Some(BasicDto(e));
    }

    /** resolve: completed, resolved now, with the note. */
    method Resolve(id: int, note: Option<string>, now: int) returns (r: Option<RequestDto>)
      requires Valid()
      modifies this
      ensures Valid() && nextId == old(nextId)
      ensures r.Some? <==> id in old(rows)
      ensures r.Some? ==> r.value == BasicDto(old(rows)[id].(status := Some("completed"), resolutionTime := Some(now),
                                                             resolutionNote := note))
                          && rows == old(rows)[id := r.value.request]
      ensures r.None? ==> rows == old(rows)
    {
      if id !in rows {
        return None;
      }
      var e := rows[id].(status := Some("completed"), resolutionTime := Some(now), resolutionNote := note);
      rows := rows[id := e];
      r := Some(BasicDto(e));
    }

    /** delete: the id leaves; an unknown id is ignored. */
    method Delete(id: int)
      requires Valid()
      modifies this
      ensures Valid() && nextId == old(nextId)
      ensures rows == old(rows) - {id}
    {
      rows := rows - {id};
    }
  }
}
