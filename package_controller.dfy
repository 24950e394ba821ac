// The package endpoints: the token's user id becomes the package's agent, a
// create or update is checked field by field, and update and delete are
// refused for a package of another agent before anything is checked or changed.
module PackageController {
  import opened Common
  import opened Http
  import opened PackageMapper
  import opened PackageService

  datatype PackageRefusal =
    | InvalidToken
    | TitleRequired
    | DurationRequired
    | PriceRequired
    | NotOwnUpdate
    | NotOwnDelete

  /** The error text of each refusal. */
  function Message(r: PackageRefusal): string
  {
    match r
    case InvalidToken => "Invalid or missing authentication token"
    case TitleRequired => "Title is required"
    case DurationRequired => "Duration is required"
    case PriceRequired => "Price is required and must be greater than 0"
    case NotOwnUpdate => "You can only update your own packages"
    case NotOwnDelete => "You can only delete your own packages"
  }

  /** The checks of a package body, in order: a title, a duration, a positive
      price. */
  function CheckPackage(dto: TravelPackageDto): (r: Option<PackageRefusal>)
    ensures r.None? <==> !NullOrTrimsEmpty(dto.title) && !NullOrTrimsEmpty(dto.duration)
                         && dto.price.Some? && dto.price.value > 0
    ensures NullOrTrimsEmpty(dto.title) ==> r == Some(TitleRequired)
    ensures !NullOrTrimsEmpty(dto.title) && NullOrTrimsEmpty(dto.duration) ==> r == Some(DurationRequired)
    ensures !NullOrTrimsEmpty(dto.title) && !NullOrTrimsEmpty(dto.duration) && r.Some? ==> r == Some(PriceRequired)
  {
    if NullOrTrimsEmpty(dto.title) then Some(TitleRequired)
    else if NullOrTrimsEmpty(dto.duration) then Some(DurationRequired)
    else if dto.price.None? || dto.price.value <= 0 then Some(PriceRequired)
    else None
  }

  /** A title or a duration of spaces only is refused like a missing one. */
  lemma BlankTitleRefused(dto: TravelPackageDto)
    requires dto.title == Some("   ")
    ensures CheckPackage(dto) == Some(TitleRequired)
  {
    JavaTrimEmptyIff("   ");
  }

  /** getPackageById: an unknown id escapes as the not-found exception. */
  function GetPackage(store: PackageStore, id: int): (r: Response<TravelPackageDto, PackageRefusal>)
    reads store
    ensures r.Answer? <==> id in store.rows
    ensures r.Answer? ==> r.status == StatusOk && ToEntity(Some(r.data)) == Some(store.rows[id])
    ensures !r.Answer? ==> r == Crashed(Some(PackageService.NotFound(id)))
  {
    match store.ById(id)
    case Ok(p) => Answer(StatusOk, p)
    case Err(e) => Crashed(Some(e))
  }

  /** getMyPackages: the packages of the token's agent. */
  function MyPackages(store: PackageStore, tokenAgentId: Option<int>): (r: Response<seq<TravelPackageDto>, PackageRefusal>)
    requires store.Valid()
    reads store
    ensures tokenAgentId.None? <==> r == Refused(StatusUnauthorized, InvalidToken)
    ensures tokenAgentId.Some? ==> r.Answer? && r.status == StatusOk
                                   && (forall d :: d in r.data ==> d.agentId == tokenAgentId)
                                   && (forall k :: k in store.rows && store.rows[k].agentId == tokenAgentId ==> Dto(store.rows[k]) in r.data)
                                   && r.data == store.ByAgent(tokenAgentId.value)
  {
    if tokenAgentId.None? then Refused(StatusUnauthorized, InvalidToken)
    else Answer(StatusOk, store.ByAgent(tokenAgentId.value))
  }

  /** createPackage: the agent comes from the token, whatever the body said, and
      the package gets a fresh id. */
  method CreatePackage(store: PackageStore, dto: TravelPackageDto, tokenAgentId: Option<int>)
    returns (r: Response<TravelPackageDto, PackageRefusal>)
    requires store.Valid()
    modifies store
    ensures store.Valid()
    ensures tokenAgentId.None? ==> r == Refused(StatusUnauthorized, InvalidToken)
    ensures tokenAgentId.Some? && CheckPackage(dto.(agentId := tokenAgentId)).Some? ==>
              r == Refused(StatusBadRequest, CheckPackage(dto.(agentId := tokenAgentId)).value)
    ensures !r.Answer? ==> store.rows == old(store.rows) && store.nextId == old(store.nextId)
    ensures tokenAgentId.Some? && CheckPackage(dto.(agentId := tokenAgentId)).None? ==>
              var saved := dto.(agentId := tokenAgentId, packageId := Some(old(store.nextId)));
              r == Answer(StatusCreated, saved)
              && store.rows == old(store.rows)[old(store.nextId) := ToEntity(Some(saved)).value]
  {
    if tokenAgentId.None? {
      return Refused(StatusUnauthorized, InvalidToken);
    }
    var body := dto.(agentId := tokenAgentId);
    var err := CheckPackage(body);
    if err.Some? {
      return Refused(StatusBadRequest, err.value);
    }
    var saved := store.Create(body);
    r := Answer(StatusCreated, saved);
  }

  /** The ownership check of update and delete: None lets the call through; an
      unknown id throws the not-found exception, and a stored package without an
      agent fails the comparison with a null dereference. */
  function OwnerGate<T>(store: PackageStore, id: int, tokenAgentId: Option<int>, refusal: PackageRefusal)
    : (r: Option<Response<T, PackageRefusal>>)
    reads store
    ensures r.None? <==> tokenAgentId.Some? && id in store.rows && store.rows[id].agentId == tokenAgentId
    ensures tokenAgentId.None? ==> r == Some(Refused(StatusUnauthorized, InvalidToken))
    ensures tokenAgentId.Some? && id !in store.rows ==> r == Some(Crashed(Some(PackageService.NotFound(id))))
    ensures (tokenAgentId.Some? && id in store.rows && store.rows[id].agentId.Some?
             && store.rows[id].agentId != tokenAgentId) ==> r == Some(Refused(StatusForbidden, refusal))
    ensures r.Some? ==> !r.value.Answer?
  {
    if tokenAgentId.None? then Some(Refused(StatusUnauthorized, InvalidToken))
    else if id !in store.rows then Some(Crashed(Some(PackageService.NotFound(id))))
    else if store.rows[id].agentId.None? then Some(Crashed(None))
    else if store.rows[id].agentId != tokenAgentId then Some(Refused(StatusForbidden, refusal))
    else None
  }

  /** updatePackage: the owner's update, checked like a create once the agent is
      forced to the owner; the stored row takes the body's fields and keeps its
      id. */
  method UpdatePackage(store: PackageStore, id: int, dto: TravelPackageDto, tokenAgentId: Option<int>)
    returns (r: Response<TravelPackageDto, PackageRefusal>)
    requires store.Valid()
    modifies store
    ensures store.Valid() && store.nextId == old(store.nextId)
    ensures old(OwnerGate<TravelPackageDto>(store, id, tokenAgentId, NotOwnUpdate)).Some? ==>
              r == old(OwnerGate<TravelPackageDto>(store, id, tokenAgentId, NotOwnUpdate)).value
              && store.rows == old(store.rows)
    ensures (old(OwnerGate<TravelPackageDto>(store, id, tokenAgentId, NotOwnUpdate)).None?
             && CheckPackage(dto.(agentId := tokenAgentId)).Some?) ==>
              r == Refused(StatusBadRequest, CheckPackage(dto.(agentId := tokenAgentId)).value)
              && store.rows == old(store.rows)
    ensures (old(OwnerGate<TravelPackageDto>(store, id, tokenAgentId, NotOwnUpdate)).None?
             && CheckPackage(dto.(agentId := tokenAgentId)).None?) ==>
              var body := dto.(agentId := tokenAgentId);
              r == Answer(StatusOk, body.(packageId := Some(id)))
              && store.rows == old(store.rows)[id := Updated(old(store.rows)[id], body)]
  {
    var gate := OwnerGate<TravelPackageDto>(store, id, tokenAgentId, NotOwnUpdate);
    if gate.Some? {
      return gate.value;
    }
    var body := dto.(agentId := tokenAgentId);
    var err := CheckPackage(body);
    if err.Some? {
      return Refused(StatusBadRequest, err.value);
    }
    var u := store.Update(id, body);
    r := Answer(StatusOk, u.value);
  }

  const Deleted := "Package deleted successfully"

  /** deletePackage: only the owner's package leaves. */
  method DeletePackage(store: PackageStore, id: int, tokenAgentId: Option<int>)
    returns (r: Response<string, PackageRefusal>)
    requires store.Valid()
    modifies store
    ensures store.Valid() && store.nextId == old(store.nextId)
    ensures old(OwnerGate<string>(store, id, tokenAgentId, NotOwnDelete)).Some? ==>
              r == old(OwnerGate<string>(store, id, tokenAgentId, NotOwnDelete)).value && store.rows == old(store.rows)
    ensures old(OwnerGate<string>(store, id, tokenAgentId, NotOwnDelete)).None? ==>
              r == Answer(StatusOk, Deleted) && store.rows == old(store.rows) - {id}
  {
    var gate := OwnerGate<string>(store, id, tokenAgentId, NotOwnDelete);
    if gate.Some? {
      return gate.value;
    }
    var _ := store.Delete(id);
    r := Answer(StatusOk, Deleted);
  }

  /** getMyPackagesWithStats: the statistics of the token's agent. */
  method MyPackagesWithStats(store: PackageStore, tokenAgentId: Option<int>, agentFetch: Fetch<JsonObject>,
                             bookingsOf: Option<int> -> Fetch<seq<JsonObject>>,
                             users: int -> Fetch<JsonObject>, payments: int -> Fetch<JsonObject>)
    returns (r: Response<AgentStatistics, PackageRefusal>)
    requires store.Valid()
    ensures tokenAgentId.None? <==> r == Refused(StatusUnauthorized, InvalidToken)
    ensures tokenAgentId.Some? ==> r.Answer? && r.status == StatusOk
                                   && r.data.packages == store.ByAgent(tokenAgentId.value)
                                   && r.data.totalPackages == |r.data.packages|
                                   && r.data.agent == AgentEntryOf(tokenAgentId.value, agentFetch)
                                   && r.data.pendingBookings == r.data.totalBookings - r.data.totalConfirmedBookings
    ensures tokenAgentId.Some? ==>
              var t := Tallies(store.ByAgent(tokenAgentId.value), bookingsOf, users, payments);
              r.Answer? && r.data.bookings == t.bookings && r.data.totalBookings == t.total
              && r.data.totalConfirmedBookings == t.confirmed
  {
    if tokenAgentId.None? {
      return Refused(StatusUnauthorized, InvalidToken);
    }
    var stats := store.AgentStatisticsOf(tokenAgentId.value, agentFetch, bookingsOf, users, payments);
    r := Answer(StatusOk, stats);
  }
}
