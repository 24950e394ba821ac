// The booking endpoints: the token's user id replaces the one in the body, a
// create is checked field by field, and update, delete and cancel are refused
// for a booking of another user; confirm is open to any caller.
module BookingController {
  import opened Common
  import opened Http
  import opened BookingService

  datatype Action = UpdateAction | DeleteAction | CancelAction

  datatype BookingRefusal =
    | InvalidToken
    | PackageIdRequired
    | StartDateRequired
    | EndDateRequired
    | StartAfterEnd
    | NotOwner(action: Action)

  /** The error text of each refusal. */
  function Message(r: BookingRefusal): string
  {
    match r
    case InvalidToken => "Invalid or missing authentication token"
    case PackageIdRequired => "Package ID is required"
    case StartDateRequired => "Start date is required"
    case EndDateRequired => "End date is required"
    case StartAfterEnd => "Start date must be before end date"
    case NotOwner(UpdateAction) => "You can only update your own bookings"
    case NotOwner(DeleteAction) => "You can only delete your own bookings"
    case NotOwner(CancelAction) => "You can only cancel your own bookings"
  }

  /** The checks of a new booking, in order, once the token's user id is set. */
  function CheckNewBooking(dto: Booking): (r: Option<BookingRefusal>)
    ensures r.None? <==> dto.packageId.Some? && dto.startDate.Some? && dto.endDate.Some?
                         && dto.startDate.value <= dto.endDate.value
    ensures dto.packageId.None? ==> r == Some(PackageIdRequired)
    ensures dto.packageId.Some? && dto.startDate.None? ==> r == Some(StartDateRequired)
    ensures dto.packageId.Some? && dto.startDate.Some? && dto.endDate.None? ==> r == Some(EndDateRequired)
  {
    if dto.packageId.None? then Some(PackageIdRequired)
    else if dto.startDate.None? then Some(StartDateRequired)
    else if dto.endDate.None? then Some(EndDateRequired)
    else if dto.startDate.value > dto.endDate.value then Some(StartAfterEnd)
    else None
  }

  /** A booking that starts and ends on the same day is accepted. */
  lemma SameDayAccepted(dto: Booking)
    requires dto.packageId.Some? && dto.startDate.Some? && dto.startDate == dto.endDate
    ensures CheckNewBooking(dto).None?
  {
  }

  /** createBooking */
  method CreateBooking(store: BookingStore, dto: Booking, tokenUserId: Option<int>)
    returns (r: Response<Booking, BookingRefusal>)
    requires store.Valid()
    modifies store
    ensures store.Valid()
    ensures tokenUserId.None? ==> r == Refused(StatusUnauthorized, InvalidToken)
    ensures tokenUserId.Some? && CheckNewBooking(dto.(userId := tokenUserId)).Some? ==>
              r == Refused(StatusBadRequest, CheckNewBooking(dto.(userId := tokenUserId)).value)
    ensures !r.Answer? ==> store.rows == old(store.rows) && store.nextId == old(store.nextId)
    ensures tokenUserId.Some? && CheckNewBooking(dto.(userId := tokenUserId)).None? ==>
              var saved := dto.(bookingId := Some(old(store.nextId)), userId := tokenUserId, status := Some("pending"));
              r == Answer(StatusCreated, saved) && store.rows == old(store.rows)[old(store.nextId) := saved]
  {
    if tokenUserId.None? {
      return Refused(StatusUnauthorized, InvalidToken);
    }
    var body := dto.(userId := tokenUserId);
    var err := CheckNewBooking(body);
    if err.Some? {
      return Refused(StatusBadRequest, err.value);
    }
    var saved := store.Create(body);
    r := Answer(StatusCreated, saved);
  }

  /** The ownership check of update, delete and cancel: None lets the call
      through; an unknown id throws the not-found exception, and a stored booking
      without a user id fails the comparison with a null dereference. */
  function Gate<T>(store: BookingStore, id: int, tokenUserId: Option<int>, action: Action): (r: Option<Response<T, BookingRefusal>>)
    reads store
    ensures r.None? <==> tokenUserId.Some? && id in store.rows && store.rows[id].userId == tokenUserId
    ensures tokenUserId.None? ==> r == Some(Refused(StatusUnauthorized, InvalidToken))
    ensures tokenUserId.Some? && id in store.rows && store.rows[id].userId.Some? && store.rows[id].userId != tokenUserId ==>
              r == Some(Refused(StatusForbidden, NotOwner(action)))
    ensures r.Some? ==> !r.value.Answer?
  {
    if tokenUserId.None? then Some(Refused(StatusUnauthorized, InvalidToken))
    else if id !in store.rows then Some(Crashed(Some(BookingService.NotFound(id))))
    else if store.rows[id].userId.None? then Some(Crashed(None))
    else if store.rows[id].userId != tokenUserId then Some(Refused(StatusForbidden, NotOwner(action)))
    else None
  }

  /** updateBooking: the owner's update, with the user id forced to the owner's. */
  method UpdateBooking(store: BookingStore, id: int, dto: Booking, tokenUserId: Option<int>)
    returns (r: Response<Booking, BookingRefusal>)
    requires store.Valid()
    modifies store
    ensures store.Valid() && store.nextId == old(store.nextId)
    ensures old(Gate<Booking>(store, id, tokenUserId, UpdateAction)).Some? ==>
              r == old(Gate<Booking>(store, id, tokenUserId, UpdateAction)).value && store.rows == old(store.rows)
    ensures old(Gate<Booking>(store, id, tokenUserId, UpdateAction)).None? ==>
              var b := dto.(bookingId := Some(id), userId := tokenUserId);
              r == Answer(StatusOk, b) && store.rows == old(store.rows)[id := b]
  {
    var gate := Gate<Booking>(store, id, tokenUserId, UpdateAction);
    if gate.Some? {
      return gate.value;
    }
    var u := store.Update(id, dto.(userId := tokenUserId));
    r := Answer(StatusOk, u.value);
  }

  /** deleteBooking */
  method DeleteBooking(store: BookingStore, id: int, tokenUserId: Option<int>)
    returns (r: Response<(), BookingRefusal>)
    requires store.Valid()
    modifies store
    ensures store.Valid() && store.nextId == old(store.nextId)
    ensures old(Gate<()>(store, id, tokenUserId, DeleteAction)).Some? ==>
              r == old(Gate<()>(store, id, tokenUserId, DeleteAction)).value && store.rows == old(store.rows)
    ensures old(Gate<()>(store, id, tokenUserId, DeleteAction)).None? ==>
              r == Answer(StatusOk, ()) && store.rows == old(store.rows) - {id}
  {
    var gate := Gate<()>(store, id, tokenUserId, DeleteAction);
    if gate.Some? {
      return gate.value;
    }
    var _ := store.Delete(id);
    r := Answer(StatusOk, ());
  }

  /** cancelBooking */
  method CancelBooking(store: BookingStore, id: int, tokenUserId: Option<int>)
    returns (r: Response<Booking, BookingRefusal>)
    requires store.Valid()
    modifies store
    ensures store.Valid() && store.nextId == old(store.nextId)
    ensures old(Gate<Booking>(store, id, tokenUserId, CancelAction)).Some? ==>
              r == old(Gate<Booking>(store, id, tokenUserId, CancelAction)).value && store.rows == old(store.rows)
    ensures old(Gate<Booking>(store, id, tokenUserId, CancelAction)).None? ==>
              var b := old(store.rows)[id].(status := Some("cancelled"));
              r == Answer(StatusOk, b) && store.rows == old(store.rows)[id := b]
  {
    var gate := Gate<Booking>(store, id, tokenUserId, CancelAction);
    if gate.Some? {
      return gate.value;
    }
    var c := store.Cancel(id);
    r := Answer(StatusOk, c.value);
  }

  /** confirmBooking: no identity check at all. */
  method ConfirmBooking(store: BookingStore, id: int) returns (r: Response<Booking, BookingRefusal>)
    requires store.Valid()
    modifies store
    ensures store.Valid() && store.nextId == old(store.nextId)
    ensures id in old(store.rows) ==>
              var b := old(store.rows)[id].(status := Some("confirmed"));
              r == Answer(StatusOk, b) && store.rows == old(store.rows)[id := b]
    ensures id !in old(store.rows) ==> r == Crashed(Some(BookingService.NotFound(id))) && store.rows == old(store.rows)
  {
    var c := store.Confirm(id);
    if c.Err? {
      return Crashed(Some(BookingService.NotFound(id)));
    }
    r := Answer(StatusOk, c.value);
  }

  /** getMyBookings: the token's user's bookings. */
  function MyBookings(store: BookingStore, tokenUserId: Option<int>): (r: Response<seq<Booking>, BookingRefusal>)
    requires store.Valid()
    reads store
    ensures tokenUserId.None? ==> r == Refused(StatusUnauthorized, InvalidToken)
    ensures tokenUserId.Some? ==> r.Answer? && r.status == StatusOk
                                  && forall b :: b in r.data <==> b in store.rows.Values && b.userId == tokenUserId
  {
    if tokenUserId.None? then Refused(StatusUnauthorized, InvalidToken)
    else Answer(StatusOk, store.ByUser(tokenUserId))
  }
}
