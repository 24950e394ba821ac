// The payment endpoints: the token's user id replaces the one in the body, a
// create or process request is checked field by field, and update, refund and
// delete are refused for a payment of another user; a status change is open to
// any caller.
module PaymentController {
  import opened Common
  import opened Http
  import opened PaymentService
  import opened Table

  datatype Action = UpdateAction | RefundAction | DeleteAction

  datatype PaymentRefusal =
    | InvalidToken
    | BookingIdRequired
    | AmountNotPositive
    | MethodRequired
    | NotOwner(action: Action)

  /** The error text of each refusal. */
  function Message(r: PaymentRefusal): string
  {
    match r
    case InvalidToken => "Invalid or missing authentication token"
    case BookingIdRequired => "Booking ID is required"
    case AmountNotPositive => "Amount is required and must be greater than 0"
    case MethodRequired => "Payment method is required"
    case NotOwner(UpdateAction) => "You can only update your own payments"
    case NotOwner(RefundAction) => "You can only refund your own payments"
    case NotOwner(DeleteAction) => "You can only delete your own payments"
  }

  /** The checks of a create or process request, in order. */
  function CheckPayment(dto: PaymentDto): (r: Option<PaymentRefusal>)
    ensures r.None? <==> dto.bookingId.Some? && dto.amount.Some? && dto.amount.value > 0
                         && !NullOrTrimsEmpty(dto.paymentMethod)
    ensures dto.bookingId.None? ==> r == Some(BookingIdRequired)
    ensures dto.bookingId.Some? && (dto.amount.None? || dto.amount.value <= 0) ==> r == Some(AmountNotPositive)
  {
    if dto.bookingId.None? then Some(BookingIdRequired)
    else if dto.amount.None? || dto.amount.value <= 0 then Some(AmountNotPositive)
    else if NullOrTrimsEmpty(dto.paymentMethod) then Some(MethodRequired)
    else None
  }

  /** createPayment (201) and processPayment (200). */
  method CreateOrProcess(store: PaymentStore, dto: PaymentDto, tokenUserId: Option<int>, process: bool, nowMs: int)
    returns (r: Response<PaymentDto, PaymentRefusal>)
    requires store.Valid()
    modifies store
    ensures store.Valid()
    ensures tokenUserId.None? ==> r == Refused(StatusUnauthorized, InvalidToken)
    ensures tokenUserId.Some? && CheckPayment(dto.(userId := tokenUserId)).Some? ==>
              r == Refused(StatusBadRequest, CheckPayment(dto.(userId := tokenUserId)).value)
    ensures !r.Answer? ==> store.rows == old(store.rows) && store.nextId == old(store.nextId)
    ensures r.Answer? ==> tokenUserId.Some? && CheckPayment(dto.(userId := tokenUserId)).None?
                          && r.data.userId == tokenUserId
                          && r.status == (if process then StatusOk else StatusCreated)
                          && r.data.status == Some(if process then "COMPLETED" else "PENDING")
                          && r.data.paymentId.Some? && r.data.paymentId.value in store.rows
                          && store.rows[r.data.paymentId.value] == ToEntity(r.data)
    ensures r.Answer? ==>
              var k := SaveKey(old(store.rows), old(store.nextId), dto.paymentId);
              var body := dto.(userId := tokenUserId, paymentId := Some(k), paymentDate := Some(nowMs));
              r.data == (if process then body.(status := Some("COMPLETED"), transactionId := Some(TransactionId(nowMs)))
                         else body.(status := Some("PENDING")))
              && store.rows == old(store.rows)[k := ToEntity(r.data)]
    ensures tokenUserId.Some? && CheckPayment(dto.(userId := tokenUserId)).None? ==> r.Answer?
  {
    if tokenUserId.None? {
      return Refused(StatusUnauthorized, InvalidToken);
    }
    var body := dto.(userId := tokenUserId);
    var err := CheckPayment(body);
    if err.Some? {
      return Refused(StatusBadRequest, err.value);
    }
    if process {
      var saved := store.Process(body, nowMs);
      r := Answer(StatusOk, saved);
    } else {
      var saved := store.Create(body, nowMs);
      r := Answer(StatusCreated, saved);
    }
  }

  /** The ownership check of update, refund and delete; None lets the call
      through. An unknown id throws the not-found exception, and a stored payment
      without a user id fails the comparison with a null dereference. */
  function Gate<T>(store: PaymentStore, id: int, tokenUserId: Option<int>, action: Action): (r: Option<Response<T, PaymentRefusal>>)
    reads store
    ensures r.None? <==> tokenUserId.Some? && id in store.rows && store.rows[id].userId == tokenUserId
    ensures tokenUserId.None? ==> r == Some(Refused(StatusUnauthorized, InvalidToken))
    ensures tokenUserId.Some? && id in store.rows && store.rows[id].userId.Some? && store.rows[id].userId != tokenUserId ==>
              r == Some(Refused(StatusForbidden, NotOwner(action)))
    ensures r.Some? ==> !r.value.Answer?
  {
    if tokenUserId.None? then Some(Refused(StatusUnauthorized, InvalidToken))
    else if id !in store.rows then Some(Crashed(Some(PaymentService.NotFound(id))))
    else if store.rows[id].userId.None? then Some(Crashed(None))
    else if store.rows[id].userId != tokenUserId then Some(Refused(StatusForbidden, NotOwner(action)))
    else None
  }

  /** updatePayment: the owner's update; the user, booking and date stay. */
  method UpdatePayment(store: PaymentStore, id: int, dto: PaymentDto, tokenUserId: Option<int>)
    returns (r: Response<PaymentDto, PaymentRefusal>)
    requires store.Valid()
    modifies store
    ensures store.Valid() && store.nextId == old(store.nextId)
    ensures old(Gate<PaymentDto>(store, id, tokenUserId, UpdateAction)).Some? ==>
              r == old(Gate<PaymentDto>(store, id, tokenUserId, UpdateAction)).value && store.rows == old(store.rows)
    ensures old(Gate<PaymentDto>(store, id, tokenUserId, UpdateAction)).None? ==>
              var p := old(store.rows)[id];
              r == Answer(StatusOk, ToDto(p.(amount := dto.amount, paymentMethod := dto.paymentMethod, status := dto.status,
                                            transactionId := dto.transactionId, cardLastFour := dto.cardLastFour,
                                            description := dto.description)))
              && r.data.userId == tokenUserId && r.data.bookingId == p.bookingId && r.data.paymentDate == p.paymentDate
              && store.rows == old(store.rows)[id := ToEntity(r.data)]
  {
    var gate := Gate<PaymentDto>(store, id, tokenUserId, UpdateAction);
    if gate.Some? {
      return gate.value;
    }
    var u := store.Update(id, dto.(userId := tokenUserId));
    r := Answer(StatusOk, u.value);
  }

  /** refundPayment: the owner's refund, which still throws unless completed. */
  method RefundPayment(store: PaymentStore, id: int, tokenUserId: Option<int>)
    returns (r: Response<PaymentDto, PaymentRefusal>)
    requires store.Valid()
    modifies store
    ensures store.Valid() && store.nextId == old(store.nextId)
    ensures old(Gate<PaymentDto>(store, id, tokenUserId, RefundAction)).Some? ==>
              r == old(Gate<PaymentDto>(store, id, tokenUserId, RefundAction)).value && store.rows == old(store.rows)
    ensures old(Gate<PaymentDto>(store, id, tokenUserId, RefundAction)).None? ==>
              if old(store.rows)[id].status == Some("COMPLETED") then
                r == Answer(StatusOk, ToDto(old(store.rows)[id].(status := Some("REFUNDED"))))
                && store.rows == old(store.rows)[id := old(store.rows)[id].(status := Some("REFUNDED"))]
              else r == Crashed(Some(RefundRefused)) && store.rows == old(store.rows)
  {
    var gate := Gate<PaymentDto>(store, id, tokenUserId, RefundAction);
    if gate.Some? {
      return gate.value;
    }
    var f := store.Refund(id);
    if f.Err? {
      return Crashed(Some(f.error));
    }
    r := Answer(StatusOk, f.value);
  }

  /** deletePayment */
  method DeletePayment(store: PaymentStore, id: int, tokenUserId: Option<int>)
    returns (r: Response<(), PaymentRefusal>)
    requires store.Valid()
    modifies store
    ensures store.Valid() && store.nextId == old(store.nextId)
    ensures old(Gate<()>(store, id, tokenUserId, DeleteAction)).Some? ==>
              r == old(Gate<()>(store, id, tokenUserId, DeleteAction)).value && store.rows == old(store.rows)
    ensures old(Gate<()>(store, id, tokenUserId, DeleteAction)).None? ==>
              r == Answer(StatusOk, ()) && store.rows == old(store.rows) - {id}
  {
    var gate := Gate<()>(store, id, tokenUserId, DeleteAction);
    if gate.Some? {
      return gate.value;
    }
    var _ := store.Delete(id);
    r := Answer(StatusOk, ());
  }

  /** updatePaymentStatus: no identity check at all. */
  method UpdatePaymentStatus(store: PaymentStore, id: int, s: PaymentStatusDto)
    returns (r: Response<PaymentDto, PaymentRefusal>)
    requires store.Valid()
    modifies store
    ensures store.Valid() && store.nextId == old(store.nextId)
    ensures id in old(store.rows) ==>
              var p := old(store.rows)[id];
              r.Answer? && r.status == StatusOk && r.data.status == s.status
              && r.data.transactionId == (if NullOrTrimsEmpty(s.transactionId) then p.transactionId else s.transactionId)
              && r.data.description == (if NullOrTrimsEmpty(s.description) then p.description else s.description)
              && ToEntity(r.data).(status := p.status, transactionId := p.transactionId, description := p.description) == p
              && store.rows == old(store.rows)[id := ToEntity(r.data)]
    ensures id !in old(store.rows) ==> r == Crashed(Some(PaymentService.NotFound(id))) && store.rows == old(store.rows)
  {
    var u := store.UpdateStatus(id, s);
    if u.Err? {
      return Crashed(Some(u.error));
    }
    r := Answer(StatusOk, u.value);
  }
}
