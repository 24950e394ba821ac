// The payment service: payments created pending or processed as completed,
// refunded only once completed, their status and details updated, and listed
// with the booking and user they belong to.
module PaymentService {
  import opened Common
  import opened Table
  import opened Http

  /** The stored payment. Amounts are in cents; the payment date is a clock
      reading. */
  datatype Payment = Payment(paymentId: Option<int>, userId: Option<int>, bookingId: Option<int>,
                             amount: Option<int>, paymentMethod: Option<string>, status: Option<string>,
                             paymentDate: Option<int>, transactionId: Option<string>,
                             cardLastFour: Option<string>, description: Option<string>)

  /** The payment as the endpoints send and receive it. */
  datatype PaymentDto = PaymentDto(paymentId: Option<int>, userId: Option<int>, bookingId: Option<int>,
                                   amount: Option<int>, paymentMethod: Option<string>, status: Option<string>,
                                   paymentDate: Option<int>, transactionId: Option<string>,
                                   cardLastFour: Option<string>, description: Option<string>)

  /** The body of a status change. */
  datatype PaymentStatusDto = PaymentStatusDto(status: Option<string>, transactionId: Option<string>,
                                               description: Option<string>)

  function ToDto(p: Payment): PaymentDto
  {
    PaymentDto(p.paymentId, p.userId, p.bookingId, p.amount, p.paymentMethod, p.status, p.paymentDate,
               p.transactionId, p.cardLastFour, p.description)
  }

  function ToEntity(d: PaymentDto): Payment
  {
    Payment(d.paymentId, d.userId, d.bookingId, d.amount, d.paymentMethod, d.status, d.paymentDate,
            d.transactionId, d.cardLastFour, d.description)
  }

  /** The two conversions are inverse to each other, field for field. */
  lemma ConversionsInverse(p: Payment, d: PaymentDto)
    ensures ToEntity(ToDto(p)) == p
    ensures ToDto(ToEntity(d)) == d
  {
  }

  /** `map(this::toDto)` over a list of payments. */
  function Dtos(ps: seq<Payment>): (r: seq<PaymentDto>)
    ensures |r| == |ps| && forall i :: 0 <= i < |ps| ==> r[i] == ToDto(ps[i])
    ensures forall d :: d in r <==> ToEntity(d) in ps
  {
    var r := seq(|ps|, i requires 0 <= i < |ps| => ToDto(ps[i]));
    assert forall d :: d in r ==> ToEntity(d) in ps by {
      forall d | d in r ensures ToEntity(d) in ps {
        var i :| 0 <= i < |r| && r[i] == d;
        assert ToEntity(d) == ps[i];
      }
    }
    forall d | ToEntity(d) in ps ensures d in r {
      var i :| 0 <= i < |ps| && ps[i] == ToEntity(d);
      assert r[i] == ToDto(ToEntity(d)) == d;
    }
    r
  }

  function NotFound(id: int): string { "Payment not found with id: " + IntToString(id) }

  const RefundRefused := "Can only refund completed payments"

  /** The transaction id `processPayment` makes from the clock. */
  function TransactionId(nowMs: int): (t: string)
    ensures StartsWith(t, "TXN-")
  {
    "TXN-" + IntToString(nowMs)
  }

  /** The fallback entries when the booking or user service cannot answer. */
  datatype Fallback = BookingFallback(bookingId: int, status: string, packageTitle: string)
                    | UserFallback(userId: int, name: string, email: string)

  function BookingFallbackFor(bookingId: int): Fallback
  {
    BookingFallback(bookingId, "Unknown", "Booking information unavailable")
  }

  function UserFallbackFor(userId: int): Fallback
  {
    UserFallback(userId, "Unknown User", "user@unknown.com")
  }

  /** A related record: what the other service answered, or a fallback. */
  datatype Related<D> = Fetched(data: Option<D>) | Fallen(fallback: Fallback)

  /** One related record with its fallback; None when the fallback itself throws
      (`Map.of` refuses a null id). */
  function RelatedOr<D>(fetch: Fetch<D>, id: Option<int>, fallback: int -> Fallback): (r: Option<Related<D>>)
    ensures fetch.Answered? ==> r == Some(Fetched(fetch.data))
    ensures !fetch.Answered? && id.Some? ==> r == Some(Fallen(fallback(id.value)))
    ensures !fetch.Answered? && id.None? ==> r.None?
  {
    if fetch.Answered? then Some(Fetched(fetch.data))
    else if id.Some? then Some(Fallen(fallback(id.value)))
    else None
  }

  /** getPaymentWithBookingAndUserDetails's map, one optional entry per key:
      the entries put before an exception stay in the map beside the error. */
  datatype PaymentDetails<B, U> = PaymentDetails(payment: Option<PaymentDto>, booking: Option<Related<B>>,
                                                 user: Option<Related<U>>, error: Option<string>)

  const DetailsFailed := "Failed to fetch payment details"

  /** An enriched payment; `booking` is None when no entry was put, and
      Some(None) when it was put as null. */
  datatype EnrichedPayment<B> = EnrichedPayment(payment: PaymentDto, booking: Option<Option<B>>)

  function Enrich<B>(p: PaymentDto, fetch: Option<int> -> Fetch<B>): (e: EnrichedPayment<B>)
    ensures e.payment == p
    ensures fetch(p.bookingId).Answered? ==> e.booking == Some(fetch(p.bookingId).data)
    ensures fetch(p.bookingId).BadAnswer? ==> e.booking.None?
    ensures fetch(p.bookingId).Threw? ==> e.booking == Some(None)
  {
    match fetch(p.bookingId)
    case Answered(data) => EnrichedPayment(p, Some(data))
    case BadAnswer => EnrichedPayment(p, None)
    case Threw => EnrichedPayment(p, Some(None))
  }

  class PaymentStore {
    var rows: map<int, Payment>
    var nextId: int

    /** Keys run from 1 below the next id, and every row carries its own key. */
    ghost predicate Valid()
      reads this
    {
      nextId >= 1 && forall k :: k in rows ==> 1 <= k < nextId && rows[k].paymentId == Some(k)
    }

    constructor ()
      ensures Valid() && rows == map[] && nextId == 1
    {
      rows := map[];
      nextId := 1;
    }

    /** getAllPayments: every stored payment, in key order. */
    function All(): (r: seq<PaymentDto>)
      reads this
      ensures forall k :: k in rows && 1 <= k < nextId ==> ToDto(rows[k]) in r
      ensures forall d :: d in r ==> ToEntity(d) in rows.Values
    {
      var s := Listing(rows, nextId);
      var r := Dtos(s);
      assert forall k :: k in rows && 1 <= k < nextId ==> ToDto(rows[k]) in r by {
        forall k | k in rows && 1 <= k < nextId ensures ToDto(rows[k]) in r {
          var i :| 0 <= i < |s| && s[i] == rows[k];
          assert r[i] == ToDto(rows[k]);
        }
      }
      r
    }

    /** The listing is the rows at the stored keys, in ascending key order. */
    lemma AllInKeyOrder()
      ensures All() == Dtos(RowsAt(rows, Keys(rows, nextId)))
    {
      ListingInKeyOrder(rows, nextId);
    }

    /** getPaymentById */
    function ById(id: int): (r: Result<PaymentDto>)
      reads this
      ensures r.Ok? <==> id in rows
      ensures r.Ok? ==> ToEntity(r.value) == rows[id]
      ensures r.Err? ==> r.error == NotFound(id)
    {
      if id in rows then Ok(ToDto(rows[id])) else Err(NotFound(id))
    }

    /** getPaymentsByUserId: exactly the stored payments of that user. */
    function ByUser(userId: Option<int>): (r: seq<PaymentDto>)
      requires Valid()
      reads this
      ensures forall d :: d in r <==> ToEntity(d) in rows.Values && d.userId == userId
    {
      var ps := Filter(Listing(rows, nextId), (p: Payment) => p.userId == userId);
      Dtos(ps)
    }

    /** getPaymentsByBookingId: exactly the stored payments of that booking. */
    function ByBooking(bookingId: Option<int>): (r: seq<PaymentDto>)
      requires Valid()
      reads this
      ensures forall d :: d in r <==> ToEntity(d) in rows.Values && d.bookingId == bookingId
    {
      var ps := Filter(Listing(rows, nextId), (p: Payment) => p.bookingId == bookingId);
      Dtos(ps)
    }

    /** getUserPaymentsWithBookingDetails */
    function WithBookingDetails<B>(userId: Option<int>, fetch: Option<int> -> Fetch<B>): (r: seq<EnrichedPayment<B>>)
      requires Valid()
      reads this
      ensures |r| == |ByUser(userId)|
      ensures forall i :: 0 <= i < |r| ==> r[i] == Enrich(ByUser(userId)[i], fetch)
    {
      var mine := ByUser(userId);
      seq(|mine|, i requires 0 <= i < |mine| => Enrich(mine[i], fetch))
    }

    /** getPaymentWithBookingAndUserDetails: the payment, then the booking,
        then the user, each related record falling back on its own; an unknown
        payment, or a fallback for a null id, ends the filling with the error
        entry, and what was put before stays. */
    function WithDetails<B, U>(id: int, booking: Fetch<B>, user: Fetch<U>): (r: PaymentDetails<B, U>)
      reads this
      ensures id !in rows ==> r == PaymentDetails(None, None, None, Some(DetailsFailed))
      ensures id in rows ==> r.payment.Some? && ToEntity(r.payment.value) == rows[id]
      ensures id in rows ==> r.booking == RelatedOr(booking, rows[id].bookingId, BookingFallbackFor)
      ensures id in rows ==> r.user == if r.booking.None? then None
                                       else RelatedOr(user, rows[id].userId, UserFallbackFor)
      ensures r.error.Some? <==> r.payment.None? || r.booking.None? || r.user.None?
      ensures r.error.Some? ==> r.error.value == DetailsFailed
      ensures id in rows && booking.Answered? && user.Answered? ==> r.error.None?
    {
      if id !in rows then PaymentDetails(None, None, None, Some(DetailsFailed))
      else
        var p := ToDto(rows[id]);
        var b := RelatedOr(booking, p.bookingId, BookingFallbackFor);
        if b.None? then PaymentDetails(Some(p), None, None, Some(DetailsFailed))
        else
          var u := RelatedOr(user, p.userId, UserFallbackFor);
          if u.None? then PaymentDetails(Some(p), b, None, Some(DetailsFailed))
          else PaymentDetails(Some(p), b, u, None)
    }

    /** The repository's `save`: a merge into the row with the entity's id, or a
        new row. */
    method Save(p: Payment) returns (stored: Payment)
      requires Valid()
      modifies this
      ensures Valid()
      ensures var k := SaveKey(old(rows), old(nextId), p.paymentId);
              stored == p.(paymentId := Some(k)) && rows == old(rows)[k := stored]
              && nextId == if k == old(nextId) then old(nextId) + 1 else old(nextId)
    {
      var k := SaveKey(rows, nextId, p.paymentId);
      stored := p.(paymentId := Some(k));
      rows := rows[k := stored];
      if k == nextId {
        nextId := nextId + 1;
      }
    }

    /** createPayment: status 'PENDING' and the clock's date, every other field
        as sent. */
    method Create(dto: PaymentDto, now: int) returns (saved: PaymentDto)
      requires Valid()
      modifies this
      ensures Valid()
      ensures var k := SaveKey(old(rows), old(nextId), dto.paymentId);
              saved == dto.(paymentId := Some(k), status := Some("PENDING"), paymentDate := Some(now))
              && rows == old(rows)[k := ToEntity(saved)]
      ensures nextId == if dto.paymentId.Some? && dto.paymentId.value in old(rows) then old(nextId) else old(nextId) + 1
    {
      var stored := Save(ToEntity(dto).(paymentDate := Some(now), status := Some("PENDING")));
      saved := ToDto(stored);
    }

    /** processPayment: status 'COMPLETED' and a transaction id from the clock. */
    method Process(dto: PaymentDto, nowMs: int) returns (saved: PaymentDto)
      requires Valid()
      modifies this
      ensures Valid()
      ensures var k := SaveKey(old(rows), old(nextId), dto.paymentId);
              saved == dto.(paymentId := Some(k), status := Some("COMPLETED"), paymentDate := Some(nowMs),
                            transactionId := Some(TransactionId(nowMs)))
              && rows == old(rows)[k := ToEntity(saved)]
      ensures nextId == if dto.paymentId.Some? && dto.paymentId.value in old(rows) then old(nextId) else old(nextId) + 1
    {
      var p := ToEntity(dto).(paymentDate := Some(nowMs), transactionId := Some(TransactionId(nowMs)),
                              status := Some("COMPLETED"));
      var stored := Save(p);
      saved := ToDto(stored);
    }

    /** updatePayment: six fields from the request; the user, booking and date
        stay. */
    method Update(id: int, dto: PaymentDto) returns (r: Result<PaymentDto>)
      requires Valid()
      modifies this
      ensures Valid() && nextId == old(nextId)
      ensures r.Ok? <==> id in old(rows)
      ensures r.Ok? ==> var p := old(rows)[id];
                        r.value == ToDto(p.(amount := dto.amount, paymentMethod := dto.paymentMethod, status := dto.status,
                                            transactionId := dto.transactionId, cardLastFour := dto.cardLastFour,
                                            description := dto.description))
                        && r.value.userId == p.userId && r.value.bookingId == p.bookingId
                        && r.value.paymentDate == p.paymentDate
                        && rows == old(rows)[id := ToEntity(r.value)]
      ensures r.Err? ==> r.error == NotFound(id) && rows == old(rows)
    {
      if id !in rows {
        return Err(NotFound(id));
      }
      var p := rows[id].(amount := dto.amount, paymentMethod := dto.paymentMethod, status := dto.status,
                         transactionId := dto.transactionId, cardLastFour := dto.cardLastFour,
                         description := dto.description);
      rows := rows[id := p];
      r := Ok(ToDto(p));
    }

    /** updatePaymentStatus: the status always; the transaction id and the
        description only when the new one has text. */
    method UpdateStatus(id: int, s: PaymentStatusDto) returns (r: Result<PaymentDto>)
      requires Valid()
      modifies this
      ensures Valid() && nextId == old(nextId)
      ensures r.Ok? <==> id in old(rows)
      ensures r.Ok? ==> var p := old(rows)[id];
                        r.value.status == s.status
                        && r.value.transactionId == (if NullOrTrimsEmpty(s.transactionId) then p.transactionId else s.transactionId)
                        && r.value.description == (if NullOrTrimsEmpty(s.description) then p.description else s.description)
                        && ToEntity(r.value).(status := p.status, transactionId := p.transactionId, description := p.description) == p
                        && rows == old(rows)[id := ToEntity(r.value)]
      ensures r.Err? ==> r.error == NotFound(id) && rows == old(rows)
    {
      if id !in rows {
        return Err(NotFound(id));
      }
      var p := rows[id].(status := s.status);
      if !NullOrTrimsEmpty(s.transactionId) {
        p := p.(transactionId := s.transactionId);
      }
      if !NullOrTrimsEmpty(s.description) {
        p := p.(description := s.description);
      }
      rows := rows[id := p];
      r := Ok(ToDto(p));
    }

    /** deletePayment */
    method Delete(id: int) returns (r: Result<()>)
      requires Valid()
      modifies this
      ensures Valid() && nextId == old(nextId)
      ensures r.Ok? <==> id in old(rows)
      ensures r.Ok? ==> rows == old(rows) - {id}
      ensures r.Err? ==> r.error == NotFound(id) && rows == old(rows)
    {
      if id !in rows {
        return Err(NotFound(id));
      }
      rows := rows - {id};
      r := Ok(());
    }

    /** refundPayment: only a payment whose status is exactly 'COMPLETED'
        becomes 'REFUNDED'; anything else throws and nothing changes. */
    method Refund(id: int) returns (r: Result<PaymentDto>)
      requires Valid()
      modifies this
      ensures Valid() && nextId == old(nextId)
      ensures r.Ok? <==> id in old(rows) && old(rows)[id].status == Some("COMPLETED")
      ensures r.Ok? ==> r.value == ToDto(old(rows)[id].(status := Some("REFUNDED")))
                        && rows == old(rows)[id := ToEntity(r.value)]
      ensures id !in old(rows) ==> r == Err(NotFound(id))
      ensures id in old(rows) && r.Err? ==> r.error == RefundRefused
      ensures r.Err? ==> rows == old(rows)
    {
      if id !in rows {
        return Err(NotFound(id));
      }
      if rows[id].status != Some("COMPLETED") {
        return Err(RefundRefused);
      }
      var p := rows[id].(status := Some("REFUNDED"));
      rows := rows[id := p];
      r := Ok(ToDto(p));
    }
  }

  /** A status change whose new transaction id and description are blank keeps
      both. */
  lemma BlankDetailsKept(s: string, t: string)
    requires forall i :: 0 <= i < |t| ==> t[i] <= ' '
    ensures NullOrTrimsEmpty(Some(t))
    ensures !NullOrTrimsEmpty(Some(s + "x"))
  {
    JavaTrimEmptyIff(t);
    JavaTrimEmptyIff(s + "x");
    assert (s + "x")[|s|] == 'x';
  }
}
