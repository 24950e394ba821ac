// The customer dashboard: choose a package, create a pending booking, pay for
// the booking held in `currentBooking`, confirm it, and cancel listed bookings.
module UserDashboard {
  import opened Common
  import opened ClientRecords
  import opened CardForm
  import opened BookingForm

  /** A package as the backend lists it, under either field spelling; prices in cents. */
  /** A property as a template literal prints it: absent prints "undefined",
      null prints "null". */
  datatype TextProp = Undefined | Null | Text(text: string)

  datatype ClientPackage = ClientPackage(
    packageId: Option<int>, PackageID: Option<int>,
    title: Option<string>, Title: TextProp,
    price: Option<int>, Price: Option<int>)

  /** The booking the create call returned, held until it is paid for. */
  datatype HeldBooking = HeldBooking(bookingId: Option<int>, BookingID: Option<int>)

  /** An entry of the bookings list: a loaded booking, or the `{booking, package}`
      wrapper appended after a create (which has no BookingID of its own). */
  datatype BookingEntry = BookingEntry(
    BookingID: Option<int>, Status: Option<string>, StartDate: Option<int>,
    held: Option<HeldBooking>, pkg: Option<ClientPackage>)

  datatype BookingRequest = BookingRequest(packageId: Option<int>, startDate: int, endDate: int, status: string)

  datatype PaymentRequest = PaymentRequest(
    bookingId: int, amount: Option<int>, paymentMethod: string,
    cardLastFour: string, description: string)

  /** The toast each outcome of the booking form shows. */
  datatype BookingNotice = DateRejected(reason: DateError) | BookingCrashed | BookingFailed(error: Option<string>) | BookingCreated

  function BookingText(n: BookingNotice): string
  {
    match n
    case DateRejected(e) => DateMessage(e)
    case BookingCrashed => "Failed to create booking"
    case BookingFailed(err) => "Failed to create booking: " + OrElse(err, "Unknown error")
    case BookingCreated => "Booking created successfully!"
  }

  /** The toast each outcome of the payment form shows. */
  datatype PaymentNotice = CardRejected(reason: CardError) | NoBookingHeld | InvalidBookingData | PaymentFailed | PaymentProcessed

  function PaymentText(n: PaymentNotice): string
  {
    match n
    case CardRejected(e) => Message(e)
    case NoBookingHeld => "No booking found. Please create a booking first."
    case InvalidBookingData => "Invalid booking data. Please try creating the booking again."
    case PaymentFailed => "Payment processing failed. Please try again."
    case PaymentProcessed => "Payment processed successfully!"
  }

  function PackageIdOf(p: ClientPackage): Option<int> { OrInt(p.packageId, p.PackageID) }

  function HeldIdOf(b: HeldBooking): Option<int> { OrInt(b.bookingId, b.BookingID) }

  /** `(price || Price) + (insurance ? insurance.price : 0)`; None is NaN, when the
      package carries no price under either name. */
  function TotalAmount(p: ClientPackage, ins: Option<InsuranceOption>): (r: Option<int>)
    ensures r.Some? <==> IntTruthy(p.price) || p.Price.Some?
    ensures r.Some? ==> r.value == OrInt(p.price, p.Price).value + (if ins.Some? then ins.value.price else 0)
  {
    match OrInt(p.price, p.Price)
    case None => None
    case Some(v) => Some(v + if ins.Some? then ins.value.price else 0)
  }

  /** What `${v}` prints for a property. */
  function Printed(v: TextProp): string
  {
    match v
    case Undefined => "undefined"
    case Null => "null"
    case Text(t) => t
  }

  /** The payment description: `title` when it is a non-empty text, otherwise
      `Title` as the template prints it. */
  function Description(p: ClientPackage): (r: string)
    ensures StartsWith(r, "Payment for ")
    ensures Truthy(p.title) ==> r == "Payment for " + p.title.value
    ensures !Truthy(p.title) && p.Title.Text? ==> r == "Payment for " + p.Title.text
    ensures !Truthy(p.title) && p.Title == Null ==> r == "Payment for null"
    ensures !Truthy(p.title) && p.Title == Undefined ==> r == "Payment for undefined"
  {
    "Payment for " + (if Truthy(p.title) then p.title.value else Printed(p.Title))
  }

  /** The payment request the dashboard sends for a held booking id. */
  function PaymentFor(id: int, p: ClientPackage, ins: Option<InsuranceOption>, card: string): (r: PaymentRequest)
    ensures r.bookingId == id && r.paymentMethod == "CREDIT_CARD"
    ensures r.amount == TotalAmount(p, ins) && r.cardLastFour == LastFour(card)
  {
    PaymentRequest(id, TotalAmount(p, ins), "CREDIT_CARD", LastFour(card), Description(p))
  }

  /** The bookings list after cancelling `id`: exactly the entries whose BookingID is
      `id` (under `===`, so an absent id matches every entry without one) get Status
      'cancelled'; all others stay as they were. */
  function Cancelled(bookings: seq<BookingEntry>, id: Option<int>): (r: seq<BookingEntry>)
    ensures |r| == |bookings|
    ensures forall i :: 0 <= i < |r| ==>
              if bookings[i].BookingID == id then r[i] == bookings[i].(Status := Some("cancelled"))
              else r[i] == bookings[i]
  {
    UpdateWhere(bookings, (b: BookingEntry) => b.BookingID == id, (b: BookingEntry) => b.(Status := Some("cancelled")))
  }

  /** Cancelling twice is cancelling once. */
  lemma {:induction false} CancelIdempotent(bookings: seq<BookingEntry>, id: Option<int>)
    ensures Cancelled(Cancelled(bookings, id), id) == Cancelled(bookings, id)
  {
    var once := Cancelled(bookings, id);
    var twice := Cancelled(once, id);
    assert |twice| == |once|;
    forall i | 0 <= i < |once| ensures twice[i] == once[i] {
      assert once[i].BookingID == bookings[i].BookingID;
    }
  }

  /** A real id never touches the appended wrappers, which have no BookingID. */
  lemma WrappersKeptByIdCancel(bookings: seq<BookingEntry>, id: int, i: int)
    requires 0 <= i < |bookings| && bookings[i].BookingID.None?
    ensures Cancelled(bookings, Some(id))[i] == bookings[i]
  {
  }

  class Dashboard {
    var selectedPackage: Option<ClientPackage>
    var selectedInsurance: Option<InsuranceOption>
    var showBookingModal: bool
    var showPaymentModal: bool
    var currentBooking: Option<HeldBooking>
    var userBookings: seq<BookingEntry>

    /** The first render: nothing selected, no modal open, nothing held. */
    constructor (bookings: seq<BookingEntry>)
      ensures selectedPackage == None && selectedInsurance == None
      ensures !showBookingModal && !showPaymentModal && currentBooking == None
      ensures userBookings == bookings
    {
      selectedPackage := None;
      selectedInsurance := None;
      showBookingModal := false;
      showPaymentModal := false;
      currentBooking := None;
      userBookings := bookings;
    }

    /** handlePackageSelect: remember the package and open the booking form. */
    method SelectPackage(p: ClientPackage)
      modifies this
      ensures selectedPackage == Some(p) && showBookingModal
      ensures selectedInsurance == old(selectedInsurance) && showPaymentModal == old(showPaymentModal)
      ensures currentBooking == old(currentBooking) && userBookings == old(userBookings)
    {
      selectedPackage := Some(p);
      showBookingModal := true;
    }

    method SelectInsurance(ins: Option<InsuranceOption>)
      modifies this
      ensures selectedInsurance == ins
      ensures selectedPackage == old(selectedPackage) && showBookingModal == old(showBookingModal)
      ensures showPaymentModal == old(showPaymentModal)
      ensures currentBooking == old(currentBooking) && userBookings == old(userBookings)
    {
      selectedInsurance := ins;
    }

    /** handleBookingSubmit. `sent` is the create request issued, if any, and
        `reply` what that call resolved to. The request goes out only when every
        date check passes and a package is selected (a missing one is a caught
        TypeError). On success the returned booking is held and the payment form
        replaces the booking form; otherwise nothing changes. */
    method SubmitBooking(start: DateField, end: DateField, nowMs: int, reply: Reply<HeldBooking>)
      returns (sent: Option<BookingRequest>, notice: BookingNotice)
      modifies this
      ensures sent.Some? <==> CheckDates(start, end, nowMs, true) == None && old(selectedPackage).Some?
      ensures sent.Some? ==>
                sent.value == BookingRequest(PackageIdOf(old(selectedPackage).value), start.day, end.day, "pending")
      ensures CheckDates(start, end, nowMs, true).Some? ==> notice == DateRejected(CheckDates(start, end, nowMs, true).value)
      ensures sent.Some? ==> notice == if reply.Success? then BookingCreated else BookingFailed(reply.error)
      ensures sent.Some? && reply.Success? ==>
                currentBooking == Some(reply.data)
                && userBookings == old(userBookings) + [BookingEntry(None, None, None, Some(reply.data), old(selectedPackage))]
                && !showBookingModal && showPaymentModal
      ensures !(sent.Some? && reply.Success?) ==>
                currentBooking == old(currentBooking) && userBookings == old(userBookings)
                && showBookingModal == old(showBookingModal) && showPaymentModal == old(showPaymentModal)
      ensures selectedPackage == old(selectedPackage) && selectedInsurance == old(selectedInsurance)
    {
      var check := CheckDates(start, end, nowMs, true);
      if check.Some? {
        return None, DateRejected(check.value);
      }
      if selectedPackage.None? {
        return None, BookingCrashed;
      }
      sent := Some(BookingRequest(PackageIdOf(selectedPackage.value), start.day, end.day, "pending"));
      match reply
      case Success(b) =>
        currentBooking := Some(b);
        userBookings := userBookings + [BookingEntry(None, None, None, Some(b), selectedPackage)];
        showBookingModal := false;
        showPaymentModal := true;
        notice := BookingCreated;
      case Failure(err) =>
        notice := BookingFailed(err);
    }

    /** handlePaymentSubmit. The card checks run first, in their fixed order; then
        the amount needs a selected package; then a booking must be held and carry
        an id. Only then is the payment sent, for that id alone. The booking is
        confirmed, the form closed and the held booking dropped only after the
        payment succeeded; a failed payment keeps it for a retry. `reloaded` is
        the bookings list a successful reload returns. */
    method SubmitPayment(card: CardFields, now: Clock, reply: Reply<()>, reloaded: Option<seq<BookingEntry>>)
      returns (payment: Option<PaymentRequest>, confirmed: Option<int>, notice: PaymentNotice)
      modifies this
      ensures payment.Some? <==>
                CheckCard(card, now, false) == None && old(selectedPackage).Some?
                && old(currentBooking).Some? && IntTruthy(HeldIdOf(old(currentBooking).value))
      ensures payment.Some? ==>
                payment.value == PaymentFor(HeldIdOf(old(currentBooking).value).value,
                                            old(selectedPackage).value, old(selectedInsurance), card.number)
      ensures CheckCard(card, now, false).Some? ==> notice == CardRejected(CheckCard(card, now, false).value)
      ensures payment.Some? ==> notice == if reply.Success? then PaymentProcessed else PaymentFailed
      ensures confirmed == (if payment.Some? && reply.Success? then Some(payment.value.bookingId) else None)
      ensures confirmed.Some? ==>
                !showPaymentModal && currentBooking == None
                && userBookings == (if reloaded.Some? then reloaded.value else old(userBookings))
      ensures confirmed.None? ==>
                showPaymentModal == old(showPaymentModal) && currentBooking == old(currentBooking)
                && userBookings == old(userBookings)
      ensures selectedPackage == old(selectedPackage) && selectedInsurance == old(selectedInsurance)
      ensures showBookingModal == old(showBookingModal)
    {
      payment, confirmed := None, None;
      var check := CheckCard(card, now, false);
      if check.Some? {
        notice := CardRejected(check.value);
        return;
      }
      if selectedPackage.None? {
        notice := PaymentFailed;
        return;
      }
      if currentBooking.None? {
        notice := NoBookingHeld;
        return;
      }
      var id := HeldIdOf(currentBooking.value);
      if !IntTruthy(id) {
        notice := InvalidBookingData;
        return;
      }
      payment := Some(PaymentFor(id.value, selectedPackage.value, selectedInsurance, card.number));
      if reply.Success? {
        confirmed := Some(id.value);
        showPaymentModal := false;
        currentBooking := None;
        if reloaded.Some? {
          userBookings := reloaded.value;
        }
        notice := PaymentProcessed;
      } else {
        notice := PaymentFailed;
      }
    }

    /** handleCloseBookingModal: closing the booking form drops any held booking. */
    method CloseBookingModal()
      modifies this
      ensures !showBookingModal && currentBooking == None
      ensures showPaymentModal == old(showPaymentModal) && selectedPackage == old(selectedPackage)
      ensures selectedInsurance == old(selectedInsurance) && userBookings == old(userBookings)
    {
      showBookingModal := false;
      currentBooking := None;
    }

    /** handleClosePaymentModal: closing the payment form drops the held booking. */
    method ClosePaymentModal()
      modifies this
      ensures !showPaymentModal && currentBooking == None
      ensures showBookingModal == old(showBookingModal) && selectedPackage == old(selectedPackage)
      ensures selectedInsurance == old(selectedInsurance) && userBookings == old(userBookings)
    {
      showPaymentModal := false;
      currentBooking := None;
    }

    /** handleCancelBooking: a local status change, nothing is sent. */
    method CancelBooking(id: Option<int>)
      modifies this
      ensures userBookings == Cancelled(old(userBookings), id)
      ensures selectedPackage == old(selectedPackage) && selectedInsurance == old(selectedInsurance)
      ensures showBookingModal == old(showBookingModal) && showPaymentModal == old(showPaymentModal)
      ensures currentBooking == old(currentBooking)
    {
      userBookings := Cancelled(userBookings, id);
    }
  }
}
