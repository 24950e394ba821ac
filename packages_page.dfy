// The public package catalogue: the duration filter and the sort, the
// sign-in gate on choosing a package, the booking form (without the NaN date
// check), the end date suggested from the start date, and the payment that
// records a confirmed booking and a completed payment in the client's data store.
module PackagesPage {
  import opened Common
  import opened ClientRecords
  import opened CardForm
  import opened BookingForm
  import opened StableSort

  /** A catalogue entry as the client's data store holds it; Price in cents. */
  datatype CatalogPackage = CatalogPackage(PackageID: int, Title: string, Price: int, Duration: string, AgentID: int)

  // ---- filter -----------------------------------------------------------------

  datatype DurationFilter = AllDurations | Short | Medium | Long | OtherFilter

  /** The filter callback: 'all' keeps everything; otherwise the days are the
      number the Duration text starts with, and a NaN fails every comparison. */
  predicate Keeps(f: DurationFilter, p: CatalogPackage)
  {
    match f
    case AllDurations => true
    case OtherFilter => true
    case Short => DurationDays(p.Duration).Some? && DurationDays(p.Duration).value <= 3
    case Medium => DurationDays(p.Duration).Some? && 3 < DurationDays(p.Duration).value <= 7
    case Long => DurationDays(p.Duration).Some? && DurationDays(p.Duration).value > 7
  }

  function FilterPackages(ps: seq<CatalogPackage>, f: DurationFilter): (r: seq<CatalogPackage>)
    ensures forall i :: 0 <= i < |r| ==> r[i] in ps && Keeps(f, r[i])
    ensures forall i :: 0 <= i < |ps| && Keeps(f, ps[i]) ==> ps[i] in r
    ensures f == AllDurations ==> r == ps
  {
    if ps == [] then []
    else (if Keeps(f, ps[0]) then [ps[0]] else []) + FilterPackages(ps[1..], f)
  }

  /** Short, medium and long split the packages whose duration parses: each such
      package passes exactly one of them; a package whose duration does not parse
      passes none of them. */
  lemma DurationFiltersPartition(p: CatalogPackage)
    ensures DurationDays(p.Duration).Some? ==>
              (Keeps(Short, p) || Keeps(Medium, p) || Keeps(Long, p))
              && !(Keeps(Short, p) && Keeps(Medium, p))
              && !(Keeps(Short, p) && Keeps(Long, p))
              && !(Keeps(Medium, p) && Keeps(Long, p))
    ensures DurationDays(p.Duration).None? ==> !Keeps(Short, p) && !Keeps(Medium, p) && !Keeps(Long, p)
  {
  }

  // ---- sort -------------------------------------------------------------------

  datatype SortKey = ByName | PriceLow | PriceHigh | ByDuration | Unsorted

  /** `a.localeCompare(b)`: the browser's collation of the default locale, given
      as a parameter. Its sign is what the sort reads. */
  type Collation = (string, string) -> int

  /** What ECMAScript demands of `localeCompare`: a consistent comparison, so
      any two strings are ordered one way or the other and the order is
      transitive. */
  ghost predicate ConsistentCollation(collate: Collation)
  {
    (forall a, b :: collate(a, b) <= 0 || collate(b, a) <= 0)
    && (forall a, b, c :: collate(a, b) <= 0 && collate(b, c) <= 0 ==> collate(a, c) <= 0)
  }

  /** Lexicographic order on titles by character code. */
  predicate LexLeq(a: string, b: string)
  {
    a == [] || (b != [] && (a[0] < b[0] || (a[0] == b[0] && LexLeq(a[1..], b[1..]))))
  }

  lemma {:induction false} LexLeqTotal(a: string, b: string)
    ensures LexLeq(a, b) || LexLeq(b, a)
  {
    if a != [] && b != [] && a[0] == b[0] {
      LexLeqTotal(a[1..], b[1..]);
    }
  }

  lemma {:induction false} LexLeqTransitive(a: string, b: string, c: string)
    requires LexLeq(a, b) && LexLeq(b, c)
    ensures LexLeq(a, c)
  {
    if a != [] && b != [] && c != [] && a[0] == b[0] && b[0] == c[0] {
      LexLeqTransitive(a[1..], b[1..], c[1..]);
    }
  }

  /** A collation by character codes, the order `<` gives strings: one instance of a
      consistent collation (the "C" locale). */
  function CodeUnitCollation(a: string, b: string): (r: int)
    ensures r == 0 <==> a == b
    ensures r < 0 <==> a != b && LexLeq(a, b)
  {
    if a == b then 0 else if LexLeq(a, b) then -1 else 1
  }

  lemma CodeUnitCollationIsConsistent()
    ensures ConsistentCollation(CodeUnitCollation)
  {
    forall a, b ensures CodeUnitCollation(a, b) <= 0 || CodeUnitCollation(b, a) <= 0 {
      LexLeqTotal(a, b);
    }
    forall a, b, c | CodeUnitCollation(a, b) <= 0 && CodeUnitCollation(b, c) <= 0
      ensures CodeUnitCollation(a, c) <= 0
    {
      if a != b && b != c {
        LexLeqTransitive(a, b, c);
      }
    }
  }

  /** "a may stay in front of b": the comparator of the key is not positive. A
      NaN comparator result counts as 0, as Array.prototype.sort treats it. */
  predicate Before(key: SortKey, collate: Collation, a: CatalogPackage, b: CatalogPackage)
  {
    match key
    case ByName => collate(a.Title, b.Title) <= 0
    case PriceLow => a.Price <= b.Price
    case PriceHigh => b.Price <= a.Price
    case ByDuration =>
      var da := DurationDays(a.Duration);
      var db := DurationDays(b.Duration);
      !(da.Some? && db.Some?) || da.value <= db.value
    case Unsorted => true
  }

  /** The key's comparator, as the sort receives it. */
  function KeyOrder(key: SortKey, collate: Collation): (CatalogPackage, CatalogPackage) -> bool
  {
    (a, b) => Before(key, collate, a, b)
  }

  /** The `.sort(...)` step: a stable sort by the key's comparator. */
  function SortPackages(ps: seq<CatalogPackage>, key: SortKey, collate: Collation): seq<CatalogPackage>
  {
    Sort(KeyOrder(key, collate), ps)
  }

  /** A package the key's comparator handles consistently: every package for
      every key but the duration key, and for that one a package whose duration
      parses. */
  predicate Comparable(key: SortKey, p: CatalogPackage)
  {
    key == ByDuration ==> DurationDays(p.Duration).Some?
  }

  function ComparableFor(key: SortKey): CatalogPackage -> bool
  {
    p => Comparable(key, p)
  }

  lemma BeforeTotal(key: SortKey, collate: Collation, a: CatalogPackage, b: CatalogPackage)
    requires ConsistentCollation(collate)
    requires Comparable(key, a) && Comparable(key, b)
    ensures Before(key, collate, a, b) || Before(key, collate, b, a)
  {
  }

  lemma BeforeTransitive(key: SortKey, collate: Collation, a: CatalogPackage, b: CatalogPackage, c: CatalogPackage)
    requires ConsistentCollation(collate)
    requires Comparable(key, a) && Comparable(key, b) && Comparable(key, c)
    requires Before(key, collate, a, b) && Before(key, collate, b, c)
    ensures Before(key, collate, a, c)
  {
  }

  lemma KeyIsPreorder(key: SortKey, collate: Collation)
    requires ConsistentCollation(collate)
    ensures PreorderOn(KeyOrder(key, collate), ComparableFor(key))
    ensures TransitiveOn(KeyOrder(key, collate), ComparableFor(key))
  {
    forall a, b | Comparable(key, a) && Comparable(key, b)
      ensures Before(key, collate, a, b) || Before(key, collate, b, a)
    {
      BeforeTotal(key, collate, a, b);
    }
    forall a, b, c | Comparable(key, a) && Comparable(key, b) && Comparable(key, c)
                     && Before(key, collate, a, b) && Before(key, collate, b, c)
      ensures Before(key, collate, a, c)
    {
      BeforeTransitive(key, collate, a, b, c);
    }
  }

  /** The displayed list: the filtered catalogue, sorted. */
  function Displayed(ps: seq<CatalogPackage>, f: DurationFilter, key: SortKey, collate: Collation): seq<CatalogPackage>
  {
    SortPackages(FilterPackages(ps, f), key, collate)
  }

  /** The displayed list is a permutation of the filtered catalogue, in key order,
      whenever the comparator is consistent: for every key but the duration key,
      and for that one too when every kept duration parses. */
  lemma DisplayedIsSortedPermutation(ps: seq<CatalogPackage>, f: DurationFilter, key: SortKey, collate: Collation)
    requires ConsistentCollation(collate)
    requires forall i :: 0 <= i < |FilterPackages(ps, f)| ==> Comparable(key, FilterPackages(ps, f)[i])
    ensures multiset(Displayed(ps, f, key, collate)) == multiset(FilterPackages(ps, f))
    ensures forall i, j :: 0 <= i < j < |Displayed(ps, f, key, collate)| ==>
              Before(key, collate, Displayed(ps, f, key, collate)[i], Displayed(ps, f, key, collate)[j])
  {
    KeyIsPreorder(key, collate);
    SortSorted(KeyOrder(key, collate), ComparableFor(key), FilterPackages(ps, f));
  }

  /** Packages the key ties (the same price, the same day count, titles the
      collation calls equal) are displayed in their catalogue order. */
  lemma DisplayedKeepsTiesInOrder(ps: seq<CatalogPackage>, f: DurationFilter, key: SortKey, collate: Collation,
                                  e: CatalogPackage)
    requires ConsistentCollation(collate)
    requires Comparable(key, e)
    requires forall i :: 0 <= i < |FilterPackages(ps, f)| ==> Comparable(key, FilterPackages(ps, f)[i])
    ensures Filter(Displayed(ps, f, key, collate), TiedWith(KeyOrder(key, collate), e))
            == Filter(FilterPackages(ps, f), TiedWith(KeyOrder(key, collate), e))
  {
    KeyIsPreorder(key, collate);
    SortStable(KeyOrder(key, collate), ComparableFor(key), e, FilterPackages(ps, f));
  }

  /** The default comparator answers 0 and keeps the filtered order. */
  lemma UnsortedKeepsOrder(ps: seq<CatalogPackage>, collate: Collation)
    ensures SortPackages(ps, Unsorted, collate) == ps
  {
    AllEqualKeepsOrder(KeyOrder(Unsorted, collate), ps);
  }

  // ---- page state ---------------------------------------------------------------

  /** A record the page adds to the client's data store, in call order. */
  datatype DataCall =
    | AddBooking(UserID: Option<int>, PackageID: int, StartDate: DateField, EndDate: DateField,
                 Status: string, PaymentID: Option<int>)
    | AddPayment(UserID: Option<int>, BookingID: int, Amount: int, Status: string, PaymentMethod: string)
    | LinkPayment(linkedBooking: int, linkedPayment: int)

  /** `selectedPackage.Price + (insurance ? insurance.price : 0)` */
  function PaymentAmount(p: CatalogPackage, ins: Option<InsuranceOption>): (r: int)
    ensures ins.None? ==> r == p.Price
    ensures ins.Some? ==> r - p.Price == ins.value.price
  {
    p.Price + if ins.Some? then ins.value.price else 0
  }

  /** The three store calls of a successful payment, in order. The store chooses
      the new booking and payment ids. */
  function PaymentCalls(userID: Option<int>, p: CatalogPackage, ins: Option<InsuranceOption>,
                        start: DateField, end: DateField, payMethod: string,
                        bookingId: int, paymentId: int): seq<DataCall>
  {
    [AddBooking(userID, p.PackageID, start, end, "confirmed", None),
     AddPayment(userID, bookingId, PaymentAmount(p, ins), "completed", payMethod),
     LinkPayment(bookingId, paymentId)]
  }

  /** A successful payment first records a confirmed booking of the selected
      package without a payment, then a completed payment of price plus insurance
      for that booking, then links the payment onto the booking. */
  lemma PaymentCallsInOrder(userID: Option<int>, p: CatalogPackage, ins: Option<InsuranceOption>,
                            start: DateField, end: DateField, payMethod: string,
                            bookingId: int, paymentId: int)
    ensures var r := PaymentCalls(userID, p, ins, start, end, payMethod, bookingId, paymentId);
            |r| == 3
            && r[0].AddBooking? && r[0].Status == "confirmed" && r[0].PaymentID.None?
            && r[0].PackageID == p.PackageID && r[0].UserID == userID
            && r[1].AddPayment? && r[1].Status == "completed" && r[1].BookingID == bookingId
            && r[1].UserID == userID && r[1].Amount == PaymentAmount(p, ins)
            && r[2] == LinkPayment(bookingId, paymentId)
  {
  }

  /** The toast each outcome of the payment form shows. */
  datatype PaymentNotice = CardRejected(reason: CardError) | PaymentCrashed | PaymentRecorded

  function PaymentText(n: PaymentNotice): string
  {
    match n
    case CardRejected(e) => Message(e)
    case PaymentCrashed => "Payment failed. Please try again or contact support."
    case PaymentRecorded => "Payment successful! Your booking has been confirmed. Redirecting to your dashboard..."
  }

  /** Where handlePaymentSubmit ends, with the dates taken from the booking
      form's state: a card that fails a check is refused; then a missing user or
      package is a caught TypeError; otherwise the payment is recorded. */
  function PaymentOutcome(card: CardFields, now: Clock, user: Option<Option<int>>,
                          selected: Option<CatalogPackage>): (n: PaymentNotice)
    ensures CheckCard(card, now, true).Some? ==> n == CardRejected(CheckCard(card, now, true).value)
    ensures n == PaymentRecorded <==> CheckCard(card, now, true).None? && user.Some? && selected.Some?
  {
    var check := CheckCard(card, now, true);
    if check.Some? then CardRejected(check.value)
    else if user.None? || selected.None? then PaymentCrashed
    else PaymentRecorded
  }

  /** handlePaymentSubmit as written: the first statement of the try block reads
      the value of the `#startDate` input, which exists only while the booking
      form is shown, so without it the TypeError is caught before anything else. */
  function PaymentOutcomeAsWritten(card: CardFields, now: Clock, bookingFormShown: bool,
                                   user: Option<Option<int>>, selected: Option<CatalogPackage>): (n: PaymentNotice)
    ensures bookingFormShown && selected.Some? ==> n == PaymentOutcome(card, now, user, selected)
    ensures !(bookingFormShown && selected.Some?) && CheckCard(card, now, true).None? ==> n == PaymentCrashed
  {
    var check := CheckCard(card, now, true);
    if check.Some? then CardRejected(check.value)
    else if !(bookingFormShown && selected.Some?) then PaymentCrashed
    else PaymentOutcome(card, now, user, selected)
  }

  /** The booking step closes the booking form before the payment form opens, so
      as written a card that passes every check is never paid for. */
  lemma AsWrittenNeverPaysAfterBooking(card: CardFields, now: Clock, user: Option<Option<int>>,
                                       selected: Option<CatalogPackage>)
    ensures PaymentOutcomeAsWritten(card, now, false, user, selected) != PaymentRecorded
    ensures CheckCard(card, now, true).None? ==> PaymentOutcomeAsWritten(card, now, false, user, selected) == PaymentCrashed
    ensures CheckCard(card, now, true).None? && user.Some? && selected.Some? ==>
              PaymentOutcome(card, now, user, selected) == PaymentRecorded
  {
  }

  class Page {
    var selectedPackage: Option<CatalogPackage>
    var selectedInsurance: Option<InsuranceOption>
    var showBookingModal: bool
    var showPaymentModal: bool
    /** The value of the end-date input. */
    var endDateInput: DateField
    /** The route the page navigated to, if any. */
    var navigatedTo: Option<string>

    constructor ()
      ensures selectedPackage == None && selectedInsurance == None
      ensures !showBookingModal && !showPaymentModal && endDateInput == NoDate && navigatedTo == None
    {
      selectedPackage := None;
      selectedInsurance := None;
      showBookingModal := false;
      showPaymentModal := false;
      endDateInput := NoDate;
      navigatedTo := None;
    }

    /** handlePackageSelect: a visitor who is not signed in only gets a toast. */
    method SelectPackage(p: CatalogPackage, isAuthenticated: bool)
      modifies this
      ensures isAuthenticated ==> selectedPackage == Some(p) && showBookingModal
      ensures !isAuthenticated ==> selectedPackage == old(selectedPackage) && showBookingModal == old(showBookingModal)
      ensures selectedInsurance == old(selectedInsurance) && showPaymentModal == old(showPaymentModal)
      ensures endDateInput == old(endDateInput) && navigatedTo == old(navigatedTo)
    {
      if isAuthenticated {
        selectedPackage := Some(p);
        showBookingModal := true;
      }
    }

    /** handleBookingSubmit: no call is made here; passing the date checks (which
        lack the NaN check) moves from the booking form to the payment form. */
    method SubmitBooking(start: DateField, end: DateField, nowMs: int) returns (error: Option<DateError>)
      modifies this
      ensures error == CheckDates(start, end, nowMs, false)
      ensures error.None? ==> !showBookingModal && showPaymentModal
      ensures error.Some? ==> showBookingModal == old(showBookingModal) && showPaymentModal == old(showPaymentModal)
      ensures selectedPackage == old(selectedPackage) && selectedInsurance == old(selectedInsurance)
      ensures endDateInput == old(endDateInput) && navigatedTo == old(navigatedTo)
    {
      error := CheckDates(start, end, nowMs, false);
      if error.None? {
        showBookingModal := false;
        showPaymentModal := true;
      }
    }

    /** handleStartDateChange */
    method StartDateChange(start: DateField)
      modifies this
      ensures endDateInput == SuggestedEnd(start, if selectedPackage.Some? then Some(selectedPackage.value.Duration) else None, old(endDateInput))
      ensures selectedPackage == old(selectedPackage) && selectedInsurance == old(selectedInsurance)
      ensures showBookingModal == old(showBookingModal) && showPaymentModal == old(showPaymentModal)
      ensures navigatedTo == old(navigatedTo)
    {
      endDateInput := SuggestedEnd(start, if selectedPackage.Some? then Some(selectedPackage.value.Duration) else None, endDateInput);
    }

    /** handlePaymentSubmit with the dates taken from the booking form's state.
        The card checks (month bounded to 01-12 here) come first; then a missing
        user or package is a caught TypeError before any store call. Otherwise
        the booking, the payment and the link are recorded, the selection is
        cleared and the page moves to the customer dashboard. `user` is the
        signed-in user's UserID, None when nobody is signed in. */
    method SubmitPayment(card: CardFields, now: Clock, user: Option<Option<int>>,
                         start: DateField, end: DateField, payMethod: string,
                         newBookingId: int, newPaymentId: int)
      returns (calls: seq<DataCall>, notice: PaymentNotice)
      modifies this
      ensures notice == PaymentOutcome(card, now, user, old(selectedPackage))
      ensures calls != [] <==> notice == PaymentRecorded
      ensures calls != [] ==>
                calls == PaymentCalls(user.value, old(selectedPackage).value, old(selectedInsurance),
                                      start, end, payMethod, newBookingId, newPaymentId)
                && !showPaymentModal && selectedPackage == None && selectedInsurance == None
                && navigatedTo == Some("/user-dashboard")
      ensures calls == [] ==>
                showPaymentModal == old(showPaymentModal) && selectedPackage == old(selectedPackage)
                && selectedInsurance == old(selectedInsurance) && navigatedTo == old(navigatedTo)
      ensures showBookingModal == old(showBookingModal) && endDateInput == old(endDateInput)
    {
      notice := PaymentOutcome(card, now, user, selectedPackage);
      if notice != PaymentRecorded {
        return [], notice;
      }
      calls := PaymentCalls(user.value, selectedPackage.value, selectedInsurance,
                            start, end, payMethod, newBookingId, newPaymentId);
      showPaymentModal := false;
      selectedPackage := None;
      selectedInsurance := None;
      navigatedTo := Some("/user-dashboard");
    }

    /** handlePaymentSubmit as written: the dates are read from the `#startDate`
        and `#endDate` inputs, which are there only while the booking form is
        shown; without them nothing is called and nothing changes. */
    method SubmitPaymentAsWritten(card: CardFields, now: Clock, user: Option<Option<int>>,
                                  start: DateField, end: DateField, payMethod: string,
                                  newBookingId: int, newPaymentId: int)
      returns (calls: seq<DataCall>, notice: PaymentNotice)
      modifies this
      ensures notice == PaymentOutcomeAsWritten(card, now, old(showBookingModal), user, old(selectedPackage))
      ensures calls != [] <==> notice == PaymentRecorded
      ensures calls != [] ==>
                calls == PaymentCalls(user.value, old(selectedPackage).value, old(selectedInsurance),
                                      start, end, payMethod, newBookingId, newPaymentId)
                && !showPaymentModal && selectedPackage == None && selectedInsurance == None
                && navigatedTo == Some("/user-dashboard")
      ensures calls == [] ==>
                showPaymentModal == old(showPaymentModal) && selectedPackage == old(selectedPackage)
                && selectedInsurance == old(selectedInsurance) && navigatedTo == old(navigatedTo)
      ensures showBookingModal == old(showBookingModal) && endDateInput == old(endDateInput)
    {
      if !(showBookingModal && selectedPackage.Some?) && CheckCard(card, now, true).None? {
        return [], PaymentCrashed;
      }
      calls, notice := SubmitPayment(card, now, user, start, end, payMethod, newBookingId, newPaymentId);
    }
  }
}
