/**
 * The booking lifecycle: which status changes the views perform, and the
 * single-booking updates behind approve, reject, cancel, the servicer's
 * completion, payment and detail edits.
 */
module Lifecycle {
  import opened Wrappers
  import opened Models

  /** The kinds of failure the views report. */
  datatype Failure =
    | BookingNotFound                  // "Booking not found."
    | NotCancellable                   // "This booking cannot be cancelled."
    | AlreadyProcessed(current: Status) // "Booking is already …"
    | MissingInformation               // email, amount or date missing
    | NoBookings                       // no bookings in the system
    | NoPendingBookings                // no pending bookings at all
    | InvalidAmount                    // the amount is not a decimal number
    | NoMatchingBooking                // no pending booking matches
    | AmbiguousMatch                   // several pending bookings match
    | LookupFallback                   // handed to the MongoDB fallback path
    | NoPaymentMethod                  // "Please select a payment method."
    | NotPost                          // not a POST request
    | NotProvider                      // the user is not a provider
    | InvalidParameters                // bad invoice id or target status
    | InvoiceNotFound                  // no invoice with that number
    | NotConfirmed                     // the booking is not confirmed
    | NotInvoiceable                   // not both confirmed and paid

  /** The status changes some view performs. */
  predicate CanMove(from: Status, to: Status) {
    match from
    case Pending => to == Confirmed || to == Rejected || to == Cancelled
    case Confirmed => to == Cancelled || to == Completed || to == Rejected
    case _ => false
  }

  /** Statuses no view moves a booking out of. */
  predicate Terminal(s: Status) {
    s == Rejected || s == Completed || s == Cancelled
  }

  lemma TerminalHasNoMove(s: Status)
    ensures Terminal(s) <==> forall t :: !CanMove(s, t)
  {
    if !Terminal(s) {
      assert CanMove(s, Cancelled);
    }
  }

  /** Zero or more status changes lead from `from` to `to`. */
  predicate Reachable(from: Status, to: Status) {
    from == to || CanMove(from, to) || (from == Pending && CanMove(Confirmed, to))
  }

  lemma ReachableTransitive(a: Status, b: Status, c: Status)
    requires Reachable(a, b) && Reachable(b, c)
    ensures Reachable(a, c)
  {
  }

  /** No sequence of changes leads back to `pending`, and a terminal status is never left. */
  lemma ReachableShape(from: Status, to: Status)
    requires Reachable(from, to)
    ensures to == Pending ==> from == Pending
    ensures Terminal(from) ==> to == from
  {
  }

  /** Fields no status change touches. */
  predicate SameDetails(a: Booking, b: Booking) {
    && a.id == b.id && a.customer == b.customer && a.customerEmail == b.customerEmail
    && a.servicePrice == b.servicePrice && a.bookingDate == b.bookingDate
    && a.address == b.address && a.phoneNumber == b.phoneNumber
    && a.totalAmount == b.totalAmount && a.notes == b.notes
    && a.specialInstructions == b.specialInstructions && a.createdAt == b.createdAt
    && a.invoiceNumber == b.invoiceNumber
  }

  /** The payment fields are unchanged. */
  predicate SamePayment(a: Booking, b: Booking) {
    a.paymentStatus == b.paymentStatus && a.isPaid == b.isPaid && a.paymentMethod == b.paymentMethod
    && a.transactionId == b.transactionId && a.paidAt == b.paidAt
  }

  /** The admin's approval and rejection records are unchanged. */
  predicate SameAdminRecord(a: Booking, b: Booking) {
    a.adminNotes == b.adminNotes && a.approvedBy == b.approvedBy && a.approvedAt == b.approvedAt
    && a.rejectionReason == b.rejectionReason && a.rejectedBy == b.rejectedBy && a.rejectedAt == b.rejectedAt
  }

  /** The cancellation and completion records are unchanged. */
  predicate SameClosing(a: Booking, b: Booking) {
    a.cancellationReason == b.cancellationReason && a.cancellationDate == b.cancellationDate
    && a.serviceCompletedBy == b.serviceCompletedBy && a.serviceCompletedAt == b.serviceCompletedAt
  }

  /**
   * Admin approval of one booking: a booking that is not pending is refused
   * as already processed; otherwise it becomes confirmed with the admin's
   * notes, approver and time, and gets the available provider only when it
   * has none.
   */
  function Approve(b: Booking, adminNotes: string, admin: nat, available: Option<nat>, now: int)
    : (r: Result<Booking, Failure>)
    ensures r.Ok? <==> b.status == Pending
    ensures r.Err? ==> r.error == AlreadyProcessed(b.status)
    ensures r.Ok? ==> CanMove(b.status, r.value.status) && r.value.status == Confirmed
    ensures r.Ok? ==> r.value.adminNotes == adminNotes && r.value.approvedBy == Some(admin) && r.value.approvedAt == Some(now)
    ensures r.Ok? ==> r.value.provider == if b.provider.Some? then b.provider else available
    ensures r.Ok? ==> r.value.rejectionReason == b.rejectionReason && r.value.rejectedBy == b.rejectedBy && r.value.rejectedAt == b.rejectedAt
    ensures r.Ok? ==> SameDetails(b, r.value) && SamePayment(b, r.value) && SameClosing(b, r.value)
    ensures r.Ok? ==> r.value.updatedAt == Some(now)
    ensures r.Ok? && Consistent(b) ==> Consistent(r.value)
  {
    if b.status != Pending then Err(AlreadyProcessed(b.status))
    else
      var provider := if b.provider.None? then available else b.provider;
      Ok(b.(status := Confirmed, provider := provider, adminNotes := adminNotes,
            approvedBy := Some(admin), approvedAt := Some(now), updatedAt := Some(now)))
  }

  const DefaultRejectionReason := "No reason provided"
  const DefaultCancellationReason := "User requested cancellation"

  /**
   * Admin rejection of one booking: refused unless pending; otherwise the
   * booking becomes rejected with the given reason (or the default), the
   * admin's notes, rejecter and time.
   */
  function Reject(b: Booking, reason: Option<string>, adminNotes: string, admin: nat, now: int)
    : (r: Result<Booking, Failure>)
    ensures r.Ok? <==> b.status == Pending
    ensures r.Err? ==> r.error == AlreadyProcessed(b.status)
    ensures r.Ok? ==> CanMove(b.status, r.value.status) && r.value.status == Rejected
    ensures r.Ok? ==> r.value.rejectionReason == reason.GetOr(DefaultRejectionReason)
    ensures r.Ok? ==> r.value.adminNotes == adminNotes && r.value.rejectedBy == Some(admin) && r.value.rejectedAt == Some(now)
    ensures r.Ok? ==> r.value.provider == b.provider && r.value.approvedBy == b.approvedBy && r.value.approvedAt == b.approvedAt
    ensures r.Ok? ==> SameDetails(b, r.value) && SamePayment(b, r.value) && SameClosing(b, r.value)
    ensures r.Ok? ==> r.value.updatedAt == Some(now)
    ensures r.Ok? && Consistent(b) ==> Consistent(r.value)
  {
    if b.status != Pending then Err(AlreadyProcessed(b.status))
    else
      Ok(b.(status := Rejected, rejectionReason := reason.GetOr(DefaultRejectionReason),
            adminNotes := adminNotes, rejectedBy := Some(admin), rejectedAt := Some(now),
            updatedAt := Some(now)))
  }

  /**
   * Customer cancellation: only a pending or confirmed booking becomes
   * cancelled, recording the reason (or the default) and the time; any
   * other status is refused.
   */
  function Cancel(b: Booking, reason: Option<string>, now: int): (r: Result<Booking, Failure>)
    ensures r.Ok? <==> b.status == Pending || b.status == Confirmed
    ensures r.Err? ==> r.error == NotCancellable
    ensures r.Ok? ==> CanMove(b.status, r.value.status) && r.value.status == Cancelled
    ensures r.Ok? ==> r.value.cancellationReason == reason.GetOr(DefaultCancellationReason)
    ensures r.Ok? ==> r.value.cancellationDate == Some(now)
    ensures r.Ok? ==> r.value.provider == b.provider && SameAdminRecord(b, r.value)
    ensures r.Ok? ==> SameDetails(b, r.value) && SamePayment(b, r.value)
    ensures r.Ok? ==> r.value.serviceCompletedBy == b.serviceCompletedBy && r.value.serviceCompletedAt == b.serviceCompletedAt
    ensures r.Ok? ==> r.value.updatedAt == Some(now)
    ensures r.Ok? && Consistent(b) ==> Consistent(r.value)
  {
    if b.status == Pending || b.status == Confirmed then
      Ok(b.(status := Cancelled, cancellationReason := reason.GetOr(DefaultCancellationReason),
            cancellationDate := Some(now), updatedAt := Some(now)))
    else Err(NotCancellable)
  }

  /** The two outcomes a servicer may record. */
  predicate ServicerTarget(s: Status) { s == Completed || s == Rejected }

  /**
   * The servicer's update: only a confirmed booking moves, to `completed` or
   * `rejected`; the completion time and servicer are recorded when it is
   * completed and cleared otherwise.
   */
  function FinishService(b: Booking, target: Status, servicer: nat, now: int): (r: Result<Booking, Failure>)
    requires ServicerTarget(target)
    ensures r.Ok? <==> b.status == Confirmed
    ensures r.Err? ==> r.error == NotConfirmed
    ensures r.Ok? ==> CanMove(b.status, r.value.status) && r.value.status == target
    ensures r.Ok? ==> (r.value.serviceCompletedBy.Some? <==> target == Completed)
    ensures r.Ok? && target == Completed ==> r.value.serviceCompletedBy == Some(servicer) && r.value.serviceCompletedAt == Some(now)
    ensures r.Ok? && target != Completed ==> r.value.serviceCompletedAt == None
    ensures r.Ok? ==> r.value.cancellationReason == b.cancellationReason && r.value.cancellationDate == b.cancellationDate
    ensures r.Ok? ==> r.value.provider == b.provider && SameAdminRecord(b, r.value)
    ensures r.Ok? ==> SameDetails(b, r.value) && SamePayment(b, r.value)
    ensures r.Ok? ==> r.value.updatedAt == Some(now)
    ensures r.Ok? && Consistent(b) ==> Consistent(r.value)
  {
    if b.status != Confirmed then Err(NotConfirmed)
    else
      var done := target == Completed;
      Ok(b.(status := target,
            serviceCompletedAt := if done then Some(now) else None,
            serviceCompletedBy := if done then Some(servicer) else None,
            updatedAt := Some(now)))
  }

  /**
   * Payment: refused without a payment method; otherwise the booking is
   * marked paid with the method, transaction id and time. The status is not
   * consulted and not changed.
   */
  function Pay(b: Booking, paymentMethod: string, transactionId: string, now: int): (r: Result<Booking, Failure>)
    ensures r.Ok? <==> paymentMethod != ""
    ensures r.Err? ==> r.error == NoPaymentMethod
    ensures r.Ok? ==> r.value.isPaid && r.value.paymentStatus == Paid && r.value.paymentMethod == paymentMethod
    ensures r.Ok? ==> r.value.transactionId == transactionId && r.value.paidAt == Some(now)
    ensures r.Ok? ==> r.value.status == b.status && r.value.provider == b.provider
    ensures r.Ok? ==> SameDetails(b, r.value) && SameAdminRecord(b, r.value) && SameClosing(b, r.value)
    ensures r.Ok? ==> r.value.updatedAt == Some(now)
    ensures r.Ok? && Consistent(b) ==> Consistent(r.value)
  {
    if paymentMethod == "" then Err(NoPaymentMethod)
    else
      Ok(b.(paymentStatus := Paid, isPaid := true, paymentMethod := paymentMethod,
            transactionId := transactionId, paidAt := Some(now), updatedAt := Some(now)))
  }

  /**
   * The customer's detail edit: a new date when both date and time were
   * given, new instructions when they are non-empty. The status is not
   * consulted and not changed.
   */
  function EditDetails(b: Booking, newDate: Option<int>, instructions: string, now: int): (r: Booking)
    ensures r.bookingDate == newDate.GetOr(b.bookingDate)
    ensures r.specialInstructions == if instructions != "" then instructions else b.specialInstructions
    ensures r.status == b.status && r.provider == b.provider && r.id == b.id && r.customer == b.customer
    ensures r.totalAmount == b.totalAmount && r.notes == b.notes && r.address == b.address
    ensures r.customerEmail == b.customerEmail && r.servicePrice == b.servicePrice && r.phoneNumber == b.phoneNumber
    ensures r.createdAt == b.createdAt && r.invoiceNumber == b.invoiceNumber && r.updatedAt == Some(now)
    ensures SamePayment(b, r) && SameAdminRecord(b, r) && SameClosing(b, r)
    ensures Consistent(b) ==> Consistent(r)
  {
    b.(bookingDate := newDate.GetOr(b.bookingDate),
       specialInstructions := if instructions != "" then instructions else b.specialInstructions,
       updatedAt := Some(now))
  }

  /** Records the invoice issued for the booking. */
  function AttachInvoice(b: Booking, number: string, now: int): (r: Booking)
    ensures r.invoiceNumber == Some(number)
    ensures r.status == b.status && r.provider == b.provider && r.id == b.id && r.customer == b.customer
    ensures r.customerEmail == b.customerEmail && r.servicePrice == b.servicePrice && r.bookingDate == b.bookingDate
    ensures r.address == b.address && r.phoneNumber == b.phoneNumber && r.totalAmount == b.totalAmount
    ensures r.notes == b.notes && r.specialInstructions == b.specialInstructions && r.createdAt == b.createdAt
    ensures r.updatedAt == Some(now)
    ensures SamePayment(b, r) && SameAdminRecord(b, r) && SameClosing(b, r)
    ensures Consistent(b) ==> Consistent(r)
  {
    b.(invoiceNumber := Some(number), updatedAt := Some(now))
  }

  /**
   * `after` is `before` with each booking's status moved only along the
   * lifecycle, and with no booking added, removed, reordered or re-owned.
   */
  ghost predicate Evolves(before: seq<Booking>, after: seq<Booking>) {
    |before| == |after| &&
    forall i :: 0 <= i < |before| ==>
      before[i].id == after[i].id && before[i].customer == after[i].customer &&
      Reachable(before[i].status, after[i].status)
  }

  lemma EvolvesTransitive(a: seq<Booking>, b: seq<Booking>, c: seq<Booking>)
    requires Evolves(a, b) && Evolves(b, c)
    ensures Evolves(a, c)
  {
    forall i | 0 <= i < |a|
      ensures Reachable(a[i].status, c[i].status)
    {
      ReachableTransitive(a[i].status, b[i].status, c[i].status);
    }
  }

  /** Replacing one booking by the result of a status change or an edit is an evolution. */
  lemma EvolvesByUpdate(bs: seq<Booking>, i: nat, b: Booking)
    requires i < |bs| && b.id == bs[i].id && b.customer == bs[i].customer
    requires bs[i].status == b.status || CanMove(bs[i].status, b.status)
    ensures Evolves(bs, bs[i := b])
  {
  }

  /** Once rejected, completed or cancelled, a booking keeps that status through any evolution. */
  lemma TerminalStaysPut(before: seq<Booking>, after: seq<Booking>, i: nat)
    requires Evolves(before, after) && i < |before| && Terminal(before[i].status)
    ensures after[i].status == before[i].status
  {
    ReachableShape(before[i].status, after[i].status);
  }
}
