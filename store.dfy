/**
 * The booking store behind the customer, admin and servicer views: the
 * bookings (newest first) and the invoices, and the requests that change
 * them.
 */
module BookingStore {
  import opened Wrappers
  import opened Strings
  import opened Seqs
  import opened Sorting
  import opened Models
  import opened Lifecycle
  import opened Notes
  import opened Matching
  import opened Invoices

  /** The ids of the bookings, in store order. */
  function Ids(bs: seq<Booking>): (r: seq<string>)
    ensures |r| == |bs| && forall i :: 0 <= i < |bs| ==> r[i] == bs[i].id
  {
    seq(|bs|, i requires 0 <= i < |bs| => bs[i].id)
  }

  /** The first invoice with that number, as `find_one({'invoice_number': …})`. */
  function InvoiceByNumber(invoices: seq<Invoice>, number: string): (r: Option<Invoice>)
    ensures r.Some? ==> r.value in invoices && r.value.number == number
    ensures r.None? ==> forall v :: v in invoices ==> v.number != number
    decreases |invoices|
  {
    if invoices == [] then None
    else if invoices[0].number == number then Some(invoices[0])
    else InvoiceByNumber(invoices[1..], number)
  }

  /** A provisional invoice as the servicer dashboard inserts it: `amount`, `* 0.18` and `* 1.18`. */
  function ServicerInvoice(b: Booking): (r: Invoice)
    ensures r.bookingId == b.id && r.number == ProvisionalNumber(b.id)
    ensures Balanced(r.amounts) && r.amounts.subtotal == b.totalAmount
  {
    Invoice(b.id, ProvisionalNumber(b.id), Amounts(b.totalAmount, b.totalAmount * 0.18, b.totalAmount * 1.18))
  }

  /** One line of the servicer dashboard: the booking's position and its invoice number. */
  datatype ServicerRow = ServicerRow(position: nat, invoiceNumber: string)

  /** `update_service_status`'s accepted statuses. */
  function ServicerStatus(code: string): (r: Option<Status>)
    ensures r.Some? <==> code == "completed" || code == "rejected"
    ensures r.Some? ==> ServicerTarget(r.value) && StatusCode(r.value) == code
  {
    if code == "completed" then Some(Completed)
    else if code == "rejected" then Some(Rejected)
    else None
  }

  /**
   * The index-based approve and reject requests as written: the booking is
   * selected, but the status check and the update sit in the other branch,
   * so the view returns no response and the bookings stay as they were.
   * The result is the reply (`None` for no reply) and the new bookings.
   */
  function IndexRequestAsWritten(bs: seq<Booking>, index: int): (r: (Option<Failure>, seq<Booking>))
    ensures r.1 == bs
    ensures r.0 == Some(BookingNotFound) <==> PendingAt(bs, index).Err?
    ensures r.0.None? <==> PendingAt(bs, index).Ok?
  {
    match PendingAt(bs, index)
    case Ok(_) => (None, bs)
    case Err(e) => (Some(e), bs)
  }

  /** A lone pending booking is never approved through the index path as written, though approval of it succeeds. */
  lemma IndexApprovalIsLost(b: Booking, adminNotes: string, admin: nat, available: Option<nat>, now: int)
    requires b.status == Pending
    ensures IndexRequestAsWritten([b], 0) == (None, [b])
    ensures Approve(b, adminNotes, admin, available, now).Ok?
    ensures Approve(b, adminNotes, admin, available, now).value.status != IndexRequestAsWritten([b], 0).1[0].status
  {
    assert PendingIndices([b]) == [0] by {
      assert 0 in PendingIndices([b]);
      assert forall i :: 0 <= i < |PendingIndices([b])| ==> PendingIndices([b])[i] == 0;
    }
  }

  class Store {
    var bookings: seq<Booking>
    var invoices: seq<Invoice>

    /**
     * Booking ids are unique and every booking is consistent; every invoice
     * belongs to a stored booking, is balanced, and no booking has two.
     */
    ghost predicate Valid()
      reads this
    {
      && (forall i, j :: 0 <= i < j < |bookings| ==> bookings[i].id != bookings[j].id)
      && (forall i :: 0 <= i < |bookings| ==> Consistent(bookings[i]))
      && (forall k :: 0 <= k < |invoices| ==> invoices[k].bookingId in Ids(bookings) && Balanced(invoices[k].amounts))
      && (forall k, l :: 0 <= k < l < |invoices| ==> invoices[k].bookingId != invoices[l].bookingId)
    }

    constructor ()
      ensures bookings == [] && invoices == [] && Valid()
    {
      bookings := [];
      invoices := [];
    }

    /** Replaces booking `k` by `b`, which keeps its id. */
    method Put(k: nat, b: Booking)
      requires Valid() && k < |bookings| && b.id == bookings[k].id && Consistent(b)
      modifies this
      ensures bookings == old(bookings)[k := b] && invoices == old(invoices)
      ensures Ids(bookings) == Ids(old(bookings))
      ensures Valid()
    {
      bookings := bookings[k := b];
      assert Ids(bookings) == Ids(old(bookings));
    }

    /**
     * A customer books a service: the new booking is pending and unpaid,
     * carries the encoded service and provider names in its notes, and
     * stands first in the store.
     */
    method Book(id: string, customer: nat, customerEmail: string, provider: nat, servicePrice: real,
                bookingDate: int, address: string, phoneNumber: string, serviceName: string,
                providerName: string, instructions: string, now: int) returns (b: Booking)
      requires Valid() && id !in Ids(bookings)
      modifies this
      ensures b == NewBooking(id, customer, customerEmail, provider, servicePrice, bookingDate, address,
                              phoneNumber, servicePrice, instructions, Encode(serviceName, providerName), now)
      ensures b.notes == Encode(serviceName, providerName)
      ensures bookings == [b] + old(bookings) && invoices == old(invoices)
      ensures Valid()
    {
      b := NewBooking(id, customer, customerEmail, provider, servicePrice, bookingDate, address,
                      phoneNumber, servicePrice, instructions, Encode(serviceName, providerName), now);
      bookings := [b] + bookings;
      assert forall i :: 1 <= i < |bookings| ==> bookings[i] == old(bookings)[i - 1];
      assert Ids(bookings) == [id] + Ids(old(bookings));
    }

    /**
     * Cancel by position in the customer's booking list: a position outside
     * the list is "not found", a booking that is neither pending nor
     * confirmed is refused, and anything else is cancelled with the reason.
     */
    method CancelAt(customer: nat, index: int, reason: Option<string>, now: int) returns (r: Result<nat, Failure>)
      requires Valid()
      modifies this
      ensures Valid() && invoices == old(invoices) && Evolves(old(bookings), bookings)
      ensures Select(CustomerIndices(old(bookings), customer), index).Err? ==> r == Err(BookingNotFound)
      ensures r.Err? ==> bookings == old(bookings)
      ensures r.Ok? <==> Select(CustomerIndices(old(bookings), customer), index).Ok?
                         && Cancel(old(bookings)[Select(CustomerIndices(old(bookings), customer), index).value], reason, now).Ok?
      ensures r.Ok? ==> r == Select(CustomerIndices(old(bookings), customer), index)
      ensures r.Ok? ==> old(bookings)[r.value].customer == customer
                        && bookings == old(bookings)[r.value := Cancel(old(bookings)[r.value], reason, now).value]
    {
      var pick := Select(CustomerIndices(bookings, customer), index);
      if pick.Err? {
        return Err(BookingNotFound);
      }
      var k := pick.value;
      var c := Cancel(bookings[k], reason, now);
      if c.Err? {
        return Err(c.error);
      }
      EvolvesByUpdate(bookings, k, c.value);
      Put(k, c.value);
      r := Ok(k);
    }

    /**
     * Cancel by id (the MongoDB update and the ORM fallback behave alike):
     * true exactly when the user's booking with that id was pending or
     * confirmed, and then it is cancelled.
     */
    method CancelById(customer: nat, id: string, reason: string, now: int) returns (done: bool)
      requires Valid()
      modifies this
      ensures Valid() && invoices == old(invoices) && Evolves(old(bookings), bookings)
      ensures done <==> OwnedAt(old(bookings), id, customer).Some?
                        && old(bookings)[OwnedAt(old(bookings), id, customer).value].status in {Pending, Confirmed}
      ensures !done ==> bookings == old(bookings)
      ensures done ==> var k := OwnedAt(old(bookings), id, customer).value;
                       bookings == old(bookings)[k := Cancel(old(bookings)[k], Some(reason), now).value]
    {
      var owned := OwnedAt(bookings, id, customer);
      if owned.None? {
        return false;
      }
      var k := owned.value;
      var c := Cancel(bookings[k], Some(reason), now);
      if c.Err? {
        return false;
      }
      EvolvesByUpdate(bookings, k, c.value);
      Put(k, c.value);
      done := true;
    }

    /** Edit by position in the customer's list: new date and instructions; the status is not consulted. */
    method UpdateAt(customer: nat, index: int, newDate: Option<int>, instructions: string, now: int)
      returns (r: Result<nat, Failure>)
      requires Valid()
      modifies this
      ensures Valid() && invoices == old(invoices) && Evolves(old(bookings), bookings)
      ensures r == Select(CustomerIndices(old(bookings), customer), index)
      ensures r.Err? ==> bookings == old(bookings)
      ensures r.Ok? ==> bookings == old(bookings)[r.value := EditDetails(old(bookings)[r.value], newDate, instructions, now)]
    {
      r := Select(CustomerIndices(bookings, customer), index);
      if r.Ok? {
        var b := EditDetails(bookings[r.value], newDate, instructions, now);
        EvolvesByUpdate(bookings, r.value, b);
        Put(r.value, b);
      }
    }

    /**
     * Payment for the user's booking `id`: "not found" when it is not the
     * user's, refused without a payment method, otherwise the booking is
     * marked paid and the charged amounts are returned.
     */
    method PayFor(customer: nat, id: string, paymentMethod: string, hex: string, now: int)
      returns (r: Result<Amounts, Failure>)
      requires Valid()
      modifies this
      ensures Valid() && invoices == old(invoices) && Evolves(old(bookings), bookings)
      ensures OwnedAt(old(bookings), id, customer).None? ==> r == Err(BookingNotFound)
      ensures OwnedAt(old(bookings), id, customer).Some? && paymentMethod == "" ==> r == Err(NoPaymentMethod)
      ensures r.Err? ==> bookings == old(bookings)
      ensures r.Ok? <==> OwnedAt(old(bookings), id, customer).Some? && paymentMethod != ""
      ensures r.Ok? ==> var k := OwnedAt(old(bookings), id, customer).value;
                        && r.value == Charge(old(bookings)[k].totalAmount)
                        && bookings == old(bookings)[k := Pay(old(bookings)[k], paymentMethod, TransactionId(hex), now).value]
    {
      var owned := OwnedAt(bookings, id, customer);
      if owned.None? {
        return Err(BookingNotFound);
      }
      var k := owned.value;
      var p := Pay(bookings[k], paymentMethod, TransactionId(hex), now);
      if p.Err? {
        return Err(p.error);
      }
      var amounts := Charge(bookings[k].totalAmount);
      EvolvesByUpdate(bookings, k, p.value);
      Put(k, p.value);
      r := Ok(amounts);
    }

    /** Approves booking `k` (shared by both approve paths). */
    method ApproveBooking(k: nat, adminNotes: string, admin: nat, available: Option<nat>, now: int)
      returns (r: Result<nat, Failure>)
      requires Valid() && k < |bookings|
      modifies this
      ensures Valid() && invoices == old(invoices) && Evolves(old(bookings), bookings)
      ensures r.Ok? <==> Approve(old(bookings)[k], adminNotes, admin, available, now).Ok?
      ensures r.Ok? ==> r.value == k && bookings == old(bookings)[k := Approve(old(bookings)[k], adminNotes, admin, available, now).value]
      ensures r.Err? ==> r.error == AlreadyProcessed(old(bookings)[k].status) && bookings == old(bookings)
    {
      var a := Approve(bookings[k], adminNotes, admin, available, now);
      if a.Err? {
        return Err(a.error);
      }
      EvolvesByUpdate(bookings, k, a.value);
      Put(k, a.value);
      r := Ok(k);
    }

    /** Rejects booking `k` (shared by both reject paths). */
    method RejectBooking(k: nat, reason: Option<string>, adminNotes: string, admin: nat, now: int)
      returns (r: Result<nat, Failure>)
      requires Valid() && k < |bookings|
      modifies this
      ensures Valid() && invoices == old(invoices) && Evolves(old(bookings), bookings)
      ensures r.Ok? <==> Reject(old(bookings)[k], reason, adminNotes, admin, now).Ok?
      ensures r.Ok? ==> r.value == k && bookings == old(bookings)[k := Reject(old(bookings)[k], reason, adminNotes, admin, now).value]
      ensures r.Err? ==> r.error == AlreadyProcessed(old(bookings)[k].status) && bookings == old(bookings)
    {
      var a := Reject(bookings[k], reason, adminNotes, admin, now);
      if a.Err? {
        return Err(a.error);
      }
      EvolvesByUpdate(bookings, k, a.value);
      Put(k, a.value);
      r := Ok(k);
    }

    /** The index-based approve request, with the check and update applied to the selected booking. */
    method ApproveAt(index: int, adminNotes: string, admin: nat, available: Option<nat>, now: int)
      returns (r: Result<nat, Failure>)
      requires Valid()
      modifies this
      ensures Valid() && invoices == old(invoices) && Evolves(old(bookings), bookings)
      ensures PendingAt(old(bookings), index).Err? ==> r == Err(BookingNotFound) && bookings == old(bookings)
      ensures r.Ok? <==> PendingAt(old(bookings), index).Ok?
      ensures r.Ok? ==> r == PendingAt(old(bookings), index)
                        && bookings == old(bookings)[r.value := Approve(old(bookings)[r.value], adminNotes, admin, available, now).value]
    {
      var pick := PendingAt(bookings, index);
      if pick.Err? {
        return Err(pick.error);
      }
      r := ApproveBooking(pick.value, adminNotes, admin, available, now);
    }

    /** The index-based reject request, with the check and update applied to the selected booking. */
    method RejectAt(index: int, reason: Option<string>, adminNotes: string, admin: nat, now: int)
      returns (r: Result<nat, Failure>)
      requires Valid()
      modifies this
      ensures Valid() && invoices == old(invoices) && Evolves(old(bookings), bookings)
      ensures PendingAt(old(bookings), index).Err? ==> r == Err(BookingNotFound) && bookings == old(bookings)
      ensures r.Ok? <==> PendingAt(old(bookings), index).Ok?
      ensures r.Ok? ==> r == PendingAt(old(bookings), index)
                        && bookings == old(bookings)[r.value := Reject(old(bookings)[r.value], reason, adminNotes, admin, now).value]
    {
      var pick := PendingAt(bookings, index);
      if pick.Err? {
        return Err(pick.error);
      }
      r := RejectBooking(pick.value, reason, adminNotes, admin, now);
    }

    /**
     * The data-based approve request: the booking the search singles out is
     * approved; when the search fails nothing changes.
     */
    method ApproveMatching(d: Details, adminNotes: string, admin: nat, available: Option<nat>, now: int)
      returns (r: Result<nat, Failure>)
      requires Valid()
      modifies this
      ensures Valid() && invoices == old(invoices) && Evolves(old(bookings), bookings)
      ensures FindForApproval(old(bookings), d).Err? ==> r == FindForApproval(old(bookings), d) && bookings == old(bookings)
      ensures r.Ok? <==> FindForApproval(old(bookings), d).Ok?
      ensures r.Ok? ==> r == FindForApproval(old(bookings), d)
                        && bookings == old(bookings)[r.value := Approve(old(bookings)[r.value], adminNotes, admin, available, now).value]
    {
      var found := FindForApproval(bookings, d);
      if found.Err? {
        return found;
      }
      r := ApproveBooking(found.value, adminNotes, admin, available, now);
    }

    /** The data-based reject request. */
    method RejectMatching(d: Details, reason: Option<string>, adminNotes: string, admin: nat, now: int)
      returns (r: Result<nat, Failure>)
      requires Valid()
      modifies this
      ensures Valid() && invoices == old(invoices) && Evolves(old(bookings), bookings)
      ensures FindForRejection(old(bookings), d).Err? ==> r == FindForRejection(old(bookings), d) && bookings == old(bookings)
      ensures r.Ok? <==> FindForRejection(old(bookings), d).Ok?
      ensures r.Ok? ==> r == FindForRejection(old(bookings), d)
                        && bookings == old(bookings)[r.value := Reject(old(bookings)[r.value], reason, adminNotes, admin, now).value]
    {
      var found := FindForRejection(bookings, d);
      if found.Err? {
        return found;
      }
      r := RejectBooking(found.value, reason, adminNotes, admin, now);
    }

    /**
     * The servicer's report by invoice number: refused unless it is a POST
     * by a provider with a non-empty invoice number and a target of
     * `completed` or `rejected`; an unknown number is "not found"; only a
     * confirmed booking moves.
     */
    method UpdateServiceStatus(isPost: bool, isProvider: bool, invoiceId: string, newStatus: string,
                               servicer: nat, now: int) returns (r: Result<nat, Failure>)
      requires Valid()
      modifies this
      ensures Valid() && invoices == old(invoices) && Evolves(old(bookings), bookings)
      ensures r.Err? ==> bookings == old(bookings)
      ensures !isPost ==> r == Err(NotPost)
      ensures isPost && !isProvider ==> r == Err(NotProvider)
      ensures isPost && isProvider && (invoiceId == "" || ServicerStatus(newStatus).None?) ==> r == Err(InvalidParameters)
      ensures r.Ok? ==> isPost && isProvider && invoiceId != "" && ServicerStatus(newStatus).Some?
      ensures r.Ok? ==> InvoiceByNumber(old(invoices), invoiceId).Some?
                        && FindId(old(bookings), InvoiceByNumber(old(invoices), invoiceId).value.bookingId) == Some(r.value)
                        && old(bookings)[r.value].status == Confirmed
                        && bookings == old(bookings)[r.value := FinishService(old(bookings)[r.value], ServicerStatus(newStatus).value, servicer, now).value]
      ensures isPost && isProvider && invoiceId != "" && ServicerStatus(newStatus).Some? && InvoiceByNumber(old(invoices), invoiceId).None?
              ==> r == Err(InvoiceNotFound)
      ensures isPost && isProvider && invoiceId != "" && ServicerStatus(newStatus).Some? && InvoiceByNumber(old(invoices), invoiceId).Some?
              ==> var at := FindId(old(bookings), InvoiceByNumber(old(invoices), invoiceId).value.bookingId);
                  && (at.Some? && old(bookings)[at.value].status == Confirmed ==> r == Ok(at.value))
                  && (at.None? || old(bookings)[at.value].status != Confirmed ==> r == Err(NotConfirmed))
    {
      if !isPost {
        return Err(NotPost);
      }
      if !isProvider {
        return Err(NotProvider);
      }
      var target := ServicerStatus(newStatus);
      if invoiceId == "" || target.None? {
        return Err(InvalidParameters);
      }
      var invoice := InvoiceByNumber(invoices, invoiceId);
      if invoice.None? {
        return Err(InvoiceNotFound);
      }
      var at := FindId(bookings, invoice.value.bookingId);
      if at.None? || bookings[at.value].status != Confirmed {
        return Err(NotConfirmed);
      }
      var k := at.value;
      var b := FinishService(bookings[k], target.value, servicer, now).value;
      EvolvesByUpdate(bookings, k, b);
      Put(k, b);
      r := Ok(k);
    }

    /** Adds an invoice for a stored booking that has none. */
    method AddInvoice(v: Invoice)
      requires Valid() && v.bookingId in Ids(bookings) && Balanced(v.amounts)
      requires InvoiceFor(invoices, v.bookingId).None?
      modifies this
      ensures invoices == old(invoices) + [v] && bookings == old(bookings)
      ensures Valid()
    {
      invoices := invoices + [v];
    }

    /**
     * `generate_invoice_for_mongodb_booking`: nothing happens for an unknown
     * or unpaid booking or one that already has an invoice; otherwise a
     * balanced invoice with a generated number is added and recorded on the
     * booking.
     */
    method GenerateInvoice(id: string, year: nat, month: nat, day: nat, uuidText: string, now: int)
      returns (r: Option<string>)
      requires Valid()
      modifies this
      ensures Valid() && Evolves(old(bookings), bookings)
      ensures r.None? <==> FindId(old(bookings), id).None? || !old(bookings)[FindId(old(bookings), id).value].isPaid
                           || InvoiceFor(old(invoices), id).Some?
      ensures r.None? ==> bookings == old(bookings) && invoices == old(invoices)
      ensures r.Some? ==> var k := FindId(old(bookings), id).value;
        && r.value == GeneratedNumber(year, month, day, uuidText)
        && invoices == old(invoices) + [Invoice(id, r.value, Charge(old(bookings)[k].totalAmount))]
        && bookings == old(bookings)[k := AttachInvoice(old(bookings)[k], r.value, now)]
    {
      var at := FindId(bookings, id);
      if at.None? {
        return None;
      }
      var k := at.value;
      if !bookings[k].isPaid || InvoiceFor(invoices, id).Some? {
        return None;
      }
      var number := GeneratedNumber(year, month, day, uuidText);
      assert id == Ids(bookings)[k];
      AddInvoice(Invoice(id, number, Charge(bookings[k].totalAmount)));
      var b := AttachInvoice(bookings[k], number, now);
      EvolvesByUpdate(bookings, k, b);
      Put(k, b);
      r := Some(number);
    }

    /**
     * The invoice page with its `get_or_create` as the other invoice views
     * write it: only the owner of a confirmed and paid booking gets it; a
     * stored invoice is returned as it is, and otherwise a balanced one with
     * a generated number is created.
     */
    method OpenInvoice(customer: nat, id: string, year: nat, month: nat, day: nat, uuidText: string)
      returns (r: Result<Invoice, Failure>)
      requires Valid()
      modifies this
      ensures Valid() && bookings == old(bookings)
      ensures OwnedAt(old(bookings), id, customer).None? ==> r == Err(BookingNotFound)
      ensures r.Ok? <==> OwnedBooking(old(bookings), id, customer).Some? && InvoiceAvailable(OwnedBooking(old(bookings), id, customer).value)
      ensures r.Err? ==> invoices == old(invoices)
      ensures r.Ok? && InvoiceFor(old(invoices), id).Some? ==> r.value == InvoiceFor(old(invoices), id).value && invoices == old(invoices)
      ensures r.Ok? && InvoiceFor(old(invoices), id).None? ==>
        && r.value == Invoice(id, GeneratedNumber(year, month, day, uuidText), InvoiceDefaults(OwnedBooking(old(bookings), id, customer).value.totalAmount).value)
        && invoices == old(invoices) + [r.value]
      ensures r.Ok? ==> Balanced(r.value.amounts) && r.value.bookingId == id
    {
      var owned := OwnedAt(bookings, id, customer);
      if owned.None? {
        return Err(BookingNotFound);
      }
      var b := bookings[owned.value];
      if !InvoiceAvailable(b) {
        return Err(NotInvoiceable);
      }
      var existing := InvoiceFor(invoices, id);
      if existing.Some? {
        assert existing.value == invoices[IndexIn(invoices, existing.value)];
        return Ok(existing.value);
      }
      var v := Invoice(id, GeneratedNumber(year, month, day, uuidText), InvoiceDefaults(b.totalAmount).value);
      assert id == Ids(bookings)[owned.value];
      AddInvoice(v);
      r := Ok(v);
    }

    /** One dashboard row: the booking at `p` with its invoice, inserting the provisional one when there is none. */
    method StockOne(p: nat) returns (row: ServicerRow)
      requires Valid() && p < |bookings| && bookings[p].status == Confirmed
      modifies this
      ensures Valid() && bookings == old(bookings)
      ensures row.position == p && ListedWithInvoice(bookings, invoices, row)
      ensures invoices == if InvoiceFor(old(invoices), bookings[p].id).None?
                          then old(invoices) + [ServicerInvoice(bookings[p])] else old(invoices)
      ensures KeepsInvoices(old(invoices), invoices)
    {
      var b := bookings[p];
      var invoice := InvoiceFor(invoices, b.id);
      if invoice.None? {
        var v := ServicerInvoice(b);
        assert b.id == Ids(bookings)[p];
        ghost var before := invoices;
        AddInvoice(v);
        InvoiceForAppend(before, v);
        invoice := Some(v);
      }
      row := ServicerRow(p, invoice.value.number);
    }

    /** The dashboard's loop over the sorted positions: one row each, with the invoice stocked where missing. */
    method StockAll(order: seq<nat>) returns (rows: seq<ServicerRow>)
      requires Valid()
      requires forall j :: 0 <= j < |order| ==> order[j] < |bookings| && bookings[order[j]].status == Confirmed
      modifies this
      ensures Valid() && bookings == old(bookings)
      ensures Positions(rows) == order
      ensures forall j :: 0 <= j < |rows| ==> ListedWithInvoice(bookings, invoices, rows[j])
      ensures invoices == Stocked(bookings, old(invoices), order, |order|)
    {
      ghost var bs := bookings;
      rows := [];
      var n := 0;
      while n < |order|
        invariant 0 <= n <= |order| && |rows| == n
        invariant Valid() && bookings == bs
        invariant forall j :: 0 <= j < n ==> rows[j].position == order[j]
        invariant forall j :: 0 <= j < n ==> ListedWithInvoice(bs, invoices, rows[j])
        invariant invoices == Stocked(bs, old(invoices), order, n)
      {
        ghost var before := invoices;
        var row := StockOne(order[n]);
        StockedStep(bs, old(invoices), order, n);
        ListedPreserved(bs, before, invoices, rows);
        RowsGrow(bs, invoices, rows, row, order, n);
        rows := rows + [row];
        n := n + 1;
      }
    }

    /**
     * The servicer dashboard: every confirmed booking, latest booking date
     * first, each with its invoice number; a listed booking without an
     * invoice gets the provisional one first. `total_assigned` is the length
     * of the list.
     */
    method ServicerDashboard() returns (rows: seq<ServicerRow>, totalAssigned: nat)
      requires Valid()
      modifies this
      ensures Valid() && bookings == old(bookings)
      ensures totalAssigned == |rows|
      ensures multiset(Positions(rows)) == multiset(ConfirmedIndices(bookings))
      ensures SortedBy(Positions(rows), DateKeys(bookings), true)
      ensures forall j :: 0 <= j < |rows| ==> rows[j].position < |bookings| && bookings[rows[j].position].status == Confirmed
      ensures forall j :: 0 <= j < |rows| ==> ListedWithInvoice(bookings, invoices, rows[j])
      ensures invoices == Stocked(bookings, old(invoices), Positions(rows), |rows|)
    {
      var order := ConfirmedByDate(bookings);
      rows := StockAll(order);
      totalAssigned := |rows|;
    }
  }

  /** `find({'status': 'confirmed'}).sort('booking_date', -1)`: the confirmed positions, latest booking date first. */
  method ConfirmedByDate(bs: seq<Booking>) returns (order: seq<nat>)
    ensures multiset(order) == multiset(ConfirmedIndices(bs))
    ensures SortedBy(order, DateKeys(bs), true)
    ensures forall j :: 0 <= j < |order| ==> order[j] < |bs| && bs[order[j]].status == Confirmed
  {
    var confirmed := ConfirmedIndices(bs);
    var a := new nat[|confirmed|](i requires 0 <= i < |confirmed| => confirmed[i]);
    assert a[..] == confirmed;
    SortByKey(a, DateKeys(bs), true);
    order := a[..];
    assert forall j :: 0 <= j < |order| ==> order[j] in multiset(confirmed);
  }

  /** The positions of the dashboard rows. */
  function Positions(rows: seq<ServicerRow>): (r: seq<nat>)
    ensures |r| == |rows| && forall j :: 0 <= j < |rows| ==> r[j] == rows[j].position
  {
    seq(|rows|, j requires 0 <= j < |rows| => rows[j].position)
  }

  /** Positions of the confirmed bookings, in store order. */
  function ConfirmedIndices(bs: seq<Booking>): (r: seq<nat>)
    ensures forall i: nat :: i in r <==> i < |bs| && bs[i].status == Confirmed
  {
    Filter(Range(|bs|), (i: nat) => i < |bs| && bs[i].status == Confirmed)
  }

  /** The row's booking is confirmed and its stored invoice carries the row's number. */
  predicate ListedWithInvoice(bs: seq<Booking>, invoices: seq<Invoice>, row: ServicerRow) {
    && row.position < |bs| && bs[row.position].status == Confirmed
    && InvoiceFor(invoices, bs[row.position].id).Some?
    && InvoiceFor(invoices, bs[row.position].id).value.number == row.invoiceNumber
  }

  /** Every invoice lookup that succeeded in `a` gives the same answer in `b`. */
  ghost predicate KeepsInvoices(a: seq<Invoice>, b: seq<Invoice>) {
    forall id :: InvoiceFor(a, id).Some? ==> InvoiceFor(b, id) == InvoiceFor(a, id)
  }

  lemma ListedPreserved(bs: seq<Booking>, a: seq<Invoice>, b: seq<Invoice>, rows: seq<ServicerRow>)
    requires KeepsInvoices(a, b)
    requires forall j :: 0 <= j < |rows| ==> ListedWithInvoice(bs, a, rows[j])
    ensures forall j :: 0 <= j < |rows| ==> ListedWithInvoice(bs, b, rows[j])
  {
  }

  function DateKeys(bs: seq<Booking>): nat -> real {
    (i: nat) => DateKey(bs, i)
  }

  /** The booking date at a position, as a sort key. */
  function DateKey(bs: seq<Booking>, i: nat): real {
    if i < |bs| then bs[i].bookingDate as real else 0.0
  }

  /**
   * The invoices after the dashboard has walked the first `n` positions of
   * `order`: each booking that has no invoice yet gets its provisional one
   * appended.
   */
  function Stocked(bs: seq<Booking>, invoices: seq<Invoice>, order: seq<nat>, n: nat): seq<Invoice>
    requires n <= |order|
    decreases n
  {
    if n == 0 then invoices
    else
      var before := Stocked(bs, invoices, order, n - 1);
      var p := order[n - 1];
      if p < |bs| && InvoiceFor(before, bs[p].id).None? then before + [ServicerInvoice(bs[p])] else before
  }

  /** One more position of the order stocks at most one more invoice. */
  lemma StockedStep(bs: seq<Booking>, invoices: seq<Invoice>, order: seq<nat>, n: nat)
    requires n < |order|
    ensures var before := Stocked(bs, invoices, order, n);
            var p := order[n];
            Stocked(bs, invoices, order, n + 1)
              == if p < |bs| && InvoiceFor(before, bs[p].id).None? then before + [ServicerInvoice(bs[p])] else before
  {
  }

  /** Appending the row for the next position keeps the rows in order and listed. */
  lemma RowsGrow(bs: seq<Booking>, invoices: seq<Invoice>, rows: seq<ServicerRow>, row: ServicerRow, order: seq<nat>, n: nat)
    requires n < |order| && |rows| == n
    requires forall j :: 0 <= j < n ==> rows[j].position == order[j]
    requires forall j :: 0 <= j < n ==> ListedWithInvoice(bs, invoices, rows[j])
    requires row.position == order[n] && ListedWithInvoice(bs, invoices, row)
    ensures forall j :: 0 <= j < n + 1 ==> (rows + [row])[j].position == order[j]
    ensures forall j :: 0 <= j < n + 1 ==> ListedWithInvoice(bs, invoices, (rows + [row])[j])
  {
  }

  function IndexIn(invoices: seq<Invoice>, v: Invoice): (k: nat)
    requires v in invoices
    ensures k < |invoices| && invoices[k] == v
  {
    if invoices[0] == v then 0 else 1 + IndexIn(invoices[1..], v)
  }

  lemma {:induction false} InvoiceForAppend(a: seq<Invoice>, v: Invoice)
    requires InvoiceFor(a, v.bookingId).None?
    ensures InvoiceFor(a + [v], v.bookingId) == Some(v)
    ensures forall id :: id != v.bookingId ==> InvoiceFor(a + [v], id) == InvoiceFor(a, id)
    decreases |a|
  {
    if a == [] {
      assert a + [v] == [v];
    } else {
      assert (a + [v])[1..] == a[1..] + [v];
      InvoiceForAppend(a[1..], v);
    }
  }
}
