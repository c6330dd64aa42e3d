/**
 * Invoice arithmetic, invoice and transaction numbers, and the gates that
 * decide when an invoice is shown, offered or printed.
 */
module Invoices {
  import opened Wrappers
  import opened Strings
  import opened Models
  import opened Notes
  import opened Matching

  /** The 18% GST rate. */
  const TaxRate: real := 0.18

  /** Subtotal, tax and total of an invoice. */
  datatype Amounts = Amounts(subtotal: real, tax: real, total: real)

  /** An invoice's amounts are internally consistent. */
  predicate Balanced(a: Amounts) {
    a.tax == a.subtotal * TaxRate && a.total == a.subtotal + a.tax
  }

  /** `subtotal = amount; tax = subtotal * 0.18; total = subtotal + tax` */
  function Charge(subtotal: real): (r: Amounts)
    ensures Balanced(r) && r.subtotal == subtotal
  {
    Amounts(subtotal, subtotal * TaxRate, subtotal + subtotal * TaxRate)
  }

  /** The `* 1.18` form used where the invoice is created agrees with subtotal plus tax. */
  lemma ChargeByMultiplier(subtotal: real)
    ensures Charge(subtotal).total == subtotal * 1.18
    ensures Charge(subtotal).tax == Charge(subtotal).total - subtotal
  {
  }

  /** For a non-negative amount the tax is non-negative and the total is at least the subtotal. */
  lemma ChargeOrdered(subtotal: real)
    requires subtotal >= 0.0
    ensures 0.0 <= Charge(subtotal).tax <= Charge(subtotal).total
    ensures subtotal <= Charge(subtotal).total
  {
  }

  /** The charge of two amounts together is the sum of their charges. */
  lemma ChargeAdditive(x: real, y: real)
    ensures Charge(x + y).total == Charge(x).total + Charge(y).total
    ensures Charge(x + y).tax == Charge(x).tax + Charge(y).tax
  {
  }

  /** A stored invoice: the booking it belongs to, its number and amounts. */
  datatype Invoice = Invoice(bookingId: string, number: string, amounts: Amounts)

  const InvoicePrefix := "INV-"

  /** No lower-case ASCII letter occurs in `s`. */
  predicate NoLower(s: string) {
    forall i :: 0 <= i < |s| ==> !IsLowerAscii(s[i])
  }

  /** `f"INV-{booking_id[:8].upper()}"`, the number given to a booking that has no stored invoice. */
  function ProvisionalNumber(bookingId: string): (r: string)
    ensures StartsWith(r, InvoicePrefix)
    ensures |r| == 4 + (if |bookingId| < 8 then |bookingId| else 8)
    ensures NoLower(r[4..])
    ensures forall i :: 0 <= i < |r| - 4 ==> r[4 + i] == UpperChar(bookingId[i])
  {
    var tail := Upper(Prefix(bookingId, 8));
    assert (InvoicePrefix + tail)[4..] == tail;
    InvoicePrefix + tail
  }

  /** Two booking ids that agree on their first eight characters get the same provisional number. */
  lemma ProvisionalNumberPrefix(a: string, b: string)
    requires |a| >= 8 && |b| >= 8 && a[..8] == b[..8]
    ensures ProvisionalNumber(a) == ProvisionalNumber(b)
  {
    assert Prefix(a, 8) == a[..8] && Prefix(b, 8) == b[..8];
  }

  /** `datetime.strftime('%Y%m%d')` */
  function DateStamp(year: nat, month: nat, day: nat): string {
    PadNat(year, 4) + PadNat(month, 2) + PadNat(day, 2)
  }

  /** `f"INV-{date_str}-{str(uuid.uuid4())[:8].upper()}"`; the date and the uuid text are inputs. */
  function GeneratedNumber(year: nat, month: nat, day: nat, uuidText: string): string {
    InvoicePrefix + DateStamp(year, month, day) + "-" + Upper(Prefix(uuidText, 8))
  }

  /** Where the parts of a generated number sit. */
  lemma NumberSlices(y: string, m: string, d: string, u: string)
    requires |y| == 4 && |m| == 2 && |d| == 2
    ensures var r := InvoicePrefix + y + m + d + "-" + u;
      && |r| == 13 + |u| && r[..4] == InvoicePrefix && r[12] == '-'
      && r[4..8] == y && r[8..10] == m && r[10..12] == d && r[13..] == u
  {
  }

  /**
   * A generated number is 21 characters: `INV-`, eight digits that read
   * back as the date, a dash, and eight characters with no lower-case letter.
   */
  lemma GeneratedNumberShape(year: nat, month: nat, day: nat, uuidText: string)
    requires 1 <= year <= 9999 && 1 <= month <= 12 && 1 <= day <= 31 && |uuidText| >= 8
    ensures var r := GeneratedNumber(year, month, day, uuidText);
      && |r| == 21 && r[..4] == InvoicePrefix && r[12] == '-'
      && (forall i :: 4 <= i < 12 ==> IsDigit(r[i]))
      && ParseNat(r[4..8]) == year && ParseNat(r[8..10]) == month && ParseNat(r[10..12]) == day
      && NoLower(r[13..])
  {
    assert Pow10(4) == 10000 && Pow10(2) == 100 by {
      assert Pow10(1) == 10;
    }
    PadNatShape(year, 4);
    PadNatShape(month, 2);
    PadNatShape(day, 2);
    PadNatParses(year, 4);
    PadNatParses(month, 2);
    PadNatParses(day, 2);
    var y, m, d := PadNat(year, 4), PadNat(month, 2), PadNat(day, 2);
    var u := Upper(Prefix(uuidText, 8));
    var r := GeneratedNumber(year, month, day, uuidText);
    assert r == InvoicePrefix + y + m + d + "-" + u;
    NumberSlices(y, m, d, u);
    forall i | 4 <= i < 12
      ensures IsDigit(r[i])
    {
      if i < 8 {
        assert r[i] == y[i - 4];
      } else if i < 10 {
        assert r[i] == m[i - 8];
      } else {
        assert r[i] == d[i - 10];
      }
    }
  }

  /** An invoice record: `Invoice.save` fills in a number only when it has none. */
  class InvoiceRecord {
    var number: string

    constructor (number: string)
      ensures this.number == number
    {
      this.number := number;
    }

    /** Saving keeps an existing number and otherwise takes the generated one. */
    method Save(generated: string)
      modifies this
      ensures old(number) != "" ==> number == old(number)
      ensures old(number) == "" ==> number == generated
    {
      if number == "" {
        number := generated;
      }
    }
  }

  /** Saving twice is saving once: the second save never replaces the number the first one set. */
  method SaveTwice(rec: InvoiceRecord, first: string, second: string)
    requires first != ""
    modifies rec
    ensures rec.number == if old(rec.number) == "" then first else old(rec.number)
  {
    rec.Save(first);
    rec.Save(second);
  }

  /** `f"TXN-{uuid.uuid4().hex[:12].upper()}"`; the hex text is an input. */
  function TransactionId(hex: string): (r: string)
    ensures StartsWith(r, "TXN-") && NoLower(r[4..])
    ensures |hex| >= 12 ==> |r| == 16
  {
    var tail := Upper(Prefix(hex, 12));
    assert ("TXN-" + tail)[4..] == tail;
    "TXN-" + tail
  }

  // ---------------------------------------------------------------------------
  // Gates.

  /** The booking `id`, when it exists and `user` owns it. */
  function OwnedBooking(bs: seq<Booking>, id: string, user: nat): (r: Option<Booking>)
    ensures r.Some? ==> r.value in bs && r.value.id == id && r.value.customer == user
    ensures r.Some? <==> OwnedAt(bs, id, user).Some?
    ensures r.Some? ==> r.value == bs[OwnedAt(bs, id, user).value]
  {
    match OwnedAt(bs, id, user)
    case Some(k) => Some(bs[k])
    case None => None
  }

  /** `booking.status == 'confirmed' and booking.is_paid` */
  predicate InvoiceAvailable(b: Booking) {
    b.status == Confirmed && b.isPaid
  }

  /** The first stored invoice of the booking, as `find_one({'booking_id': …})`. */
  function InvoiceFor(invoices: seq<Invoice>, bookingId: string): (r: Option<Invoice>)
    ensures r.Some? ==> r.value in invoices && r.value.bookingId == bookingId
    ensures r.None? ==> forall v :: v in invoices ==> v.bookingId != bookingId
    decreases |invoices|
  {
    if invoices == [] then None
    else if invoices[0].bookingId == bookingId then Some(invoices[0])
    else InvoiceFor(invoices[1..], bookingId)
  }

  /**
   * `check_invoice_status`: true only for the owner of a confirmed and paid
   * booking that has a stored invoice.
   */
  function HasInvoice(bs: seq<Booking>, invoices: seq<Invoice>, id: string, user: nat): (r: bool)
    ensures r ==> exists b :: b in bs && b.id == id && b.customer == user && InvoiceAvailable(b)
    ensures r ==> exists v :: v in invoices && v.bookingId == id
    ensures (forall v :: v in invoices ==> v.bookingId != id) ==> !r
  {
    match OwnedBooking(bs, id, user)
    case Some(b) => InvoiceAvailable(b) && InvoiceFor(invoices, id).Some?
    case None => false
  }

  /** What the invoice page shows for a MongoDB booking. */
  datatype InvoiceSheet = InvoiceSheet(number: string, amounts: Amounts, serviceName: string, provider: ProviderDoc)

  /**
   * `get_mongodb_invoice`: only the owner of a confirmed booking gets an
   * invoice; its number is the stored invoice's or the provisional one, its
   * amounts are recomputed from the booking, and the names come from the
   * service and provider records or else from the notes.
   */
  function InvoiceData(bs: seq<Booking>, invoices: seq<Invoice>, id: string, user: nat,
                       serviceName: Option<string>, providerDoc: Option<ProviderDoc>): (r: Option<InvoiceSheet>)
    ensures r.Some? <==> OwnedBooking(bs, id, user).Some? && OwnedBooking(bs, id, user).value.status == Confirmed
    ensures r.Some? ==> Balanced(r.value.amounts) && r.value.amounts.subtotal == OwnedBooking(bs, id, user).value.totalAmount
    ensures r.Some? ==> r.value.number == match InvoiceFor(invoices, id)
                                          case Some(v) => v.number
                                          case None => ProvisionalNumber(id)
  {
    match OwnedBooking(bs, id, user)
    case None => None
    case Some(b) =>
      if b.status != Confirmed then None
      else
        var number := match InvoiceFor(invoices, id)
                      case Some(v) => v.number
                      case None => ProvisionalNumber(id);
        var provider := match providerDoc
                        case Some(p) => p
                        case None => NameParts(InvoiceProviderName(None, b.notes));
        Some(InvoiceSheet(number, Charge(b.totalAmount), InvoiceServiceName(serviceName, b.notes), provider))
  }

  /** A booking for which `check_invoice_status` answers yes also has an invoice page. */
  lemma HasInvoiceShowsSheet(bs: seq<Booking>, invoices: seq<Invoice>, id: string, user: nat,
                             serviceName: Option<string>, providerDoc: Option<ProviderDoc>)
    requires HasInvoice(bs, invoices, id, user)
    ensures InvoiceData(bs, invoices, id, user, serviceName, providerDoc).Some?
    ensures InvoiceData(bs, invoices, id, user, serviceName, providerDoc).value.number == InvoiceFor(invoices, id).value.number
  {
  }

  /**
   * `generate_mongodb_invoice_pdf` as written: any booking the user owns is
   * printed, whatever its status and payment.
   */
  function PdfGateAsWritten(bs: seq<Booking>, id: string, user: nat): (r: Option<Booking>)
    ensures r.Some? ==> r.value in bs && r.value.id == id && r.value.customer == user
    ensures r.Some? <==> exists k :: 0 <= k < |bs| && bs[k].id == id && bs[k].customer == user
                                     && forall j :: 0 <= j < k ==> bs[j].id != id
  {
    var r := OwnedBooking(bs, id, user);
    assert r.Some? ==> var k := FindId(bs, id).value; bs[k].id == id && bs[k].customer == user;
    r
  }

  /**
   * The gate as written ignores status and payment: the two gates agree on
   * every booking that is confirmed and paid, and only the written one
   * passes any other.
   */
  lemma PdfGateAsWrittenAdmitsMore(bs: seq<Booking>, id: string, user: nat)
    ensures PdfGate(bs, id, user).Some? ==> PdfGateAsWritten(bs, id, user) == PdfGate(bs, id, user)
    ensures PdfGateAsWritten(bs, id, user).Some? && InvoiceAvailable(PdfGateAsWritten(bs, id, user).value)
            ==> PdfGate(bs, id, user) == PdfGateAsWritten(bs, id, user)
    ensures PdfGateAsWritten(bs, id, user).Some? && !InvoiceAvailable(PdfGateAsWritten(bs, id, user).value)
            ==> PdfGate(bs, id, user).None?
  {
  }

  /** The gate the other invoice views apply: owner, confirmed and paid. */
  function PdfGate(bs: seq<Booking>, id: string, user: nat): (r: Option<Booking>)
    ensures r.Some? ==> r.value.id == id && r.value.customer == user && InvoiceAvailable(r.value)
    ensures r.Some? <==> OwnedBooking(bs, id, user).Some? && InvoiceAvailable(OwnedBooking(bs, id, user).value)
  {
    match OwnedBooking(bs, id, user)
    case Some(b) => if InvoiceAvailable(b) then Some(b) else None
    case None => None
  }

  /** A pending, unpaid booking gets a PDF from the gate as written, but not from the corrected one. */
  lemma UnpaidBookingIsPrinted(b: Booking)
    requires b.status == Pending && !b.isPaid
    ensures PdfGateAsWritten([b], b.id, b.customer) == Some(b)
    ensures PdfGate([b], b.id, b.customer) == None
  {
  }

  /** The corrected gate lets through only bookings the invoice status check would offer. */
  lemma PdfGateAgreesWithStatus(bs: seq<Booking>, invoices: seq<Invoice>, id: string, user: nat)
    requires PdfGate(bs, id, user).Some? && InvoiceFor(invoices, id).Some?
    ensures HasInvoice(bs, invoices, id, user)
  {
  }

  // ---------------------------------------------------------------------------
  // The invoice page's defaults, on Python's two number types.

  /** A number at run time: a `Decimal` or a `float`. */
  datatype Num = Dec(d: real) | Flt(f: real)

  /** `a * b`; Python refuses to multiply a `Decimal` by a `float` (TypeError). */
  function Mul(a: Num, b: Num): (r: Option<Num>)
    ensures r.None? <==> a.Dec? != b.Dec?
    ensures r.Some? ==> r.value.Dec? == a.Dec?
  {
    match (a, b)
    case (Dec(x), Dec(y)) => Some(Dec(x * y))
    case (Flt(x), Flt(y)) => Some(Flt(x * y))
    case _ => None
  }

  /**
   * The `defaults` of `InvoiceView`'s `get_or_create`, as written: the
   * Decimal total times the float literals 0.18 and 1.18. The dictionary is
   * built before the lookup, so this runs whether or not an invoice exists.
   */
  function InvoiceDefaultsAsWritten(total: real): Option<Amounts> {
    match (Mul(Dec(total), Flt(0.18)), Mul(Dec(total), Flt(1.18)))
    case (Some(Dec(t)), Some(Dec(g))) => Some(Amounts(total, t, g))
    case _ => None
  }

  /** Every call raises, so the invoice page never reaches its invoice. */
  lemma InvoiceDefaultsAlwaysRaise(total: real)
    ensures InvoiceDefaultsAsWritten(total).None?
  {
  }

  /** The defaults with Decimal literals, as the other invoice views write them. */
  function InvoiceDefaults(total: real): (r: Option<Amounts>)
    ensures r.Some? && Balanced(r.value) && r.value.subtotal == total
  {
    match (Mul(Dec(total), Dec(0.18)), Mul(Dec(total), Dec(1.18)))
    case (Some(Dec(t)), Some(Dec(g))) => Some(Amounts(total, t, g))
    case _ => None
  }
}
