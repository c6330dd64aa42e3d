/**
 * The column helpers of the booking and service admin pages: each turns a
 * record into the text shown in one column.
 */
module AdminDisplay {
  import opened Wrappers
  import opened Strings
  import opened Models

  /** `BookingAdmin.booking_id`: `"BK-"` and the id zero-padded to six digits. */
  function BookingIdLabel(id: nat): (r: string)
    ensures |r| >= 9 && r[..3] == "BK-"
    ensures ParseNat(r[3..]) == id
    ensures id < 1000000 ==> |r| == 9 && forall i :: 3 <= i < 9 ==> IsDigit(r[i])
  {
    PaddedId(id);
    "BK-" + PadNat(id, 6)
  }

  lemma PaddedId(id: nat)
    ensures ParseNat(("BK-" + PadNat(id, 6))[3..]) == id
    ensures |PadNat(id, 6)| >= 6
    ensures id < 1000000 ==> |PadNat(id, 6)| == 6 && forall i :: 0 <= i < 6 ==> IsDigit(PadNat(id, 6)[i])
  {
    var digits := PadNat(id, 6);
    assert ("BK-" + digits)[3..] == digits;
    PadNatParses(id, 6);
    if id < 1000000 {
      assert Pow10(6) == 1000000 by {
        assert Pow10(3) == 1000;
      }
      PadNatShape(id, 6);
    }
  }

  /** Different bookings never share a label. */
  lemma BookingIdLabelInjective(a: nat, b: nat)
    requires BookingIdLabel(a) == BookingIdLabel(b)
    ensures a == b
  {
  }

  /** The user fields the admin columns print. */
  datatype Person = Person(firstName: string, lastName: string, email: string)

  /** `BookingAdmin.customer_name`, and a provider's text on the service page: `get_full_name() or email`. */
  function CustomerName(p: Person): (r: string)
    ensures FullName(p.firstName, p.lastName) != "" ==> r == FullName(p.firstName, p.lastName)
    ensures FullName(p.firstName, p.lastName) == "" ==> r == p.email
    ensures r == "" ==> p.email == ""
  {
    var full := FullName(p.firstName, p.lastName);
    if full != "" then full else p.email
  }

  /** `ServiceAdmin.provider_name`: `"No Provider"` for a service without one. */
  function ServiceProviderName(provider: Option<Person>): (r: string)
    ensures provider.None? ==> r == "No Provider"
    ensures provider.Some? ==> r == CustomerName(provider.value)
  {
    match provider
    case None => "No Provider"
    case Some(p) => CustomerName(p)
  }

  /** A provider with a name or an address is never shown as having none. */
  lemma NamedProviderShown(p: Person)
    requires p.email != "" && p.email != "No Provider"
    ensures ServiceProviderName(Some(p)) != ""
    ensures FullName(p.firstName, p.lastName) == "" ==> ServiceProviderName(Some(p)) != ServiceProviderName(None)
  {
  }

  /** The colour table of `BookingAdmin.status_display`. */
  const Colours: map<string, string> := map[
    "pending" := "orange",
    "confirmed" := "blue",
    "in_progress" := "purple",
    "completed" := "green",
    "cancelled" := "red"]

  /** `colors.get(status, 'gray')` */
  function StatusColour(code: string): (r: string)
    ensures r == "gray" <==> code !in Colours
    ensures code in Colours ==> r == Colours[code]
  {
    if code in Colours then Colours[code] else "gray"
  }

  /**
   * Of the five booking statuses, a rejected booking falls through to gray;
   * the table's `in_progress` entry belongs to no status a booking can have.
   */
  lemma ColoursOfStatuses()
    ensures StatusColour(StatusCode(Pending)) == "orange"
    ensures StatusColour(StatusCode(Confirmed)) == "blue"
    ensures StatusColour(StatusCode(Completed)) == "green"
    ensures StatusColour(StatusCode(Cancelled)) == "red"
    ensures StatusColour(StatusCode(Rejected)) == "gray"
    ensures ParseStatus("in_progress").None?
  {
  }

  /** The statuses that have a colour of their own get different ones. */
  lemma StatusColoursDistinct(s: Status, t: Status)
    requires s != t && s != Rejected && t != Rejected
    ensures StatusColour(StatusCode(s)) != StatusColour(StatusCode(t))
  {
  }

  /** `total_amount or service.price`: the amount shown, before the `₹` sign. */
  function AmountShown(b: Booking): (r: real)
    ensures b.totalAmount != 0.0 ==> r == b.totalAmount
    ensures b.totalAmount == 0.0 ==> r == b.servicePrice
  {
    if b.totalAmount != 0.0 then b.totalAmount else b.servicePrice
  }

  /** Only a booking with no amount and a free service shows 0. */
  lemma AmountShownZero(b: Booking)
    ensures AmountShown(b) == 0.0 <==> b.totalAmount == 0.0 && b.servicePrice == 0.0
  {
  }

  /** `BookingAdmin.payment_status` without its markup. */
  function PaymentLabel(isPaid: bool): (r: string)
    ensures r == "✓ Paid" <==> isPaid
    ensures r == "✗ Unpaid" <==> !isPaid
  {
    if isPaid then "✓ Paid" else "✗ Unpaid"
  }

  /** On a stored booking the payment column agrees with its payment status. */
  lemma PaymentLabelAgrees(b: Booking)
    requires Consistent(b)
    ensures PaymentLabel(b.isPaid) == "✓ Paid" <==> b.paymentStatus == Paid
  {
  }
}
