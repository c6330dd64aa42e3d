/**
 * The marketplace's records: a booking with its status and payment fields,
 * and the computed properties of a service.
 */
module Models {
  import opened Wrappers
  import opened Strings
  import Seqs

  /** The five declared booking statuses. */
  datatype Status = Pending | Confirmed | Rejected | Completed | Cancelled

  /** The value stored in the `status` column. */
  function StatusCode(s: Status): string {
    match s
    case Pending => "pending"
    case Confirmed => "confirmed"
    case Rejected => "rejected"
    case Completed => "completed"
    case Cancelled => "cancelled"
  }

  /** The human-readable name of each choice. */
  function StatusLabel(s: Status): string {
    match s
    case Pending => "Pending"
    case Confirmed => "Confirmed"
    case Rejected => "Rejected"
    case Completed => "Completed"
    case Cancelled => "Cancelled"
  }

  /** Reads a stored status value; anything other than the five codes is not a status. */
  function ParseStatus(code: string): (r: Option<Status>)
    ensures r.Some? ==> StatusCode(r.value) == code
  {
    if code == "pending" then Some(Pending)
    else if code == "confirmed" then Some(Confirmed)
    else if code == "rejected" then Some(Rejected)
    else if code == "completed" then Some(Completed)
    else if code == "cancelled" then Some(Cancelled)
    else None
  }

  /** Every status is stored as one of the declared codes and read back as itself. */
  lemma ParseStatusCode(s: Status)
    ensures ParseStatus(StatusCode(s)) == Some(s)
  {
  }

  /** `get_status_display` on bookings read straight from MongoDB: the label map, else `status.title()`. */
  function StatusDisplay(code: string): (r: string)
    ensures |r| == |code|
    ensures ParseStatus(code).None? ==> r == Title(code)
  {
    match ParseStatus(code)
    case Some(s) => StatusLabel(s)
    case None => Title(code)
  }

  /** A label that is its lower-case code with the first letter upper-cased is that code's title. */
  lemma TitleOfCode(code: string, name: string)
    requires code != [] && forall i :: 0 <= i < |code| ==> IsLowerAscii(code[i])
    requires name == [UpperChar(code[0])] + code[1..]
    ensures name == Title(code)
  {
    TitleOfLowerWord(code);
  }

  /** The label of a status is the title of its code. */
  lemma LabelIsTitle(s: Status)
    ensures StatusLabel(s) == Title(StatusCode(s))
  {
    match s
    case Pending => TitleOfCode("pending", "Pending");
    case Confirmed => TitleOfCode("confirmed", "Confirmed");
    case Rejected => TitleOfCode("rejected", "Rejected");
    case Completed => TitleOfCode("completed", "Completed");
    case Cancelled => TitleOfCode("cancelled", "Cancelled");
  }

  /** For the declared statuses the label map and `title()` agree, so the fallback never disagrees with the map. */
  lemma StatusDisplayOfCode(s: Status)
    ensures StatusDisplay(StatusCode(s)) == StatusLabel(s)
    ensures StatusLabel(s) == Title(StatusCode(s))
  {
    ParseStatusCode(s);
    LabelIsTitle(s);
  }

  /** The payment choices of a booking. */
  datatype PaymentStatus = PaymentPending | Paid | PaymentFailed

  /**
   * A booking. `id` is the text of its database key; `customer` and
   * `customerEmail` are the booking customer's id and e-mail; `servicePrice`
   * is the catalogue price of the booked service. Times are seconds.
   */
  datatype Booking = Booking(
    id: string,
    customer: nat,
    customerEmail: string,
    provider: Option<nat>,
    servicePrice: real,
    status: Status,
    bookingDate: int,
    address: string,
    phoneNumber: string,
    totalAmount: real,
    paymentStatus: PaymentStatus,
    isPaid: bool,
    paymentMethod: string,
    transactionId: string,
    paidAt: Option<int>,
    notes: string,
    specialInstructions: string,
    adminNotes: string,
    approvedBy: Option<nat>,
    approvedAt: Option<int>,
    rejectionReason: string,
    rejectedBy: Option<nat>,
    rejectedAt: Option<int>,
    cancellationReason: string,
    cancellationDate: Option<int>,
    serviceCompletedBy: Option<nat>,
    serviceCompletedAt: Option<int>,
    invoiceNumber: Option<string>,
    createdAt: Option<int>,
    updatedAt: Option<int>)

  /**
   * What every stored booking keeps true: the paid flag and the payment
   * status agree, the completion stamp is present exactly on completed
   * bookings, a booking that was confirmed carries its approval time, and a
   * cancelled one its cancellation time.
   */
  predicate Consistent(b: Booking) {
    && (b.isPaid <==> b.paymentStatus == Paid)
    && (b.status == Completed <==> b.serviceCompletedBy.Some?)
    && (b.status == Completed <==> b.serviceCompletedAt.Some?)
    && ((b.status == Confirmed || b.status == Completed) ==> b.approvedAt.Some?)
    && (b.status == Cancelled ==> b.cancellationDate.Some?)
  }

  /** The booking document written when a customer books a service. */
  function NewBooking(id: string, customer: nat, customerEmail: string, provider: nat,
                      servicePrice: real, bookingDate: int, address: string, phoneNumber: string,
                      amount: real, instructions: string, notes: string, now: int): (b: Booking)
    ensures b.status == Pending && b.paymentStatus == PaymentPending && !b.isPaid
    ensures b.paidAt.None? && b.approvedAt.None? && b.serviceCompletedBy.None? && b.invoiceNumber.None?
    ensures Consistent(b)
  {
    Booking(id, customer, customerEmail, Some(provider), servicePrice, Pending, bookingDate,
            address, phoneNumber, amount, PaymentPending, false, "", "", None, notes, instructions,
            "", None, None, "", None, None, "", None, None, None, None, Some(now), Some(now))
  }

  // ---------------------------------------------------------------------------
  // Computed properties of a service.

  function SumInts(xs: seq<int>): int {
    if xs == [] then 0 else xs[0] + SumInts(xs[1..])
  }

  /** `average_rating`: the mean of the review ratings, or 0 when there are none. */
  function AverageRating(ratings: seq<int>): (r: real)
    ensures ratings == [] ==> r == 0.0
    ensures ratings != [] ==> r * (|ratings| as real) == SumInts(ratings) as real
  {
    if ratings == [] then 0.0 else SumInts(ratings) as real / |ratings| as real
  }

  /** A review's rating is one of the choices 1 to 5. */
  predicate ValidRating(r: int) { 1 <= r <= 5 }

  /** `review_count`: with ratings from the choices, a service has no reviews exactly when its average is 0. */
  function ReviewCount(ratings: seq<int>): (r: nat)
    ensures r == |ratings|
    ensures (forall i :: 0 <= i < |ratings| ==> ValidRating(ratings[i])) ==> (r == 0 <==> AverageRating(ratings) == 0.0)
  {
    if forall i :: 0 <= i < |ratings| ==> ValidRating(ratings[i]) then
      SumIntsBounds(ratings);
      |ratings|
    else |ratings|
  }

  lemma {:induction false} SumIntsBounds(xs: seq<int>)
    requires forall i :: 0 <= i < |xs| ==> ValidRating(xs[i])
    ensures |xs| <= SumInts(xs) <= 5 * |xs|
  {
    if xs != [] {
      SumIntsBounds(xs[1..]);
    }
  }

  lemma ScaledBounds(q: real, n: real, x: real)
    requires n > 0.0 && q * n == x && n <= x && x <= 5.0 * n
    ensures 1.0 <= q <= 5.0
  {
  }

  lemma QuotientBounds(x: real, n: real)
    requires n > 0.0 && n <= x <= 5.0 * n
    ensures 1.0 <= x / n <= 5.0
  {
    var q := x / n;
    assert q * n == x;
    ScaledBounds(q, n, x);
  }

  /** With ratings restricted to 1..5, the mean of a non-empty list lies in [1, 5]. */
  lemma AverageRatingBounds(ratings: seq<int>)
    requires forall i :: 0 <= i < |ratings| ==> ValidRating(ratings[i])
    ensures ratings == [] ==> AverageRating(ratings) == 0.0
    ensures ratings != [] ==> 1.0 <= AverageRating(ratings) <= 5.0
  {
    if ratings != [] {
      SumIntsBounds(ratings);
      var total, n := SumInts(ratings), |ratings|;
      assert n as real <= total as real <= (5 * n) as real;
      QuotientBounds(total as real, n as real);
    }
  }

  /** Django's `get_full_name()`: first and last name joined by a space, then stripped. */
  function FullName(first: string, last: string): string {
    Strip(first + " " + last)
  }

  /**
   * `Service.provider_name`: the provider profile's company name when it is
   * non-empty, otherwise first and last name with a space between; a
   * provider without a profile (`None`) gets the latter too.
   */
  function ProviderName(companyName: Option<string>, first: string, last: string): (r: string)
    ensures companyName.Some? && companyName.value != "" ==> r == companyName.value
    ensures (companyName.None? || companyName.value == "") ==> r == first + " " + last
    ensures r != ""
  {
    match companyName
    case Some(c) => if c != "" then c else first + " " + last
    case None => first + " " + last
  }
}
