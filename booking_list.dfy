/**
 * A customer's booking list: the bookings newest first, split into one tab
 * per status plus the upcoming tab.
 */
module BookingList {
  import opened Wrappers
  import opened Seqs
  import opened Sorting
  import opened Models

  /** 2000-01-01 00:00, in seconds since the epoch: the date of a booking without timestamps. */
  const VeryOldDate: int := 946684800

  /** `created_at or updated_at`, else the very old date. */
  function SortDate(b: Booking): (r: int)
    ensures b.createdAt.Some? ==> r == b.createdAt.value
    ensures b.createdAt.None? && b.updatedAt.Some? ==> r == b.updatedAt.value
    ensures r == VeryOldDate || Some(r) == b.createdAt || Some(r) == b.updatedAt
  {
    match b.createdAt
    case Some(t) => t
    case None => b.updatedAt.GetOr(VeryOldDate)
  }

  function SortKey(b: Booking): real { SortDate(b) as real }

  /** `[b for b in all_bookings if b.status == status]` */
  function WithStatus(bs: seq<Booking>, status: Status): (r: seq<Booking>)
    ensures forall b :: b in r <==> b in bs && b.status == status
  {
    Filter(bs, (b: Booking) => b.status == status)
  }

  /** The tabs of the page and the total count. */
  datatype Tabs = Tabs(pending: seq<Booking>, confirmed: seq<Booking>, completed: seq<Booking>,
                       rejected: seq<Booking>, cancelled: seq<Booking>, upcoming: seq<Booking>, total: nat)

  function TabsOf(bs: seq<Booking>): Tabs {
    var p, c := WithStatus(bs, Pending), WithStatus(bs, Confirmed);
    Tabs(p, c, WithStatus(bs, Completed), WithStatus(bs, Rejected), WithStatus(bs, Cancelled), p + c, |bs|)
  }

  /** The number of bookings in each status adds up to the number of bookings. */
  lemma {:induction false} CountsAddUp(bs: seq<Booking>)
    ensures |WithStatus(bs, Pending)| + |WithStatus(bs, Confirmed)| + |WithStatus(bs, Completed)|
            + |WithStatus(bs, Rejected)| + |WithStatus(bs, Cancelled)| == |bs|
    decreases |bs|
  {
    if bs != [] {
      CountsAddUp(bs[1..]);
    }
  }

  /**
   * No booking appears under two status tabs, the upcoming tab is the
   * pending tab followed by the confirmed tab, and the tab sizes add up to
   * the total.
   */
  lemma TabsPartition(bs: seq<Booking>)
    ensures var t := TabsOf(bs);
      && t.upcoming == t.pending + t.confirmed
      && t.total == |bs|
      && |t.pending| + |t.confirmed| + |t.completed| + |t.rejected| + |t.cancelled| == t.total
      && (forall b :: b in t.pending ==> b !in t.confirmed && b !in t.completed && b !in t.rejected && b !in t.cancelled)
      && (forall b :: b in t.confirmed ==> b !in t.completed && b !in t.rejected && b !in t.cancelled)
      && (forall b :: b in t.completed ==> b !in t.rejected && b !in t.cancelled)
      && (forall b :: b in t.rejected ==> b !in t.cancelled)
      && (forall b :: b in t.upcoming <==> b in bs && (b.status == Pending || b.status == Confirmed))
  {
    CountsAddUp(bs);
  }

  /** The view's result: the bookings in display order and the tabs built from them. */
  datatype Listing = Listing(ordered: seq<Booking>, tabs: Tabs)

  /**
   * `all_bookings.sort(key=get_sort_date, reverse=True)` followed by the
   * tab comprehensions: every booking once, newest first, and every tab in
   * that order too.
   */
  method ListBookings(bs: seq<Booking>) returns (r: Listing)
    ensures multiset(r.ordered) == multiset(bs)
    ensures SortedBy(r.ordered, SortKey, true)
    ensures r.tabs == TabsOf(r.ordered)
    ensures forall s: Status :: SortedBy(WithStatus(r.ordered, s), SortKey, true)
  {
    var a := new Booking[|bs|](i requires 0 <= i < |bs| => bs[i]);
    assert a[..] == bs;
    SortByKey(a, SortKey, true);
    var ordered := a[..];
    forall s: Status
      ensures SortedBy(WithStatus(ordered, s), SortKey, true)
    {
      FilterIsSubsequence(ordered, (b: Booking) => b.status == s);
      SortedSubsequence(WithStatus(ordered, s), ordered, SortKey, true);
    }
    r := Listing(ordered, TabsOf(ordered));
  }
}
