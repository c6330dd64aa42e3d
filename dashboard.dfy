/**
 * The dashboards: where `home` sends a signed-in user, the role checks at
 * the top of each dashboard, the revenue figure and the service name shown
 * for a recent booking.
 */
module Dashboard {
  import opened Wrappers
  import opened Strings
  import opened Seqs
  import opened Models

  /** The parts of `request.user` the routing looks at. */
  datatype User = User(authenticated: bool, userType: string, isSuperuser: bool)

  datatype Page = HomePage | AdminDashboard | ServicerDashboard | UserDashboard

  predicate IsAdmin(u: User) { u.userType == "admin" || u.isSuperuser }

  predicate IsProvider(u: User) { u.userType == "provider" }

  /** `home`: anonymous users see the home page, everyone else is redirected by role. */
  function Home(u: User): (r: Page)
    ensures r == HomePage <==> !u.authenticated
    ensures r == AdminDashboard <==> u.authenticated && IsAdmin(u)
    ensures r == ServicerDashboard <==> u.authenticated && !IsAdmin(u) && IsProvider(u)
    ensures r == UserDashboard <==> u.authenticated && !IsAdmin(u) && !IsProvider(u)
  {
    if u.authenticated then
      if u.userType == "admin" || u.isSuperuser then AdminDashboard
      else if u.userType == "provider" then ServicerDashboard
      else UserDashboard
    else HomePage
  }

  /** The redirect a dashboard answers with before showing anything; `None` lets the user in. */
  function Guard(page: Page, u: User): (r: Option<Page>)
    ensures r.Some? ==> r.value == UserDashboard
    ensures page == AdminDashboard ==> (r.None? <==> IsAdmin(u))
    ensures page == ServicerDashboard ==> (r.None? <==> IsProvider(u))
    ensures page == UserDashboard || page == HomePage ==> r.None?
  {
    match page
    case AdminDashboard => if !(u.userType == "admin" || u.isSuperuser) then Some(UserDashboard) else None
    case ServicerDashboard => if u.userType != "provider" then Some(UserDashboard) else None
    case _ => None
  }

  /** `provider_dashboard` applies the same check as the servicer dashboard. */
  function ProviderGuard(u: User): (r: Option<Page>)
    ensures r.None? <==> IsProvider(u)
    ensures r.Some? ==> r.value == UserDashboard
  {
    if u.userType != "provider" then Some(UserDashboard) else None
  }

  /** `home` never sends a signed-in user to a dashboard that turns them away. */
  lemma HomeLandsInside(u: User)
    requires u.authenticated
    ensures Guard(Home(u), u).None?
  {
  }

  /** A user who lands on a page by redirect is not redirected again. */
  lemma GuardRedirectSettles(page: Page, u: User)
    requires Guard(page, u).Some?
    ensures Guard(Guard(page, u).value, u).None?
  {
  }

  // ---------------------------------------------------------------- revenue

  /** The bookings that earn revenue: confirmed or completed, and paid. */
  predicate Earning(b: Booking) {
    (b.status == Confirmed || b.status == Completed) && b.isPaid
  }

  function TotalAmount(b: Booking): real { b.totalAmount }

  function ServicePrice(b: Booking): real { b.servicePrice }

  /** `Sum('total_amount')` over the earning bookings: `None` when there are none. */
  function AggregateRevenue(bs: seq<Booking>): (r: Option<real>)
    ensures r.None? <==> forall i :: 0 <= i < |bs| ==> !Earning(bs[i])
  {
    var earning := Filter(bs, Earning);
    if earning == [] then
      assert forall i :: 0 <= i < |bs| ==> bs[i] in bs;
      None
    else
      assert earning[0] in bs;
      Some(SumOf(earning, TotalAmount))
  }

  /** Revenue: the total amounts of the earning bookings added up. */
  function Revenue(bs: seq<Booking>): real {
    SumOf(Filter(bs, Earning), TotalAmount)
  }

  /** The aggregate, with its missing total read as 0, is the revenue. */
  lemma AggregateIsRevenue(bs: seq<Booking>)
    ensures AggregateRevenue(bs).GetOr(0.0) == Revenue(bs)
  {
  }

  predicate Settled(b: Booking) { b.status == Confirmed || b.status == Completed }

  predicate PaidFlag(b: Booking) { b.isPaid }

  /** Keeping the paid ones among the confirmed and completed keeps the earning ones. */
  lemma {:induction false} EarningInTwoSteps(s: seq<Booking>)
    ensures Filter(Filter(s, Settled), PaidFlag) == Filter(s, Earning)
    decreases |s|
  {
    if s != [] {
      EarningInTwoSteps(s[1..]);
    }
  }

  /** One more booking adds its `key` to the paid sum exactly when it is paid. */
  lemma PaidSumStep(prefix: seq<Booking>, b: Booking, key: Booking -> real)
    ensures SumOf(Filter(prefix + [b], PaidFlag), key)
         == SumOf(Filter(prefix, PaidFlag), key) + (if b.isPaid then key(b) else 0.0)
  {
    FilterAppend(prefix, [b], PaidFlag);
    SumOfAppend(Filter(prefix, PaidFlag), Filter([b], PaidFlag), key);
  }

  /**
   * The manual fallback: walk the confirmed and completed bookings and add
   * up `key` for the paid ones (`total_amount or 0`, or the service price).
   */
  method ManualSum(bs: seq<Booking>, key: Booking -> real) returns (total: real)
    ensures total == SumOf(Filter(bs, Earning), key)
  {
    var settled := Filter(bs, Settled);
    total := 0.0;
    var i := 0;
    while i < |settled|
      invariant 0 <= i <= |settled|
      invariant total == SumOf(Filter(settled[..i], PaidFlag), key)
    {
      var b := settled[i];
      assert settled[..i + 1] == settled[..i] + [b];
      PaidSumStep(settled[..i], b, key);
      if b.isPaid {
        total := total + key(b);
      }
      i := i + 1;
    }
    assert settled[..i] == settled;
    EarningInTwoSteps(bs);
  }

  /**
   * The figure `admin_dashboard` shows: the revenue, or, when that is 0,
   * the service prices of the same bookings.
   */
  function DashboardRevenue(bs: seq<Booking>): (r: real)
    ensures Revenue(bs) != 0.0 ==> r == Revenue(bs)
    ensures Revenue(bs) == 0.0 ==> r == SumOf(Filter(bs, Earning), ServicePrice)
  {
    var revenue := Revenue(bs);
    if revenue == 0.0 then SumOf(Filter(bs, Earning), ServicePrice) else revenue
  }

  /** The manual loops compute the figure the aggregates do. */
  method ComputeDashboardRevenue(bs: seq<Booking>) returns (total: real)
    ensures total == DashboardRevenue(bs)
  {
    total := ManualSum(bs, TotalAmount);
    if total == 0.0 {
      var prices := ManualSum(bs, ServicePrice);
      total := total + prices;
    }
  }

  /**
   * With no negative amounts, the revenue is 0 exactly when no earning
   * booking has a positive total, so the price fallback applies then and only then.
   */
  lemma {:induction false} ZeroRevenueIffNoPositiveTotal(bs: seq<Booking>)
    requires forall i :: 0 <= i < |bs| ==> bs[i].totalAmount >= 0.0
    ensures Revenue(bs) == 0.0 <==> forall i :: 0 <= i < |bs| && Earning(bs[i]) ==> bs[i].totalAmount == 0.0
    decreases |bs|
  {
    if bs != [] {
      ZeroRevenueIffNoPositiveTotal(bs[1..]);
      assert forall i :: 1 <= i < |bs| ==> bs[i] == bs[1..][i - 1];
      forall x | x in Filter(bs[1..], Earning)
        ensures TotalAmount(x) >= 0.0
      {
        var k :| 0 <= k < |bs[1..]| && bs[1..][k] == x;
      }
      SumOfNonNegative(Filter(bs[1..], Earning), TotalAmount);
    }
  }

  /** Revenue of two lists of bookings together is the sum of their revenues. */
  lemma RevenueAppend(a: seq<Booking>, b: seq<Booking>)
    ensures Revenue(a + b) == Revenue(a) + Revenue(b)
  {
    FilterAppend(a, b, Earning);
    SumOfAppend(Filter(a, Earning), Filter(b, Earning), TotalAmount);
  }

  // ------------------------------------------------------ recent-booking name

  /**
   * The service name shown for a recent booking: the first of the keywords
   * plumbing, electrical, cleaning, repair, installation that occurs in the
   * lower-cased notes picks a fixed label; otherwise the notes themselves
   * (`'Home Service'` when the booking has none).
   */
  function RecentServiceName(notes: Option<string>): (r: string)
    ensures NoKeyword(Lower(notes.GetOr("Home Service"))) ==> r == notes.GetOr("Home Service")
    ensures var t := Lower(notes.GetOr("Home Service"));
      && (Contains(t, "plumbing") ==> r == "Plumbing Service")
      && (!Contains(t, "plumbing") && Contains(t, "electrical") ==> r == "Electrical Service")
      && (!Contains(t, "plumbing") && !Contains(t, "electrical") && Contains(t, "cleaning") ==> r == "Cleaning Service")
      && ((!Contains(t, "plumbing") && !Contains(t, "electrical") && !Contains(t, "cleaning")
           && Contains(t, "repair")) ==> r == "Repair Service")
      && ((!Contains(t, "plumbing") && !Contains(t, "electrical") && !Contains(t, "cleaning")
           && !Contains(t, "repair") && Contains(t, "installation")) ==> r == "Installation Service")
    ensures r == notes.GetOr("Home Service") || r in Labels()
  {
    var name := notes.GetOr("Home Service");
    var t := Lower(name);
    if Contains(t, "plumbing") then "Plumbing Service"
    else if Contains(t, "electrical") then "Electrical Service"
    else if Contains(t, "cleaning") then "Cleaning Service"
    else if Contains(t, "repair") then "Repair Service"
    else if Contains(t, "installation") then "Installation Service"
    else name
  }

  predicate NoKeyword(t: string) {
    !Contains(t, "plumbing") && !Contains(t, "electrical") && !Contains(t, "cleaning")
    && !Contains(t, "repair") && !Contains(t, "installation")
  }

  function Labels(): seq<string> {
    ["Plumbing Service", "Electrical Service", "Cleaning Service", "Repair Service", "Installation Service"]
  }

  // Helpers of RecentServiceNameIdempotent, down to InstallationLabelFixed:
  // which keywords occur in each of the five fixed labels. They state facts
  // about constant strings only, and are split one fact per lemma to keep
  // each proof small.

  /** A keyword at the very start of a name is found there. */
  lemma FoundAtStart(t: string, k: string)
    requires |k| <= |t| && t[..|k|] == k
    ensures Contains(t, k)
  {
    assert t[0..] == t;
  }

  /** Which keywords occur in `plumbing service`. */
  lemma PlumbingKeywords(t: string)
    requires t == "plumbing service"
    ensures Contains(t, "plumbing")
  {
    assert t[..8] == "plumbing";
    FoundAtStart(t, "plumbing");
  }

  /**
   * Each fixed label is mapped to itself: its own keyword is at its start
   * and none of the keywords before it occurs in it.
   */
  lemma PlumbingLabelFixed()
    ensures RecentServiceName(Some("Plumbing Service")) == "Plumbing Service"
  {
    var t := Lower("Plumbing Service");
    assert t == "plumbing service";
    PlumbingKeywords(t);
  }

  /** Which keywords occur in `electrical service`. */
  lemma ElectricalKeywords(t: string)
    requires t == "electrical service"
    ensures !Contains(t, "plumbing") && Contains(t, "electrical")
  {
    assert !Contains(t, "plumbing") by { NotContainedWithoutChar(t, "plumbing", 0); }
    assert t[..10] == "electrical";
    FoundAtStart(t, "electrical");
  }

  lemma ElectricalLabelFixed()
    ensures RecentServiceName(Some("Electrical Service")) == "Electrical Service"
  {
    var t := Lower("Electrical Service");
    assert t == "electrical service";
    ElectricalKeywords(t);
  }

  lemma CleaningLacksPlumbing(t: string)
    requires t == "cleaning service"
    ensures !Contains(t, "plumbing")
  {
    NotContainedWithoutChar(t, "plumbing", 0);
  }

  lemma CleaningLacksElectrical(t: string)
    requires t == "cleaning service"
    ensures !Contains(t, "electrical")
  {
    NotContainedWithoutChar(t, "electrical", 4);
  }

  lemma CleaningHasCleaning(t: string)
    requires t == "cleaning service"
    ensures Contains(t, "cleaning")
  {
    assert t[..8] == "cleaning";
    FoundAtStart(t, "cleaning");
  }

  /** Which keywords occur in `cleaning service`. */
  lemma CleaningKeywords(t: string)
    requires t == "cleaning service"
    ensures !Contains(t, "plumbing") && !Contains(t, "electrical") && Contains(t, "cleaning")
  {
    CleaningLacksPlumbing(t);
    CleaningLacksElectrical(t);
    CleaningHasCleaning(t);
  }

  lemma CleaningLabelFixed()
    ensures RecentServiceName(Some("Cleaning Service")) == "Cleaning Service"
  {
    var t := Lower("Cleaning Service");
    assert t == "cleaning service";
    CleaningKeywords(t);
  }

  lemma RepairLacksEarlier(t: string)
    requires t == "repair service"
    ensures !Contains(t, "plumbing") && !Contains(t, "electrical") && !Contains(t, "cleaning")
  {
    NotContainedWithoutChar(t, "plumbing", 1);
    NotContainedWithoutChar(t, "electrical", 1);
    NotContainedWithoutChar(t, "cleaning", 1);
  }

  lemma RepairHasRepair(t: string)
    requires t == "repair service"
    ensures Contains(t, "repair")
  {
    assert t[..6] == "repair";
    FoundAtStart(t, "repair");
  }

  /** Which keywords occur in `repair service`. */
  lemma RepairKeywords(t: string)
    requires t == "repair service"
    ensures !Contains(t, "plumbing") && !Contains(t, "electrical") && !Contains(t, "cleaning") && Contains(t, "repair")
  {
    RepairLacksEarlier(t);
    RepairHasRepair(t);
  }

  lemma RepairLabelFixed()
    ensures RecentServiceName(Some("Repair Service")) == "Repair Service"
  {
    var t := Lower("Repair Service");
    assert t == "repair service";
    RepairKeywords(t);
  }

  lemma InstallationLacksPlumbing(t: string)
    requires t == "installation service"
    ensures !Contains(t, "plumbing")
  {
    NotContainedWithoutChar(t, "plumbing", 0);
  }

  lemma InstallationLacksCleaning(t: string)
    requires t == "installation service"
    ensures !Contains(t, "cleaning")
  {
    NotContainedWithoutChar(t, "cleaning", 7);
  }

  lemma InstallationLacksRepair(t: string)
    requires t == "installation service"
    ensures !Contains(t, "repair")
  {
    NotContainedWithoutChar(t, "repair", 2);
  }

  lemma InstallationLacksElectrical(t: string)
    requires t == "installation service"
    ensures !Contains(t, "electrical")
  {
    NoOccurrenceBefore(t, "electrical", 3, 11);
  }

  lemma InstallationHasInstallation(t: string)
    requires t == "installation service"
    ensures Contains(t, "installation")
  {
    assert t[..12] == "installation";
    FoundAtStart(t, "installation");
  }

  /** Which keywords occur in `installation service`. */
  lemma InstallationKeywords(t: string)
    requires t == "installation service"
    ensures !Contains(t, "plumbing") && !Contains(t, "cleaning") && !Contains(t, "repair") && !Contains(t, "electrical") && Contains(t, "installation")
  {
    InstallationLacksPlumbing(t);
    InstallationLacksCleaning(t);
    InstallationLacksRepair(t);
    InstallationLacksElectrical(t);
    InstallationHasInstallation(t);
  }

  lemma InstallationLabelFixed()
    ensures RecentServiceName(Some("Installation Service")) == "Installation Service"
  {
    var t := Lower("Installation Service");
    assert t == "installation service";
    InstallationKeywords(t);
  }

  /** Mapping a name that was already mapped changes nothing. */
  lemma RecentServiceNameIdempotent(notes: Option<string>)
    ensures RecentServiceName(Some(RecentServiceName(notes))) == RecentServiceName(notes)
  {
    var r := RecentServiceName(notes);
    if r == "Plumbing Service" {
      PlumbingLabelFixed();
    } else if r == "Electrical Service" {
      ElectricalLabelFixed();
    } else if r == "Cleaning Service" {
      CleaningLabelFixed();
    } else if r == "Repair Service" {
      RepairLabelFixed();
    } else if r == "Installation Service" {
      InstallationLabelFixed();
    }
  }
}
