/**
 * The service catalogue page: text, category and price filters followed by
 * a sort on a key; the detail page's lookup and its related services.
 */
module Catalogue {
  import opened Wrappers
  import opened Strings
  import opened Seqs
  import opened Sorting

  /** A catalogue entry. */
  datatype Service = Service(id: int, name: string, description: string, categorySlug: string,
                             price: real, averageRating: real)

  /** `query.lower() in name.lower() or query.lower() in description.lower()` */
  predicate MatchesQuery(s: Service, query: string) {
    Contains(Lower(s.name), Lower(query)) || Contains(Lower(s.description), Lower(query))
  }

  /** The search filter; an empty query keeps everything. */
  function Search(ss: seq<Service>, query: string): (r: seq<Service>)
    ensures query == "" ==> r == ss
    ensures forall x :: x in r <==> x in ss && (query == "" || MatchesQuery(x, query))
    ensures IsSubsequence(r, ss)
  {
    if query == "" then
      SubsequenceReflexive(ss);
      ss
    else
      FilterIsSubsequence(ss, (x: Service) => MatchesQuery(x, query));
      Filter(ss, (x: Service) => MatchesQuery(x, query))
  }

  /** `request.GET.get('category', '') or category_slug`: the parameter, else the slug in the URL. */
  function CategoryChoice(param: string, slug: Option<string>): (r: string)
    ensures param != "" ==> r == param
    ensures param == "" ==> r == slug.GetOr("")
  {
    if param != "" then param else slug.GetOr("")
  }

  /** Keeps the services of the category; no category keeps everything. */
  function InCategory(ss: seq<Service>, category: string): (r: seq<Service>)
    ensures category == "" ==> r == ss
    ensures forall x :: x in r <==> x in ss && (category == "" || x.categorySlug == category)
    ensures IsSubsequence(r, ss)
  {
    if category == "" then
      SubsequenceReflexive(ss);
      ss
    else
      FilterIsSubsequence(ss, (x: Service) => x.categorySlug == category);
      Filter(ss, (x: Service) => x.categorySlug == category)
  }

  /** A price bound as the request gives it: absent (empty), not a number, or a number. */
  datatype PriceParam = Absent | Malformed | Parsed(bound: real)

  /** The lower price bound, inclusive; an absent or malformed bound is ignored. */
  function AtLeast(ss: seq<Service>, p: PriceParam): (r: seq<Service>)
    ensures !p.Parsed? ==> r == ss
    ensures forall x :: x in r <==> x in ss && (p.Parsed? ==> x.price >= p.bound)
    ensures IsSubsequence(r, ss)
  {
    match p
    case Parsed(lo) =>
      FilterIsSubsequence(ss, (x: Service) => x.price >= lo);
      Filter(ss, (x: Service) => x.price >= lo)
    case _ =>
      SubsequenceReflexive(ss);
      ss
  }

  /** The upper price bound, inclusive; an absent or malformed bound is ignored. */
  function AtMost(ss: seq<Service>, p: PriceParam): (r: seq<Service>)
    ensures !p.Parsed? ==> r == ss
    ensures forall x :: x in r <==> x in ss && (p.Parsed? ==> x.price <= p.bound)
    ensures IsSubsequence(r, ss)
  {
    match p
    case Parsed(hi) =>
      FilterIsSubsequence(ss, (x: Service) => x.price <= hi);
      Filter(ss, (x: Service) => x.price <= hi)
    case _ =>
      SubsequenceReflexive(ss);
      ss
  }

  /** The request's filters. */
  datatype Query = Query(text: string, category: string, minPrice: PriceParam, maxPrice: PriceParam, sortBy: string)

  /** A service passes every filter of the request. */
  predicate Admitted(x: Service, q: Query) {
    && (q.text == "" || MatchesQuery(x, q.text))
    && (q.category == "" || x.categorySlug == q.category)
    && (q.minPrice.Parsed? ==> x.price >= q.minPrice.bound)
    && (q.maxPrice.Parsed? ==> x.price <= q.maxPrice.bound)
  }

  /** The four filters in the order the view applies them. */
  function Filtered(ss: seq<Service>, q: Query): seq<Service> {
    AtMost(AtLeast(InCategory(Search(ss, q.text), q.category), q.minPrice), q.maxPrice)
  }

  /** The filters only remove services: the result keeps the catalogue's order and holds exactly the admitted ones. */
  lemma FilteredShape(ss: seq<Service>, q: Query)
    ensures IsSubsequence(Filtered(ss, q), ss)
    ensures forall x :: x in Filtered(ss, q) <==> x in ss && Admitted(x, q)
  {
    var a := Search(ss, q.text);
    var b := InCategory(a, q.category);
    var c := AtLeast(b, q.minPrice);
    SubsequenceTransitive(b, a, ss);
    SubsequenceTransitive(c, b, ss);
    SubsequenceTransitive(Filtered(ss, q), c, ss);
  }

  /** Sort keys. */
  function Price(s: Service): real { s.price }
  function Rating(s: Service): real { s.averageRating }

  /**
   * The catalogue page: the filtered services, sorted in place by price
   * ascending, price descending or rating descending; any other `sort_by`
   * keeps the filtered order.
   */
  method ListServices(ss: seq<Service>, q: Query) returns (r: seq<Service>)
    ensures multiset(r) == multiset(Filtered(ss, q))
    ensures q.sortBy == "price_asc" ==> SortedBy(r, Price, false)
    ensures q.sortBy == "price_desc" ==> SortedBy(r, Price, true)
    ensures q.sortBy == "rating" ==> SortedBy(r, Rating, true)
    ensures q.sortBy !in {"price_asc", "price_desc", "rating"} ==> r == Filtered(ss, q)
  {
    var items := Filtered(ss, q);
    var a := new Service[|items|](i requires 0 <= i < |items| => items[i]);
    assert a[..] == items;
    if q.sortBy == "price_asc" {
      SortByKey(a, Price, false);
    } else if q.sortBy == "price_desc" {
      SortByKey(a, Price, true);
    } else if q.sortBy == "rating" {
      SortByKey(a, Rating, true);
    }
    r := a[..];
  }

  /** The detail page's search loop: the first service with the id, if any. */
  method FindService(ss: seq<Service>, id: int) returns (r: Option<Service>)
    ensures r.Some? ==> exists k :: 0 <= k < |ss| && ss[k] == r.value && r.value.id == id &&
                                     forall j :: 0 <= j < k ==> ss[j].id != id
    ensures r.None? <==> forall k :: 0 <= k < |ss| ==> ss[k].id != id
  {
    r := None;
    var k := 0;
    while k < |ss|
      invariant 0 <= k <= |ss|
      invariant forall j :: 0 <= j < k ==> ss[j].id != id
    {
      if ss[k].id == id {
        r := Some(ss[k]);
        return;
      }
      k := k + 1;
    }
  }

  /** The other services of the same category, in catalogue order. */
  function Siblings(ss: seq<Service>, service: Service): (r: seq<Service>)
    ensures IsSubsequence(r, ss)
    ensures forall x :: x in r <==> x in ss && x.categorySlug == service.categorySlug && x.id != service.id
    decreases |ss|
  {
    if ss == [] then []
    else if ss[0].categorySlug == service.categorySlug && ss[0].id != service.id then [ss[0]] + Siblings(ss[1..], service)
    else Siblings(ss[1..], service)
  }

  /** `[s for s in services if same category and s['id'] != id][:3]`: the first three siblings, or all when there are fewer. */
  function Related(ss: seq<Service>, service: Service): (r: seq<Service>)
    ensures |r| == if |Siblings(ss, service)| < 3 then |Siblings(ss, service)| else 3
    ensures r == Siblings(ss, service)[..|r|]
    ensures IsSubsequence(r, ss)
    ensures forall x :: x in r ==> x in ss && x.categorySlug == service.categorySlug && x.id != service.id
    ensures service !in r
  {
    var m := Siblings(ss, service);
    if |m| <= 3 then
      assert m[..|m|] == m;
      m
    else
      PrefixIsSubsequence(m, 3);
      SubsequenceTransitive(m[..3], m, ss);
      m[..3]
  }

  lemma {:induction false} PrefixIsSubsequence<T>(s: seq<T>, n: nat)
    requires n <= |s|
    ensures IsSubsequence(s[..n], s)
    decreases |s|
  {
    if s != [] {
      if n == 0 {
        PrefixIsSubsequence(s[1..], 0);
        assert s[..0] == s[1..][..0];
      } else {
        PrefixIsSubsequence(s[1..], n - 1);
        assert s[..n][1..] == s[1..][..n - 1];
      }
    }
  }
}
