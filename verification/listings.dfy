/** The professional-search screen: the fixed listing records and the
    filter/sort pipeline that derives the displayed list from them and from
    the screen's query state. The pipeline copies the records and applies
    up to five `filter` calls, each only when its control is switched on,
    then at most one stable sort. */
module Listings {
  import opened Options
  import opened Text
  import opened Subsequences
  import opened StableSort

  /** One professional. The source writes ratings and distances as decimal
      numbers with one fractional digit; here they are whole tenths
      (a rating of 4.8 is 48). */
  datatype Listing = Listing(
    name: string,
    role: string,
    price: int,
    ratingTenths: int,
    reviews: nat,
    nextDay: string,
    nextTime: string,
    distanceTenths: int,
    serviceCategory: string)

  const ArthurMiller := Listing("Arthur Miller", "Master Electrician", 65, 49, 86, "Tomorrow", "9 AM", 8, "electrician")
  const SarahJenkins := Listing("Sarah Jenkins", "Senior Interior Designer", 85, 50, 120, "Monday", "11 AM", 15, "developer")
  const DavidChen := Listing("David Chen", "Math & Physics Tutor", 45, 48, 54, "Today", "4 PM", 22, "tutor")
  const MarcusThorne := Listing("Marcus Thorne", "Licensed Plumber", 70, 47, 102, "Tomorrow", "10 AM", 35, "plumber")

  /** The screen's records, in declaration order. */
  const Catalogue: seq<Listing> := [ArthurMiller, SarahJenkins, DavidChen, MarcusThorne]

  /** The screen's query state: the search box, the three toggle buttons,
      the sort selector's value, and the optional `serviceName` route
      parameter. */
  datatype Query = Query(
    search: string,
    todayOnly: bool,
    topRated: bool,
    under60: bool,
    sortBy: string,
    serviceName: Option<string>)

  /** The state the screen starts in when the route carries no category. */
  const InitialQuery := Query("", false, false, false, "relevance", None)

  const TodayLabel := "Today"
  const TopRatedThreshold := 48
  const PriceCeiling := 60

  /** The search text occurs, ignoring case, in the name or in the role. */
  predicate MatchesSearch(l: Listing, text: string) {
    Includes(Lower(l.name), Lower(text)) || Includes(Lower(l.role), Lower(text))
  }

  predicate SameCategory(l: Listing, category: string) {
    Lower(l.serviceCategory) == Lower(category)
  }

  /** JavaScript treats both a missing route parameter and the empty string
      as false, so only a non-empty `serviceName` constrains the list. */
  predicate HasCategory(q: Query) {
    q.serviceName.Some? && q.serviceName.value != ""
  }

  /** Every condition the query switches on holds of `l`: the reference
      meaning of the filter controls, stated without the pipeline. */
  predicate Admits(q: Query, l: Listing) {
    && (q.search != "" ==> MatchesSearch(l, q.search))
    && (q.todayOnly ==> l.nextDay == TodayLabel)
    && (HasCategory(q) ==> SameCategory(l, q.serviceName.value))
    && (q.topRated ==> l.ratingTenths >= TopRatedThreshold)
    && (q.under60 ==> l.price < PriceCeiling)
  }

  /** The listings of `data` that `q` admits, in their order in `data`. */
  function Selection(q: Query, data: seq<Listing>): (r: seq<Listing>)
    ensures IsSubsequence(r, data)
    ensures forall x :: x in r <==> x in data && Admits(q, x)
  {
    if data == [] then []
    else
      var rest := Selection(q, data[1..]);
      if Admits(q, data[0]) then
        assert ([data[0]] + rest)[1..] == rest;
        [data[0]] + rest
      else
        rest
  }

  /** The selection holds each admitted listing as often as `data` does,
      and no other listing. */
  lemma {:induction false} SelectionKeepsCounts(q: Query, data: seq<Listing>)
    ensures forall x :: multiset(Selection(q, data))[x] == if Admits(q, x) then multiset(data)[x] else 0
    decreases |data|
  {
    if data != [] {
      SelectionKeepsCounts(q, data[1..]);
      assert data == [data[0]] + data[1..];
    }
  }

  // ---------------------------------------------------------------------
  // The pipeline as the source stages it

  /** One `filter` call of the pipeline. */
  datatype Filter =
    | SearchText(text: string)
    | AvailableToday
    | InCategory(category: string)
    | TopRated
    | UnderPrice

  predicate Passes(l: Listing, f: Filter) {
    match f
    case SearchText(text) => MatchesSearch(l, text)
    case AvailableToday => l.nextDay == TodayLabel
    case InCategory(c) => SameCategory(l, c)
    case TopRated => l.ratingTenths >= TopRatedThreshold
    case UnderPrice => l.price < PriceCeiling
  }

  /** The filters applied for `q`, in the order the source applies them:
      search, today, category, top rated, under $60. */
  function ActiveFilters(q: Query): seq<Filter> {
    (if q.search != "" then [SearchText(q.search)] else [])
    + (if q.todayOnly then [AvailableToday] else [])
    + (if HasCategory(q) then [InCategory(q.serviceName.value)] else [])
    + (if q.topRated then [TopRated] else [])
    + (if q.under60 then [UnderPrice] else [])
  }

  /** `Array.prototype.filter`: the elements that pass, in order. */
  function Narrow(s: seq<Listing>, f: Filter): (r: seq<Listing>)
    ensures IsSubsequence(r, s)
    ensures forall x :: x in r <==> x in s && Passes(x, f)
  {
    if s == [] then []
    else
      var rest := Narrow(s[1..], f);
      if Passes(s[0], f) then
        assert ([s[0]] + rest)[1..] == rest;
        [s[0]] + rest
      else
        rest
  }

  /** `filter` keeps every occurrence of a passing element and none of a
      failing one; with the subsequence property this fixes the result. */
  lemma {:induction false} NarrowKeepsCounts(s: seq<Listing>, f: Filter)
    ensures forall x :: multiset(Narrow(s, f))[x] == if Passes(x, f) then multiset(s)[x] else 0
    decreases |s|
  {
    if s != [] {
      NarrowKeepsCounts(s[1..], f);
      assert s == [s[0]] + s[1..];
    }
  }

  /** The filters applied one after another. */
  function Pipeline(s: seq<Listing>, fs: seq<Filter>): seq<Listing>
    decreases |fs|
  {
    if fs == [] then s else Pipeline(Narrow(s, fs[0]), fs[1..])
  }

  predicate PassesAll(l: Listing, fs: seq<Filter>) {
    forall i :: 0 <= i < |fs| ==> Passes(l, fs[i])
  }

  /** A single pass keeping the elements that pass every filter. */
  function Admitted(s: seq<Listing>, fs: seq<Filter>): seq<Listing> {
    if s == [] then []
    else (if PassesAll(s[0], fs) then [s[0]] else []) + Admitted(s[1..], fs)
  }

  /** The comparator `b.rating - a.rating` orders by this key ascending,
      that is by rating descending. */
  function RatingKey(l: Listing): int { -l.ratingTenths }

  /** The comparator `a.price - b.price` orders by this key ascending. */
  function PriceKey(l: Listing): int { l.price }

  /** The two sort steps of the source: a stable sort by rating when the
      selector says "rating", then one by price when it says "price". */
  function Ranked(sortBy: string, s: seq<Listing>): seq<Listing> {
    var byRating := if sortBy == "rating" then Sort(s, RatingKey) else s;
    if sortBy == "price" then Sort(byRating, PriceKey) else byRating
  }

  /** The displayed list for query `q` over the records `data`. */
  function View(q: Query, data: seq<Listing>): (r: seq<Listing>)
    ensures |r| <= |data|
    ensures forall x :: x in r <==> x in data && Admits(q, x)
  {
    var filtered := Pipeline(data, ActiveFilters(q));
    FiltersAreConjunctive(q, data);
    SubsequenceNotLonger(filtered, data);
    RankedKeepsMembers(q.sortBy, filtered);
    Ranked(q.sortBy, filtered)
  }

  // ---------------------------------------------------------------------
  // The staged filters are one conjunction

  lemma PassesAllCons(l: Listing, f: Filter, fs: seq<Filter>)
    ensures PassesAll(l, [f] + fs) <==> Passes(l, f) && PassesAll(l, fs)
  {
    if Passes(l, f) && PassesAll(l, fs) {
      forall i | 0 <= i < |[f] + fs|
        ensures Passes(l, ([f] + fs)[i])
      {
        if i > 0 {
          assert ([f] + fs)[i] == fs[i - 1];
        }
      }
    }
    if PassesAll(l, [f] + fs) {
      assert ([f] + fs)[0] == f;
      forall i | 0 <= i < |fs|
        ensures Passes(l, fs[i])
      {
        assert ([f] + fs)[i + 1] == fs[i];
      }
    }
  }

  lemma PassesAllAppend(l: Listing, a: seq<Filter>, b: seq<Filter>)
    ensures PassesAll(l, a + b) <==> PassesAll(l, a) && PassesAll(l, b)
  {
    if PassesAll(l, a) && PassesAll(l, b) {
      forall i | 0 <= i < |a + b|
        ensures Passes(l, (a + b)[i])
      {
        if i >= |a| {
          assert (a + b)[i] == b[i - |a|];
        }
      }
    }
    if PassesAll(l, a + b) {
      forall i | 0 <= i < |a|
        ensures Passes(l, a[i])
      {
        assert (a + b)[i] == a[i];
      }
      forall i | 0 <= i < |b|
        ensures Passes(l, b[i])
      {
        assert (a + b)[|a| + i] == b[i];
      }
    }
  }

  lemma PassesAllSingle(l: Listing, f: Filter)
    ensures PassesAll(l, [f]) <==> Passes(l, f)
  {
    assert [f][0] == f;
  }

  /** A listing passes every active filter exactly when the query admits it. */
  lemma ActiveFiltersMeanAdmits(q: Query, l: Listing)
    ensures PassesAll(l, ActiveFilters(q)) <==> Admits(q, l)
  {
    var f1 := if q.search != "" then [SearchText(q.search)] else [];
    var f2 := if q.todayOnly then [AvailableToday] else [];
    var f3 := if HasCategory(q) then [InCategory(q.serviceName.value)] else [];
    var f4 := if q.topRated then [TopRated] else [];
    var f5 := if q.under60 then [UnderPrice] else [];
    assert ActiveFilters(q) == f1 + f2 + f3 + f4 + f5;
    PassesAllSingle(l, SearchText(q.search));
    PassesAllSingle(l, AvailableToday);
    if HasCategory(q) {
      PassesAllSingle(l, InCategory(q.serviceName.value));
    }
    PassesAllSingle(l, TopRated);
    PassesAllSingle(l, UnderPrice);
    PassesAllAppend(l, f1 + f2 + f3 + f4, f5);
    PassesAllAppend(l, f1 + f2 + f3, f4);
    PassesAllAppend(l, f1 + f2, f3);
    PassesAllAppend(l, f1, f2);
  }

  /** Filtering by `f` first and then by `fs` in one pass is one pass with `f` in front. */
  lemma {:induction false} AdmittedAfterNarrow(s: seq<Listing>, f: Filter, fs: seq<Filter>)
    ensures Admitted(Narrow(s, f), fs) == Admitted(s, [f] + fs)
    decreases |s|
  {
    if s != [] {
      AdmittedAfterNarrow(s[1..], f, fs);
      PassesAllCons(s[0], f, fs);
      var tail := Narrow(s[1..], f);
      if Passes(s[0], f) {
        assert Narrow(s, f) == [s[0]] + tail;
        assert ([s[0]] + tail)[1..] == tail;
      } else {
        assert Narrow(s, f) == tail;
      }
    }
  }

  /** Applying the filters one after another keeps exactly the elements
      that pass all of them, in their original order. */
  lemma {:induction false} PipelineIsOnePass(s: seq<Listing>, fs: seq<Filter>)
    ensures Pipeline(s, fs) == Admitted(s, fs)
    decreases |fs|
  {
    if fs == [] {
      AdmittedNothing(s);
    } else {
      PipelineIsOnePass(Narrow(s, fs[0]), fs[1..]);
      AdmittedAfterNarrow(s, fs[0], fs[1..]);
      assert [fs[0]] + fs[1..] == fs;
    }
  }

  lemma {:induction false} AdmittedNothing(s: seq<Listing>)
    ensures Admitted(s, []) == s
    decreases |s|
  {
    if s != [] {
      AdmittedNothing(s[1..]);
      assert [s[0]] + s[1..] == s;
    }
  }

  lemma {:induction false} AdmittedIsSelection(q: Query, s: seq<Listing>)
    ensures Admitted(s, ActiveFilters(q)) == Selection(q, s)
    decreases |s|
  {
    if s != [] {
      AdmittedIsSelection(q, s[1..]);
      ActiveFiltersMeanAdmits(q, s[0]);
    }
  }

  /** The source's chain of filters computes the reference selection:
      a listing survives iff it satisfies every active condition, and the
      survivors keep their relative order. */
  lemma FiltersAreConjunctive(q: Query, data: seq<Listing>)
    ensures Pipeline(data, ActiveFilters(q)) == Selection(q, data)
    ensures IsSubsequence(Pipeline(data, ActiveFilters(q)), data)
  {
    PipelineIsOnePass(data, ActiveFilters(q));
    AdmittedIsSelection(q, data);
  }

  // ---------------------------------------------------------------------
  // Ordering

  lemma RankedIsPermutation(sortBy: string, s: seq<Listing>)
    ensures multiset(Ranked(sortBy, s)) == multiset(s)
    ensures |Ranked(sortBy, s)| == |s|
  {
  }

  lemma RankedKeepsMembers(sortBy: string, s: seq<Listing>)
    ensures |Ranked(sortBy, s)| == |s|
    ensures forall x :: x in Ranked(sortBy, s) <==> x in s
  {
    RankedIsPermutation(sortBy, s);
    var r := Ranked(sortBy, s);
    forall x
      ensures x in r <==> x in s
    {
      assert x in r <==> x in multiset(r);
      assert x in s <==> x in multiset(s);
    }
  }

  /** The displayed list is a rearrangement of the reference selection,
      which is an order-preserving selection from `data`. */
  lemma ViewIsRearrangedSelection(q: Query, data: seq<Listing>)
    ensures multiset(View(q, data)) == multiset(Selection(q, data))
    ensures IsSubsequence(Selection(q, data), data)
  {
    FiltersAreConjunctive(q, data);
    RankedIsPermutation(q.sortBy, Pipeline(data, ActiveFilters(q)));
  }

  /** With every filter off and a sort key other than "rating" or "price",
      the screen shows the records exactly as declared. */
  lemma UnfilteredViewIsData(q: Query, data: seq<Listing>)
    requires q.search == "" && !q.todayOnly && !q.topRated && !q.under60 && !HasCategory(q)
    requires q.sortBy != "rating" && q.sortBy != "price"
    ensures View(q, data) == data
  {
    assert ActiveFilters(q) == [];
  }

  /** The screen's starting state shows every record in declaration order. */
  lemma InitialViewIsData(data: seq<Listing>)
    ensures View(InitialQuery, data) == data
  {
    UnfilteredViewIsData(InitialQuery, data);
  }

  /** Any sort key other than "rating" or "price" keeps the filtered
      listings in the order of `data`. */
  lemma OtherSortKeepsOrder(q: Query, data: seq<Listing>)
    requires q.sortBy != "rating" && q.sortBy != "price"
    ensures View(q, data) == Selection(q, data)
    ensures IsSubsequence(View(q, data), data)
  {
    FiltersAreConjunctive(q, data);
  }

  /** Sorting by rating: ratings never increase down the list, and
      listings with equal ratings keep their filtered order. */
  lemma {:induction false} RatingSortIsStableDescending(q: Query, data: seq<Listing>)
    requires q.sortBy == "rating"
    ensures forall i, j :: 0 <= i < j < |View(q, data)| ==>
              View(q, data)[i].ratingTenths >= View(q, data)[j].ratingTenths
    ensures forall k :: WithKey(View(q, data), RatingKey, k) == WithKey(Selection(q, data), RatingKey, k)
  {
    var filtered := Pipeline(data, ActiveFilters(q));
    FiltersAreConjunctive(q, data);
    var r := Sort(filtered, RatingKey);
    assert View(q, data) == r;
    forall i, j | 0 <= i < j < |r|
      ensures r[i].ratingTenths >= r[j].ratingTenths
    {
      assert RatingKey(r[i]) <= RatingKey(r[j]);
    }
    forall k
      ensures WithKey(r, RatingKey, k) == WithKey(filtered, RatingKey, k)
    {
      SortIsStable(filtered, RatingKey, k);
    }
  }

  /** Sorting by price: prices never decrease down the list, and listings
      with equal prices keep their filtered order. */
  lemma {:induction false} PriceSortIsStableAscending(q: Query, data: seq<Listing>)
    requires q.sortBy == "price"
    ensures forall i, j :: 0 <= i < j < |View(q, data)| ==>
              View(q, data)[i].price <= View(q, data)[j].price
    ensures forall k :: WithKey(View(q, data), PriceKey, k) == WithKey(Selection(q, data), PriceKey, k)
  {
    var filtered := Pipeline(data, ActiveFilters(q));
    FiltersAreConjunctive(q, data);
    var r := Sort(filtered, PriceKey);
    assert View(q, data) == r;
    forall i, j | 0 <= i < j < |r|
      ensures r[i].price <= r[j].price
    {
      assert PriceKey(r[i]) <= PriceKey(r[j]);
    }
    forall k
      ensures WithKey(r, PriceKey, k) == WithKey(filtered, PriceKey, k)
    {
      SortIsStable(filtered, PriceKey, k);
    }
  }

  /** Re-ranking an already ranked list changes nothing, for every sort key. */
  lemma {:induction false} RankingIdempotent(sortBy: string, s: seq<Listing>)
    ensures Ranked(sortBy, Ranked(sortBy, s)) == Ranked(sortBy, s)
  {
    if sortBy == "rating" {
      SortIdempotent(s, RatingKey);
    } else if sortBy == "price" {
      SortIdempotent(s, PriceKey);
    }
  }

  // ---------------------------------------------------------------------
  // The declared records

  /** A category route parameter spelling "plumber" in any case leaves only
      the licensed plumber. */
  lemma PlumberCategoryExample(name: string)
    requires Lower(name) == "plumber"
    ensures View(Query("", false, false, false, "relevance", Some(name)), Catalogue) == [MarcusThorne]
  {
    var q := Query("", false, false, false, "relevance", Some(name));
    PlumberSelection(q);
    OtherSortKeepsOrder(q, Catalogue);
  }

  /** The selection behind the plumber example: only the plumber's
      category lower-cases to "plumber". */
  lemma PlumberSelection(q: Query)
    requires q.search == "" && !q.todayOnly && !q.topRated && !q.under60
    requires q.serviceName.Some? && Lower(q.serviceName.value) == "plumber"
    ensures Selection(q, Catalogue) == [MarcusThorne]
  {
    LowerFixesLowercase("plumber");
    assert |Lower(ArthurMiller.serviceCategory)| == 11;
    assert |Lower(SarahJenkins.serviceCategory)| == 9;
    assert |Lower(DavidChen.serviceCategory)| == 5;
    assert Admits(q, MarcusThorne);
    assert !Admits(q, ArthurMiller) && !Admits(q, SarahJenkins) && !Admits(q, DavidChen);
    assert Selection(q, Catalogue[4..]) == [];
    assert Selection(q, Catalogue[3..]) == [MarcusThorne];
    assert Selection(q, Catalogue[2..]) == [MarcusThorne];
    assert Selection(q, Catalogue[1..]) == [MarcusThorne];
  }

  /** Only the "Under $60" toggle on: exactly the $45 tutor remains. */
  lemma UnderSixtyExample()
    ensures View(Query("", false, false, true, "relevance", None), Catalogue) == [DavidChen]
  {
    var q := Query("", false, false, true, "relevance", None);
    assert Selection(q, Catalogue[4..]) == [];
    assert Selection(q, Catalogue[3..]) == [];
    assert Selection(q, Catalogue[2..]) == [DavidChen];
    assert Selection(q, Catalogue[1..]) == [DavidChen];
    assert Selection(q, Catalogue) == [DavidChen];
    OtherSortKeepsOrder(q, Catalogue);
  }

  /** Only the "Top Rated" toggle on: the three listings rated 4.8 or more,
      in declaration order. */
  lemma TopRatedExample()
    ensures View(Query("", false, true, false, "relevance", None), Catalogue)
            == [ArthurMiller, SarahJenkins, DavidChen]
  {
    var q := Query("", false, true, false, "relevance", None);
    assert Selection(q, Catalogue[4..]) == [];
    assert Selection(q, Catalogue[3..]) == [];
    assert Selection(q, Catalogue[2..]) == [DavidChen];
    assert Selection(q, Catalogue[1..]) == [SarahJenkins, DavidChen];
    assert Selection(q, Catalogue) == [ArthurMiller, SarahJenkins, DavidChen];
    OtherSortKeepsOrder(q, Catalogue);
  }

  /** The rating sort of the three top-rated listings. */
  lemma SortTopRatedByRating()
    ensures Sort([ArthurMiller, SarahJenkins, DavidChen], RatingKey) == [SarahJenkins, ArthurMiller, DavidChen]
  {
    var sd := [SarahJenkins, DavidChen];
    assert sd[1..] == [DavidChen];
    assert Sort([DavidChen], RatingKey) == [DavidChen];
    assert Sort(sd, RatingKey) == sd;
    assert Insert(ArthurMiller, [DavidChen], RatingKey) == [ArthurMiller, DavidChen];
    assert Insert(ArthurMiller, sd, RatingKey) == [SarahJenkins, ArthurMiller, DavidChen];
    assert [ArthurMiller, SarahJenkins, DavidChen][1..] == sd;
  }

  /** "Top Rated" on and sorted by rating: the 5.0, then the 4.9, then the
      4.8 listing. */
  lemma TopRatedByRatingExample()
    ensures View(Query("", false, true, false, "rating", None), Catalogue)
            == [SarahJenkins, ArthurMiller, DavidChen]
  {
    var q := Query("", false, true, false, "rating", None);
    var plain := q.(sortBy := "relevance");
    assert ActiveFilters(q) == ActiveFilters(plain);
    TopRatedExample();
    assert Pipeline(Catalogue, ActiveFilters(plain)) == [ArthurMiller, SarahJenkins, DavidChen];
    SortTopRatedByRating();
  }
}
