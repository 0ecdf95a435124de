/** The catalog page (`src/pages/Properties.tsx`): the facet filter over the
    raw listing records, the list of property types offered by the filter
    panel, and the nine-per-page pagination with its current page. */
module Catalog {
  import opened JsValue
  import Inmovilla

  const ItemsPerPage: nat := 9

  /** The page's filter state. `propertyType` is the source's `type`. */
  datatype CatalogFilters = CatalogFilters(
    search: string,
    operation: string,
    propertyType: string,
    minPrice: int,
    maxPrice: int,
    beds: string,
    baths: string,
    ref: string,
    minSurface: string,
    maxSurface: string,
    pool: bool,
    parking: bool,
    terrace: bool,
    seaViews: bool)

  const InitialFilters: CatalogFilters :=
    CatalogFilters("", "all", "all", 0, 50000000, "all", "all", "", "", "", false, false, false, false)

  // ---------------------------------------------------------------------
  // Facets

  /** `Number(a) >= Number(b)`, which is false when either side is NaN. */
  predicate NumAtLeast(a: Option<int>, b: Option<int>) {
    a.Some? && b.Some? && a.value >= b.value
  }

  /** The text searched by the free-text box: town, city and reference
      interpolated into one string. */
  function SearchText(p: Value): string {
    ToJsString(Get(p, "poblacion")) + " " + ToJsString(Get(p, "ciudad")) + " " + ToJsString(Get(p, "ref"))
  }

  predicate MatchSearch(f: CatalogFilters, p: Value) {
    f.search == "" || Contains(Lower(SearchText(p)), Lower(f.search))
  }

  /** `keyacci?.toString() === operation`. */
  predicate MatchOperation(f: CatalogFilters, p: Value) {
    f.operation == "all" || (!IsNullish(Get(p, "keyacci")) && ToJsString(Get(p, "keyacci")) == f.operation)
  }

  predicate MatchType(f: CatalogFilters, p: Value) {
    f.propertyType == "all" || Get(p, "tipoinmo") == Str(f.propertyType)
  }

  predicate MatchBeds(f: CatalogFilters, p: Value) {
    f.beds == "all" || NumAtLeast(ToNumber(Get(p, "dormitorios")), ToNumber(Str(f.beds)))
  }

  /** `ref?.toLowerCase().includes(...)`: a missing reference never matches. */
  predicate MatchRef(f: CatalogFilters, p: Value) {
    f.ref == "" || (Get(p, "ref").Str? && Contains(Lower(Get(p, "ref").s), Lower(f.ref)))
  }

  predicate MatchMinSurface(f: CatalogFilters, p: Value) {
    f.minSurface == "" || NumAtLeast(ToNumber(Get(p, "supconst")), ToNumber(Str(f.minSurface)))
  }

  predicate MatchMaxSurface(f: CatalogFilters, p: Value) {
    f.maxSurface == "" || NumAtLeast(ToNumber(Str(f.maxSurface)), ToNumber(Get(p, "supconst")))
  }

  predicate MatchFlags(f: CatalogFilters, p: Value) {
    (!f.pool || Get(p, "piscina") == Str("S"))
    && (!f.parking || Get(p, "parking") == Str("S"))
    && (!f.seaViews || Get(p, "vistasmar") == Str("S"))
  }

  /** The price a record is filtered on: the rent for a rental, the sale
      price otherwise; `None` is NaN. */
  function ListedPrice(p: Value): (price: Option<int>)
    ensures Inmovilla.IsRentalCode(Get(p, "keyacci")) ==> price == ToNumber(Get(p, "precioalq"))
    ensures !Inmovilla.IsRentalCode(Get(p, "keyacci")) ==> price == ToNumber(Get(p, "precioinmo"))
  {
    if Inmovilla.IsRentalCode(Get(p, "keyacci")) then ToNumber(Get(p, "precioalq"))
    else ToNumber(Get(p, "precioinmo"))
  }

  /** An unreadable price never excludes a record. */
  predicate MatchPrice(f: CatalogFilters, p: Value) {
    ListedPrice(p).None? || ListedPrice(p).value <= f.maxPrice
  }

  /** The conjunction of all facets; `baths`, `terrace` and `minPrice` take
      no part in it. */
  predicate Matches(f: CatalogFilters, p: Value) {
    MatchSearch(f, p) && MatchOperation(f, p) && MatchType(f, p) && MatchBeds(f, p)
    && MatchRef(f, p) && MatchMinSurface(f, p) && MatchMaxSurface(f, p)
    && MatchFlags(f, p) && MatchPrice(f, p)
  }

  // ---------------------------------------------------------------------
  // Order-preserving sub-lists

  /** xs is obtained from ys by deleting elements. */
  predicate IsSubsequence(xs: seq<Value>, ys: seq<Value>)
    decreases |ys|
  {
    |xs| == 0
    || (|ys| > 0
        && ((xs[0] == ys[0] && IsSubsequence(xs[1..], ys[1..])) || IsSubsequence(xs, ys[1..])))
  }

  lemma {:induction false} SubsequenceLength(xs: seq<Value>, ys: seq<Value>)
    requires IsSubsequence(xs, ys)
    ensures |xs| <= |ys|
    decreases |ys|
  {
    if |xs| > 0 {
      if xs[0] == ys[0] && IsSubsequence(xs[1..], ys[1..]) {
        SubsequenceLength(xs[1..], ys[1..]);
      } else {
        SubsequenceLength(xs, ys[1..]);
      }
    }
  }

  lemma {:induction false} SubsequenceMembers(xs: seq<Value>, ys: seq<Value>)
    requires IsSubsequence(xs, ys)
    ensures forall v :: v in xs ==> v in ys
    decreases |ys|
  {
    if |xs| > 0 {
      if xs[0] == ys[0] && IsSubsequence(xs[1..], ys[1..]) {
        SubsequenceMembers(xs[1..], ys[1..]);
        assert forall v :: v in xs ==> v == xs[0] || v in xs[1..];
      } else {
        SubsequenceMembers(xs, ys[1..]);
      }
    }
  }

  // ---------------------------------------------------------------------
  // The filter

  /** `properties.filter(...)`. */
  function FilterProperties(ps: seq<Value>, f: CatalogFilters): (r: seq<Value>)
    ensures |r| <= |ps|
    ensures forall v :: v in r <==> v in ps && Matches(f, v)
    ensures forall v :: multiset(r)[v] == if Matches(f, v) then multiset(ps)[v] else 0
  {
    if |ps| == 0 then []
    else
      var rest := FilterProperties(ps[1..], f);
      assert ps == [ps[0]] + ps[1..];
      assert forall v :: v in ps <==> v == ps[0] || v in ps[1..];
      FilterCountStep(ps[0], ps[1..], rest, f);
      if Matches(f, ps[0]) then [ps[0]] + rest else rest
  }

  /** The counts of the filter carry over when one record is put in front. */
  lemma FilterCountStep(p: Value, ps: seq<Value>, r: seq<Value>, f: CatalogFilters)
    requires forall v :: multiset(r)[v] == if Matches(f, v) then multiset(ps)[v] else 0
    ensures var r' := if Matches(f, p) then [p] + r else r;
      forall v :: multiset(r')[v] == if Matches(f, v) then multiset([p] + ps)[v] else 0
  {
  }

  /** The filter keeps the records in their original order. */
  lemma {:induction false} FilterIsSubsequence(ps: seq<Value>, f: CatalogFilters)
    ensures IsSubsequence(FilterProperties(ps, f), ps)
  {
    if |ps| > 0 {
      FilterIsSubsequence(ps[1..], f);
      var r := FilterProperties(ps, f);
      if Matches(f, ps[0]) {
        assert r[1..] == FilterProperties(ps[1..], f);
      }
    }
  }

  /** Every facet of g either equals that of f or f leaves it neutral, and
      g's price ceiling is not above f's: g asks at least as much as f. */
  predicate Tightens(g: CatalogFilters, f: CatalogFilters) {
    (f.search == "" || g.search == f.search)
    && (f.operation == "all" || g.operation == f.operation)
    && (f.propertyType == "all" || g.propertyType == f.propertyType)
    && (f.beds == "all" || g.beds == f.beds)
    && (f.ref == "" || g.ref == f.ref)
    && (f.minSurface == "" || g.minSurface == f.minSurface)
    && (f.maxSurface == "" || g.maxSurface == f.maxSurface)
    && (!f.pool || g.pool) && (!f.parking || g.parking) && (!f.seaViews || g.seaViews)
    && g.maxPrice <= f.maxPrice
  }

  lemma TightenedMatch(g: CatalogFilters, f: CatalogFilters, p: Value)
    requires Tightens(g, f)
    ensures Matches(g, p) ==> Matches(f, p)
  {
  }

  /** Narrowing the filter narrows the result: the records kept under g are
      a sub-list of those kept under f, and never more of them. */
  lemma {:induction false} FilterMonotone(ps: seq<Value>, g: CatalogFilters, f: CatalogFilters)
    requires Tightens(g, f)
    ensures IsSubsequence(FilterProperties(ps, g), FilterProperties(ps, f))
    ensures |FilterProperties(ps, g)| <= |FilterProperties(ps, f)|
  {
    if |ps| > 0 {
      FilterMonotone(ps[1..], g, f);
      TightenedMatch(g, f, ps[0]);
      var rg := FilterProperties(ps, g);
      var rf := FilterProperties(ps, f);
      if Matches(g, ps[0]) {
        assert rg[1..] == FilterProperties(ps[1..], g);
        assert rf[1..] == FilterProperties(ps[1..], f);
      } else if Matches(f, ps[0]) {
        assert rf[1..] == FilterProperties(ps[1..], f);
      }
    }
    SubsequenceLength(FilterProperties(ps, g), FilterProperties(ps, f));
  }

  /** The bathroom, terrace and minimum-price fields are held in the state
      but change nothing. */
  lemma {:induction false} IgnoredFacets(f: CatalogFilters, baths: string, terrace: bool, minPrice: int, ps: seq<Value>)
    ensures FilterProperties(ps, f.(baths := baths, terrace := terrace, minPrice := minPrice))
         == FilterProperties(ps, f)
  {
    if |ps| > 0 {
      IgnoredFacets(f, baths, terrace, minPrice, ps[1..]);
      assert Matches(f.(baths := baths, terrace := terrace, minPrice := minPrice), ps[0]) == Matches(f, ps[0]);
    }
  }

  /** With the initial filters a record is kept exactly when its listed
      price is unreadable or at most 50,000,000. */
  lemma InitialFiltersKeep(p: Value)
    ensures Matches(InitialFilters, p)
        <==> ListedPrice(p).None? || ListedPrice(p).value <= 50000000
  {
  }

  /** A minimum surface that does not read as a number compares false with
      every record, so the page shows nothing. */
  lemma {:induction false} NonNumericSurfaceExcludesAll(ps: seq<Value>, f: CatalogFilters)
    requires f.minSurface != "" && ToNumber(Str(f.minSurface)) == None
    ensures FilterProperties(ps, f) == []
  {
    if |ps| > 0 {
      NonNumericSurfaceExcludesAll(ps[1..], f);
    }
  }

  /** The search box matches on interpolated text, so a record without a
      town is found by searching for "undefined". */
  lemma MissingTownSearchable(f: CatalogFilters, p: Value)
    requires Get(p, "poblacion") == Undef
    ensures MatchSearch(f.(search := "undefined"), p)
    ensures MatchSearch(f.(search := "UNDEFINED"), p)
  {
    var hay := Lower(SearchText(p));
    assert SearchText(p)[..9] == "undefined";
    assert Lower("undefined") == "undefined";
    assert Lower("UNDEFINED") == "undefined";
    assert hay[..9] == "undefined";
  }

  // ---------------------------------------------------------------------
  // Property types offered by the filter panel

  /** No value occurs twice. */
  predicate NoDuplicates(xs: seq<Value>) {
    forall i, j :: 0 <= i < j < |xs| ==> xs[i] != xs[j]
  }

  function TypeOf(p: Value): Value {
    Get(p, "tipoinmo")
  }

  /** `properties.map(p => p.tipoinmo)`. */
  function AllTypes(ps: seq<Value>): (r: seq<Value>)
    ensures |r| == |ps| && forall i :: 0 <= i < |ps| ==> r[i] == TypeOf(ps[i])
  {
    seq(|ps|, i requires 0 <= i < |ps| => TypeOf(ps[i]))
  }

  /** `.filter(Boolean)`. */
  function TruthyValues(xs: seq<Value>): (r: seq<Value>)
    ensures forall v :: v in r <==> v in xs && Truthy(v)
    ensures forall v :: multiset(r)[v] == if Truthy(v) then multiset(xs)[v] else 0
    ensures IsSubsequence(r, xs)
  {
    if |xs| == 0 then []
    else
      var rest := TruthyValues(xs[1..]);
      assert xs == [xs[0]] + xs[1..];
      assert forall v :: v in xs <==> v == xs[0] || v in xs[1..];
      if Truthy(xs[0]) then
        assert ([xs[0]] + rest)[1..] == rest;
        [xs[0]] + rest
      else rest
  }

  /** `Array.from(new Set(xs))` with `seen` already in the set: the first
      occurrence of each value, in order. */
  function DedupFrom(xs: seq<Value>, seen: set<Value>): (r: seq<Value>)
    ensures forall v :: v in r <==> v in xs && v !in seen
    ensures NoDuplicates(r)
  {
    if |xs| == 0 then []
    else
      assert forall v :: v in xs <==> v == xs[0] || v in xs[1..];
      if xs[0] in seen then DedupFrom(xs[1..], seen)
      else [xs[0]] + DedupFrom(xs[1..], seen + {xs[0]})
  }

  lemma {:induction false} DedupFromIsSubsequence(xs: seq<Value>, seen: set<Value>)
    ensures IsSubsequence(DedupFrom(xs, seen), xs)
  {
    if |xs| > 0 {
      if xs[0] in seen {
        DedupFromIsSubsequence(xs[1..], seen);
      } else {
        DedupFromIsSubsequence(xs[1..], seen + {xs[0]});
        assert DedupFrom(xs, seen)[1..] == DedupFrom(xs[1..], seen + {xs[0]});
      }
    }
  }

  /** The position of the first occurrence of v in xs. */
  function FirstIndex(xs: seq<Value>, v: Value): (i: nat)
    requires v in xs
    ensures i < |xs| && xs[i] == v
    ensures forall k :: 0 <= k < i ==> xs[k] != v
  {
    if xs[0] == v then 0 else 1 + FirstIndex(xs[1..], v)
  }

  /** The values of r come in the order of their first occurrence in xs. */
  predicate FirstAppearanceOrder(r: seq<Value>, xs: seq<Value>) {
    forall i, j :: 0 <= i < j < |r| && r[i] in xs && r[j] in xs ==>
      FirstIndex(xs, r[i]) < FirstIndex(xs, r[j])
  }

  lemma FirstIndexShift(xs: seq<Value>, v: Value)
    requires v in xs && v != xs[0]
    ensures v in xs[1..] && FirstIndex(xs, v) == 1 + FirstIndex(xs[1..], v)
  {
    assert xs == [xs[0]] + xs[1..];
  }

  /** Values other than the head keep their order when the head is put back. */
  lemma OrderWithoutHead(xs: seq<Value>, rest: seq<Value>)
    requires |xs| > 0 && xs[0] !in rest
    requires FirstAppearanceOrder(rest, xs[1..])
    ensures FirstAppearanceOrder(rest, xs)
  {
    forall i, j | 0 <= i < j < |rest| && rest[i] in xs && rest[j] in xs
      ensures FirstIndex(xs, rest[i]) < FirstIndex(xs, rest[j])
    {
      FirstIndexShift(xs, rest[i]);
      FirstIndexShift(xs, rest[j]);
    }
  }

  /** The head comes first of all. */
  lemma OrderWithHead(xs: seq<Value>, rest: seq<Value>)
    requires |xs| > 0 && xs[0] !in rest
    requires FirstAppearanceOrder(rest, xs)
    ensures FirstAppearanceOrder([xs[0]] + rest, xs)
  {
    var r := [xs[0]] + rest;
    forall i, j | 0 <= i < j < |r| && r[i] in xs && r[j] in xs
      ensures FirstIndex(xs, r[i]) < FirstIndex(xs, r[j])
    {
      assert r[j] == rest[j - 1];
      if i > 0 {
        assert r[i] == rest[i - 1];
      } else {
        FirstIndexShift(xs, r[j]);
      }
    }
  }

  /** The deduplicated values come in the order of their first occurrence. */
  lemma {:induction false} DedupFromFirstAppearance(xs: seq<Value>, seen: set<Value>)
    ensures FirstAppearanceOrder(DedupFrom(xs, seen), xs)
  {
    if |xs| > 0 {
      if xs[0] in seen {
        var rest := DedupFrom(xs[1..], seen);
        DedupFromFirstAppearance(xs[1..], seen);
        OrderWithoutHead(xs, rest);
      } else {
        var rest := DedupFrom(xs[1..], seen + {xs[0]});
        DedupFromFirstAppearance(xs[1..], seen + {xs[0]});
        OrderWithoutHead(xs, rest);
        OrderWithHead(xs, rest);
      }
    }
  }

  /** Dropping falsy values keeps the order of first occurrences among the
      truthy ones. */
  lemma {:induction false} TruthyFirstIndex(xs: seq<Value>, u: Value, v: Value)
    requires u in TruthyValues(xs) && v in TruthyValues(xs)
    requires FirstIndex(TruthyValues(xs), u) < FirstIndex(TruthyValues(xs), v)
    ensures FirstIndex(xs, u) < FirstIndex(xs, v)
  {
    var t := TruthyValues(xs);
    if Truthy(xs[0]) {
      assert t == [xs[0]] + TruthyValues(xs[1..]);
      if u != xs[0] {
        assert v != xs[0];
        TruthyFirstIndex(xs[1..], u, v);
      }
    } else {
      assert u != xs[0] && v != xs[0];
      TruthyFirstIndex(xs[1..], u, v);
    }
  }

  /** The types listed by the filter panel. */
  function PropertyTypes(ps: seq<Value>): seq<Value> {
    DedupFrom(TruthyValues(AllTypes(ps)), {})
  }

  /** Each truthy type of some record is listed exactly once, nothing else
      is listed, and the list follows first appearance in the records. */
  lemma PropertyTypesSpec(ps: seq<Value>)
    ensures forall v :: v in PropertyTypes(ps) <==>
      (Truthy(v) && exists i :: 0 <= i < |ps| && TypeOf(ps[i]) == v)
    ensures NoDuplicates(PropertyTypes(ps))
    ensures IsSubsequence(PropertyTypes(ps), TruthyValues(AllTypes(ps)))
  {
    DedupFromIsSubsequence(TruthyValues(AllTypes(ps)), {});
    AllTypesMembers(ps);
  }

  lemma AllTypesMembers(ps: seq<Value>)
    ensures forall v :: v in AllTypes(ps) <==> exists i :: 0 <= i < |ps| && TypeOf(ps[i]) == v
  {
    var all := AllTypes(ps);
    forall v | v in all
      ensures exists i :: 0 <= i < |ps| && TypeOf(ps[i]) == v
    {
      var i :| 0 <= i < |all| && all[i] == v;
      assert TypeOf(ps[i]) == v;
    }
  }

  /** The listed types follow the order in which each first appears among
      the records. */
  lemma PropertyTypesOrder(ps: seq<Value>)
    ensures FirstAppearanceOrder(PropertyTypes(ps), AllTypes(ps))
  {
    var t := TruthyValues(AllTypes(ps));
    var r := PropertyTypes(ps);
    DedupFromFirstAppearance(t, {});
    forall i, j | 0 <= i < j < |r| && r[i] in AllTypes(ps) && r[j] in AllTypes(ps)
      ensures FirstIndex(AllTypes(ps), r[i]) < FirstIndex(AllTypes(ps), r[j])
    {
      assert r[i] in r && r[j] in r;
      TruthyFirstIndex(AllTypes(ps), r[i], r[j]);
    }
  }


  // ---------------------------------------------------------------------
  // Pagination

  function Min(a: int, b: int): int {
    if a <= b then a else b
  }

  /** `Math.ceil(n / 9)`. */
  function TotalPages(n: nat): (t: nat)
    ensures t * ItemsPerPage >= n
    ensures t > 0 ==> (t - 1) * ItemsPerPage < n
    ensures t == 0 <==> n == 0
  {
    (n + ItemsPerPage - 1) / ItemsPerPage
  }

  /** A `slice` bound: negative counts from the end, then clamped. */
  function SliceIndex(i: int, len: nat): (r: nat)
    ensures r <= len
    ensures 0 <= i <= len ==> r == i
    ensures i > len ==> r == len
  {
    if i < 0 then (if len + i < 0 then 0 else len + i)
    else if i > len then len
    else i
  }

  /** `s.slice(start, end)`. */
  function Slice(s: seq<Value>, start: int, end: int): (r: seq<Value>)
    ensures 0 <= start <= end ==> r == s[Min(start, |s|)..Min(end, |s|)]
  {
    var from := SliceIndex(start, |s|);
    var to := SliceIndex(end, |s|);
    if from < to then s[from..to] else []
  }

  /** The records shown on page `page` (counted from 1). */
  function Page(s: seq<Value>, page: int): (r: seq<Value>)
    ensures page >= 1 ==> r == s[Min((page - 1) * ItemsPerPage, |s|)..Min(page * ItemsPerPage, |s|)]
    ensures page >= 1 ==> |r| <= ItemsPerPage
    ensures page > TotalPages(|s|) ==> r == []
    ensures 1 <= page <= TotalPages(|s|) ==> |r| > 0
  {
    var start := (page - 1) * ItemsPerPage;
    Slice(s, start, start + ItemsPerPage)
  }

  /** Pages 1..k laid end to end. */
  function PagesUpTo(s: seq<Value>, k: nat): seq<Value> {
    if k == 0 then [] else PagesUpTo(s, k - 1) + Page(s, k)
  }

  lemma {:induction false} PagesUpToPrefix(s: seq<Value>, k: nat)
    ensures PagesUpTo(s, k) == s[..Min(k * ItemsPerPage, |s|)]
  {
    if k > 0 {
      PagesUpToPrefix(s, k - 1);
      var a := Min((k - 1) * ItemsPerPage, |s|);
      var b := Min(k * ItemsPerPage, |s|);
      assert s[..a] + s[a..b] == s[..b];
    }
  }

  /** All pages together are the filtered list: no record is shown twice and
      none is left out. */
  lemma PagesReassemble(s: seq<Value>)
    ensures PagesUpTo(s, TotalPages(|s|)) == s
  {
    PagesUpToPrefix(s, TotalPages(|s|));
  }

  /** Record i sits on page i / 9 + 1 at position i % 9. */
  lemma RecordOnPage(s: seq<Value>, i: nat)
    requires i < |s|
    ensures i % ItemsPerPage < |Page(s, i / ItemsPerPage + 1)|
    ensures Page(s, i / ItemsPerPage + 1)[i % ItemsPerPage] == s[i]
  {
    var q := i / ItemsPerPage;
    assert q * ItemsPerPage + i % ItemsPerPage == i;
    assert Min(q * ItemsPerPage, |s|) == q * ItemsPerPage;
  }

  // ---------------------------------------------------------------------
  // Page state

  /** The catalog page's state: the records from the listing hook, the
      filters, and the current page. */
  class CatalogPage {
    var properties: seq<Value>
    var filters: CatalogFilters
    var currentPage: int

    ghost predicate Valid()
      reads this
    {
      currentPage >= 1
    }

    /** Before the listing arrives: no records, initial filters, page 1. */
    constructor ()
      ensures Valid()
      ensures properties == [] && filters == InitialFilters && currentPage == 1
    {
      properties := [];
      filters := InitialFilters;
      currentPage := 1;
    }

    function Filtered(): seq<Value>
      reads this
    {
      FilterProperties(properties, filters)
    }

    function PageCount(): nat
      reads this
    {
      TotalPages(|Filtered()|)
    }

    /** The records in the grid. */
    function Visible(): seq<Value>
      reads this
    {
      Page(Filtered(), currentPage)
    }

    /** The pagination controls are shown only with more than one page. */
    predicate ControlsShown()
      reads this
    {
      PageCount() > 1
    }

    /** The current page lies within the page count. */
    predicate InRange()
      reads this
    {
      1 <= currentPage <= PageCount()
    }

    /** New filters; the reset effect returns to page 1. */
    method SetFilters(f: CatalogFilters)
      modifies this
      ensures filters == f && currentPage == 1 && properties == old(properties)
      ensures Valid()
      ensures Visible() == Filtered()[..Min(ItemsPerPage, |Filtered()|)]
      ensures |Filtered()| > 0 ==> InRange()
    {
      filters := f;
      currentPage := 1;
    }

    /** A new listing from the hook; the current page is kept, so it may
        now lie past the last page. */
    method SetProperties(items: seq<Value>)
      modifies this
      ensures properties == items && filters == old(filters) && currentPage == old(currentPage)
      ensures currentPage > PageCount() ==> Visible() == []
    {
      properties := items;
    }

    /** A numbered page button. */
    method GoToPage(p: int)
      requires ControlsShown() && 1 <= p <= PageCount()
      modifies this
      ensures currentPage == p && properties == old(properties) && filters == old(filters)
      ensures Valid() && InRange()
      ensures 0 < |Visible()| <= ItemsPerPage
    {
      currentPage := p;
    }

    /** The "previous" button, enabled unless on page 1. */
    method PreviousPage()
      requires Valid() && ControlsShown() && currentPage != 1
      modifies this
      ensures currentPage == old(currentPage) - 1
      ensures properties == old(properties) && filters == old(filters)
      ensures Valid()
      ensures old(InRange()) ==> InRange()
    {
      currentPage := currentPage - 1;
    }

    /** The "next" button, enabled unless on the last page. */
    method NextPage()
      requires Valid() && ControlsShown() && currentPage != PageCount()
      modifies this
      ensures currentPage == old(currentPage) + 1
      ensures properties == old(properties) && filters == old(filters)
      ensures Valid()
      ensures old(InRange()) ==> InRange()
      ensures old(currentPage) > PageCount() ==> Visible() == []
    {
      currentPage := currentPage + 1;
    }
  }
}
