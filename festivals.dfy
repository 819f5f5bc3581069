/**
 * The festival query (`GET /api/festivals`): the static festival list, the
 * four optional filters on the search parameters, and the sort by date.
 *
 * Dates are calendar triples; the catalog is a parameter of `Query`, and the
 * route runs it on `Catalog`.
 */
module Festivals {
  import opened Wrappers
  import opened Text

  /** A calendar date, as the `YYYY-MM-DD` strings of the list spell it. */
  datatype Date = Date(year: nat, month: nat, day: nat)

  predicate IsCalendarDate(d: Date) {
    1 <= d.month <= 12 && 1 <= d.day <= 31
  }

  /** A number that orders calendar dates as time does. */
  function Key(d: Date): nat {
    d.year * 10000 + d.month * 100 + d.day
  }

  /** Earlier in the calendar: by year, then month, then day. */
  predicate Earlier(a: Date, b: Date) {
    a.year < b.year || (a.year == b.year && (a.month < b.month || (a.month == b.month && a.day < b.day)))
  }

  datatype Festival = Festival(
    id: string, name: string, date: Date, festivalType: string,
    region: string, description: string, image: string)

  /** The festivals the route serves. */
  const Catalog: seq<Festival> := [
    Festival("f1", "Diwali", Date(2025, 10, 31), "Religious", "Pan India",
             "Festival of Lights", "https://example.com/diwali.jpg"),
    Festival("f2", "Holi", Date(2026, 3, 10), "Religious", "Pan India",
             "Festival of Colors", "https://example.com/holi.jpg"),
    Festival("f3", "Independence Day", Date(2025, 8, 15), "National", "Pan India",
             "National holiday celebrating independence", "https://example.com/independence.jpg"),
    Festival("f4", "Ganesh Chaturthi", Date(2025, 9, 3), "Religious", "Pan India",
             "Celebration of Lord Ganesha", "https://example.com/ganesh.jpg"),
    Festival("f5", "Onam", Date(2025, 8, 26), "Regional", "Kerala",
             "Harvest festival of Kerala", "https://example.com/onam.jpg")
  ]

  /** The search parameters `month`, `year`, `region` and `type`, `None` when absent. */
  datatype SearchParams = SearchParams(
    month: Option<string>, year: Option<string>, region: Option<string>, festivalType: Option<string>)

  // ---------------------------------------------------------------------------
  // The four criteria

  predicate InMonth(month: string, f: Festival) {
    ParseInt(month) == Some(f.date.month as int)
  }

  predicate InYear(year: string, f: Festival) {
    ParseInt(year) == Some(f.date.year as int)
  }

  predicate InRegion(region: string, f: Festival) {
    Includes(Lower(f.region), Lower(region))
  }

  predicate OfType(festivalType: string, f: Festival) {
    Lower(f.festivalType) == Lower(festivalType)
  }

  /** What a festival must satisfy to be returned: every given criterion. */
  predicate Matches(q: SearchParams, f: Festival) {
    && (Given(q.month) ==> InMonth(q.month.value, f))
    && (Given(q.year) ==> InYear(q.year.value, f))
    && (Given(q.region) ==> InRegion(q.region.value, f))
    && (Given(q.festivalType) ==> OfType(q.festivalType.value, f))
  }

  /** `Array.prototype.filter`: the elements that pass, in their order. */
  function Keep(s: seq<Festival>, p: Festival -> bool): (r: seq<Festival>)
    ensures forall f :: f in r <==> f in s && p(f)
    ensures multiset(r) <= multiset(s)
  {
    if s == [] then []
    else
      var rest := Keep(s[1..], p);
      assert s == [s[0]] + s[1..];
      if p(s[0]) then [s[0]] + rest else rest
  }

  function ByMonth(s: seq<Festival>, month: string): (r: seq<Festival>)
    ensures forall f :: f in r <==> f in s && InMonth(month, f)
    ensures multiset(r) <= multiset(s)
  {
    Keep(s, f => InMonth(month, f))
  }

  function ByYear(s: seq<Festival>, year: string): (r: seq<Festival>)
    ensures forall f :: f in r <==> f in s && InYear(year, f)
    ensures multiset(r) <= multiset(s)
  {
    Keep(s, f => InYear(year, f))
  }

  function ByRegion(s: seq<Festival>, region: string): (r: seq<Festival>)
    ensures forall f :: f in r <==> f in s && InRegion(region, f)
    ensures multiset(r) <= multiset(s)
  {
    Keep(s, f => InRegion(region, f))
  }

  function ByType(s: seq<Festival>, festivalType: string): (r: seq<Festival>)
    ensures forall f :: f in r <==> f in s && OfType(festivalType, f)
    ensures multiset(r) <= multiset(s)
  {
    Keep(s, f => OfType(festivalType, f))
  }

  /** The list after the four conditional filters, before sorting. */
  function Filtered(catalog: seq<Festival>, q: SearchParams): (r: seq<Festival>)
    ensures forall f :: f in r <==> f in catalog && Matches(q, f)
    ensures multiset(r) <= multiset(catalog)
    ensures !Given(q.month) && !Given(q.year) && !Given(q.region) && !Given(q.festivalType) ==> r == catalog
  {
    var byMonth := if Given(q.month) then ByMonth(catalog, q.month.value) else catalog;
    var byYear := if Given(q.year) then ByYear(byMonth, q.year.value) else byMonth;
    var byRegion := if Given(q.region) then ByRegion(byYear, q.region.value) else byYear;
    if Given(q.festivalType) then ByType(byRegion, q.festivalType.value) else byRegion
  }

  predicate SortedByDate(s: seq<Festival>) {
    forall i, j :: 0 <= i < j < |s| ==> Key(s[i].date) <= Key(s[j].date)
  }

  // ---------------------------------------------------------------------------
  // The route

  /** `GET`: the festivals of `catalog` that match every given parameter,
      sorted by date. */
  method Query(catalog: seq<Festival>, q: SearchParams) returns (result: seq<Festival>)
    ensures multiset(result) == multiset(Filtered(catalog, q))
    ensures SortedByDate(result)
    ensures forall f :: f in result <==> f in catalog && Matches(q, f)
  {
    var filtered := ApplyFilters(catalog, q);
    var a := new Festival[|filtered|](i requires 0 <= i < |filtered| => filtered[i]);
    assert a[..] == filtered;
    SortByDate(a);
    result := a[..];
    SameMembers(result, filtered);
  }

  /** The four conditional reassignments of the list. */
  method ApplyFilters(catalog: seq<Festival>, q: SearchParams) returns (filtered: seq<Festival>)
    ensures filtered == Filtered(catalog, q)
  {
    filtered := catalog;
    if Given(q.month) {
      filtered := ByMonth(filtered, q.month.value);
    }
    if Given(q.year) {
      filtered := ByYear(filtered, q.year.value);
    }
    if Given(q.region) {
      filtered := ByRegion(filtered, q.region.value);
    }
    if Given(q.festivalType) {
      filtered := ByType(filtered, q.festivalType.value);
    }
  }

  /** The in-place `sort` by date, as an insertion sort. */
  method SortByDate(a: array<Festival>)
    modifies a
    ensures SortedByDate(a[..])
    ensures multiset(a[..]) == multiset(old(a[..]))
  {
    var i := 0;
    while i < a.Length
      invariant 0 <= i <= a.Length
      invariant SortedByDate(a[..i])
      invariant multiset(a[..]) == multiset(old(a[..]))
    {
      Insert(a, i);
      i := i + 1;
    }
    assert a[..a.Length] == a[..];
  }

  /** Moves `a[i]` down into the sorted prefix `a[..i]`. */
  method Insert(a: array<Festival>, i: nat)
    requires i < a.Length && SortedByDate(a[..i])
    modifies a
    ensures SortedByDate(a[..i + 1])
    ensures multiset(a[..]) == multiset(old(a[..]))
  {
    var j := i;
    SortedExceptStart(a[..], i);
    while j > 0 && Key(a[j - 1].date) > Key(a[j].date)
      invariant 0 <= j <= i
      invariant multiset(a[..]) == multiset(old(a[..]))
      invariant SortedExcept(a[..], i + 1, j)
    {
      ghost var before := a[..];
      a[j - 1], a[j] := a[j], a[j - 1];
      assert a[..] == before[j - 1 := before[j]][j := before[j - 1]];
      SwapKeepsMultiset(before, j);
      SwapStep(before, i, j);
      j := j - 1;
    }
    SortedExceptEnd(a[..], i, j);
  }

  /** The prefix `s[..n]` is sorted except that `s[j]` may be out of place;
      its neighbours are in order with each other. */
  predicate SortedExcept(s: seq<Festival>, n: nat, j: nat) {
    && j < n <= |s|
    && (forall k, l :: 0 <= k < l < n && l != j && k != j ==> Key(s[k].date) <= Key(s[l].date))
    && (forall k :: j < k < n ==> Key(s[j].date) <= Key(s[k].date))
    && (0 < j < n - 1 ==> Key(s[j - 1].date) <= Key(s[j + 1].date))
  }

  lemma SortedExceptStart(s: seq<Festival>, i: nat)
    requires i < |s| && SortedByDate(s[..i])
    ensures SortedExcept(s, i + 1, i)
  {
    forall k, l | 0 <= k < l < i + 1 && l != i && k != i
      ensures Key(s[k].date) <= Key(s[l].date)
    {
      assert s[k] == s[..i][k] && s[l] == s[..i][l];
    }
  }

  lemma SwapStep(s: seq<Festival>, i: nat, j: nat)
    requires 0 < j && SortedExcept(s, i + 1, j) && Key(s[j - 1].date) > Key(s[j].date)
    ensures SortedExcept(s[j - 1 := s[j]][j := s[j - 1]], i + 1, j - 1)
  {
  }

  lemma SortedExceptEnd(s: seq<Festival>, i: nat, j: nat)
    requires SortedExcept(s, i + 1, j)
    requires j == 0 || Key(s[j - 1].date) <= Key(s[j].date)
    ensures SortedByDate(s[..i + 1])
  {
    var p := s[..i + 1];
    forall k, l | 0 <= k < l < |p|
      ensures Key(p[k].date) <= Key(p[l].date)
    {
      assert p[k] == s[k] && p[l] == s[l];
    }
  }

  lemma SwapKeepsMultiset(s: seq<Festival>, j: nat)
    requires 0 < j < |s|
    ensures multiset(s[j - 1 := s[j]][j := s[j - 1]]) == multiset(s)
  {
  }

  /** Two lists with the same elements, counted with multiplicity, have the
      same members. */
  lemma SameMembers(r: seq<Festival>, s: seq<Festival>)
    requires multiset(r) == multiset(s)
    ensures forall f :: f in r <==> f in s
  {
    forall f
      ensures f in r <==> f in s
    {
      assert f in r <==> f in multiset(r);
      assert f in s <==> f in multiset(s);
    }
  }

  // ---------------------------------------------------------------------------
  // Properties

  /** `parseInt` without a radix reads a `0x` parameter as hexadecimal:
      `month=0xA` selects October and `year=0x7E9` the year 2025. */
  lemma HexParameters(f: Festival)
    ensures InMonth("0xA", f) <==> f.date.month == 10
    ensures InYear("0x7E9", f) <==> f.date.year == 2025
  {
    HexTen();
    HexYear();
  }

  /** `parseInt` skips Unicode white space: `month=%C2%A010`, a no-break
      space before 10, selects October. */
  lemma SpacedParameter(f: Festival)
    ensures InMonth("\U{00A0}10", f) <==> f.date.month == 10
  {
    SpacedTen();
  }

  /** On calendar dates the key orders as the calendar does. */
  lemma KeyIsChronological(a: Date, b: Date)
    requires IsCalendarDate(a) && IsCalendarDate(b)
    ensures Key(a) < Key(b) <==> Earlier(a, b)
    ensures Key(a) == Key(b) <==> a == b
  {
  }
}
