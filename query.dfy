/**
 * The search handler's decision logic: normalise the query, reject an empty
 * one, require a loaded dataset, then filter the flattened list either by a
 * category keyword or by substring search.
 */
module Query {
  import opened Wrappers
  import opened Text
  import opened Catalog

  /** What a record is tested against: an exact type, or a substring of its text. */
  datatype Criterion = OfKind(kind: Kind) | Mentions(query: string)

  /** The text a general query is searched in: lowercase(name + " " + description). */
  function SearchText(x: Item): string {
    Lower(x.name + " " + x.description)
  }

  /** The searched text is the lowered name and the lowered description joined by one space. */
  lemma SearchTextParts(x: Item)
    ensures SearchText(x) == Lower(x.name) + " " + Lower(x.description)
  {
    LowerAppend(x.name + " ", x.description);
    LowerAppend(x.name, " ");
  }

  predicate Accepts(c: Criterion, x: Item) {
    match c
    case OfKind(k) => x.kind == k
    case Mentions(q) => Contains(SearchText(x), q)
  }

  /** Array.prototype.filter with the predicate of `c`. */
  function Filter(xs: seq<Item>, c: Criterion): seq<Item> {
    if xs == [] then []
    else (if Accepts(c, xs[0]) then [xs[0]] else []) + Filter(xs[1..], c)
  }

  /** `a` is `b` with some elements left out, the rest in their order. */
  predicate IsSubsequence(a: seq<Item>, b: seq<Item>)
    decreases |b|
  {
    if a == [] then true
    else if b == [] then false
    else if a[0] == b[0] then IsSubsequence(a[1..], b[1..])
    else IsSubsequence(a, b[1..])
  }

  lemma {:induction false} FilterAppend(a: seq<Item>, b: seq<Item>, c: Criterion)
    ensures Filter(a + b, c) == Filter(a, c) + Filter(b, c)
  {
    if a == [] {
      assert a + b == b;
    } else {
      assert (a + b)[0] == a[0];
      assert (a + b)[1..] == a[1..] + b;
      FilterAppend(a[1..], b, c);
    }
  }

  /** The filter keeps records in their original order. */
  lemma {:induction false} FilterIsSubsequence(xs: seq<Item>, c: Criterion)
    ensures IsSubsequence(Filter(xs, c), xs)
  {
    if xs != [] {
      FilterIsSubsequence(xs[1..], c);
      if Accepts(c, xs[0]) {
        assert Filter(xs, c)[1..] == Filter(xs[1..], c);
      } else {
        var f := Filter(xs, c);
        assert f == Filter(xs[1..], c);
        FilterAccepts(xs[1..], c);
        if f != [] {
          assert Accepts(c, f[0]);
        }
      }
    }
  }

  lemma {:induction false} FilterAccepts(xs: seq<Item>, c: Criterion)
    ensures forall x :: x in Filter(xs, c) ==> Accepts(c, x)
  {
    if xs != [] {
      FilterAccepts(xs[1..], c);
    }
  }

  /** The filter keeps every copy of an accepted record and no copy of any other. */
  lemma {:induction false} FilterMultiplicity(xs: seq<Item>, c: Criterion, x: Item)
    ensures multiset(Filter(xs, c))[x] == if Accepts(c, x) then multiset(xs)[x] else 0
  {
    if xs != [] {
      FilterMultiplicity(xs[1..], c, x);
      assert xs == [xs[0]] + xs[1..];
    }
  }

  /** A record is in the filter's result exactly when it is in the input and accepted. */
  lemma FilterMembership(xs: seq<Item>, c: Criterion)
    ensures forall x :: x in Filter(xs, c) <==> x in xs && Accepts(c, x)
  {
    forall x ensures x in Filter(xs, c) <==> x in xs && Accepts(c, x) {
      FilterMultiplicity(xs, c, x);
    }
  }

  /** Two different type filters never share a record. */
  lemma KindFiltersDisjoint(xs: seq<Item>, k1: Kind, k2: Kind)
    requires k1 != k2
    ensures forall x :: !(x in Filter(xs, OfKind(k1)) && x in Filter(xs, OfKind(k2)))
  {
    FilterAccepts(xs, OfKind(k1));
    FilterAccepts(xs, OfKind(k2));
  }

  /** The query as compared: `input.value.trim().toLowerCase()`. */
  function NormalizeQuery(raw: string): string {
    Lower(Trim(raw))
  }

  /** The keyword table: three pairs of category words, anything else is a substring search. */
  function CriterionFor(q: string): Criterion {
    if q == "beach" || q == "beaches" then OfKind(Beach)
    else if q == "temple" || q == "temples" then OfKind(Temple)
    else if q == "country" || q == "countries" then OfKind(Country)
    else Mentions(q)
  }

  /** The three ways the search handler finishes. */
  datatype Outcome = EmptyQuery | NotLoaded | Results(items: seq<Item>)

  /** handleSearch without its I/O: `data` is the loaded dataset, if any, and
      `input` the raw text of the search box. */
  function Search(data: Option<Dataset>, input: string): Outcome {
    var q := NormalizeQuery(input);
    if q == "" then EmptyQuery
    else if data.None? then NotLoaded
    else Results(Filter(SearchList(data.value), CriterionFor(q)))
  }

  lemma NormalizedEmptyIff(input: string)
    ensures NormalizeQuery(input) == "" <==> AllWhitespace(input)
  {
    TrimEmptyIff(input);
  }

  /** The empty-query check comes first: an empty or all-whitespace input is
      rejected whether or not a dataset is loaded, and nothing else is. */
  lemma EmptyQueryFirst(data: Option<Dataset>, input: string)
    ensures Search(data, input) == EmptyQuery <==> AllWhitespace(input)
  {
    NormalizedEmptyIff(input);
  }

  /** Without a dataset every non-empty query ends as NotLoaded; with one it never does. */
  lemma NotLoadedIff(data: Option<Dataset>, input: string)
    ensures Search(data, input) == NotLoaded <==> data.None? && !AllWhitespace(input)
  {
    NormalizedEmptyIff(input);
  }

  /** The normalised query is already trimmed and lower-case, so normalising again changes nothing. */
  lemma NormalizeIdempotent(input: string)
    ensures NormalizeQuery(NormalizeQuery(input)) == NormalizeQuery(input)
  {
    var t := Trim(input);
    TrimIsTrimmed(input);
    LowerTrimCommute(t);
    TrimOfTrimmed(t);
    LowerIdempotent(t);
    assert Trim(Lower(t)) == Lower(t);
  }

  /** Leading and trailing whitespace in the search box never changes the outcome. */
  lemma PaddingIgnored(data: Option<Dataset>, pre: string, input: string, post: string)
    requires AllWhitespace(pre) && AllWhitespace(post)
    ensures Search(data, pre + input + post) == Search(data, input)
  {
    TrimIgnoresPadding(pre, input, post);
  }

  /** Inputs that differ only in ASCII letter case give the same outcome. */
  lemma CaseIgnored(data: Option<Dataset>, a: string, b: string)
    requires Lower(a) == Lower(b)
    ensures Search(data, a) == Search(data, b)
  {
    LowerTrimCommute(a);
    LowerTrimCommute(b);
  }

  /** Inputs with the same normal form give the same outcome. */
  lemma SameQuerySameOutcome(data: Option<Dataset>, a: string, b: string)
    requires NormalizeQuery(a) == NormalizeQuery(b)
    ensures Search(data, a) == Search(data, b)
  {
  }

  lemma ShoutedBeachNormalizes()
    ensures NormalizeQuery(" BEACH ") == "beach"
  {
    assert " BEACH " == " " + "BEACH" + " ";
    TrimIgnoresPadding(" ", "BEACH", " ");
    TrimOfTrimmed("BEACH");
    assert Lower("BEACH") == "beach";
  }

  lemma BeachNormalizes()
    ensures NormalizeQuery("beach") == "beach"
  {
    TrimOfTrimmed("beach");
    assert Lower("beach") == "beach";
  }

  /** " BEACH " and "beach" give identical results. */
  lemma PaddedUpperCaseBeach(data: Option<Dataset>)
    ensures Search(data, " BEACH ") == Search(data, "beach")
  {
    ShoutedBeachNormalizes();
    BeachNormalizes();
    SameQuerySameOutcome(data, " BEACH ", "beach");
  }

  lemma {:induction false} FilterPlaceItems(kind: Kind, ps: seq<Place>, k: Kind)
    ensures Filter(PlaceItems(kind, ps), OfKind(k)) == if kind == k then PlaceItems(kind, ps) else []
  {
    if ps != [] {
      var init := ps[..|ps| - 1];
      FilterPlaceItems(kind, init, k);
      FilterAppend(PlaceItems(kind, init), [PlaceItem(kind, ps[|ps| - 1])], OfKind(k));
    }
  }

  /** Filtering the country blocks by type "country" keeps one record per
      country, in order, and no city. */
  lemma {:induction false} FilterCountriesItems(cs: seq<CountryEntry>)
    ensures var r := Filter(CountriesItems(cs), OfKind(Country));
      |r| == |cs| && forall i :: 0 <= i < |cs| ==> r[i] == CountryItem(cs[i])
  {
    if cs != [] {
      var init, last := cs[..|cs| - 1], cs[|cs| - 1];
      FilterCountriesItems(init);
      FilterAppend(CountriesItems(init), CountryBlock(last), OfKind(Country));
      FilterAppend([CountryItem(last)], PlaceItems(City, CitiesOf(last)), OfKind(Country));
      FilterPlaceItems(City, CitiesOf(last), Country);
      assert Filter(CountryBlock(last), OfKind(Country)) == [CountryItem(last)];
      assert Filter(CountriesItems(cs), OfKind(Country))
        == Filter(CountriesItems(init), OfKind(Country)) + [CountryItem(last)];
    }
  }

  lemma {:induction false} FilterCountriesItemsOther(cs: seq<CountryEntry>, k: Kind)
    requires k == Temple || k == Beach
    ensures Filter(CountriesItems(cs), OfKind(k)) == []
  {
    if cs != [] {
      var init, last := cs[..|cs| - 1], cs[|cs| - 1];
      FilterCountriesItemsOther(init, k);
      FilterAppend(CountriesItems(init), CountryBlock(last), OfKind(k));
      FilterAppend([CountryItem(last)], PlaceItems(City, CitiesOf(last)), OfKind(k));
      FilterPlaceItems(City, CitiesOf(last), k);
    }
  }

  lemma FilterSearchList(d: Dataset, k: Kind)
    ensures Filter(SearchList(d), OfKind(k))
      == Filter(CountriesItems(OrEmpty(d.countries)), OfKind(k))
         + Filter(PlaceItems(Temple, OrEmpty(d.temples)), OfKind(k))
         + Filter(PlaceItems(Beach, OrEmpty(d.beaches)), OfKind(k))
  {
    var c, t, b := CountriesItems(OrEmpty(d.countries)), PlaceItems(Temple, OrEmpty(d.temples)), PlaceItems(Beach, OrEmpty(d.beaches));
    FilterAppend(c + t, b, OfKind(k));
    FilterAppend(c, t, OfKind(k));
  }

  /** A query the keyword table maps to a type filter runs that filter over the flattened list. */
  lemma KeywordSearch(d: Dataset, input: string, k: Kind)
    requires CriterionFor(NormalizeQuery(input)) == OfKind(k)
    ensures Search(Some(d), input) == Results(Filter(SearchList(d), OfKind(k)))
  {
  }

  lemma BeachKeywords(q: string)
    requires q == "beach" || q == "beaches"
    ensures CriterionFor(q) == OfKind(Beach)
  {
  }

  lemma TempleKeywords(q: string)
    requires q == "temple" || q == "temples"
    ensures CriterionFor(q) == OfKind(Temple)
  {
  }

  lemma CountryKeywords(q: string)
    requires q == "country" || q == "countries"
    ensures CriterionFor(q) == OfKind(Country)
  {
  }

  lemma OtherWords(q: string)
    requires q !in {"beach", "beaches", "temple", "temples", "country", "countries"}
    ensures CriterionFor(q) == Mentions(q)
  {
  }

  /** The beach filter keeps exactly the beach records, in dataset order. */
  lemma BeachFilter(d: Dataset)
    ensures Filter(SearchList(d), OfKind(Beach)) == PlaceItems(Beach, OrEmpty(d.beaches))
  {
    FilterSearchList(d, Beach);
    FilterCountriesItemsOther(OrEmpty(d.countries), Beach);
    FilterPlaceItems(Temple, OrEmpty(d.temples), Beach);
    FilterPlaceItems(Beach, OrEmpty(d.beaches), Beach);
  }

  /** The temple filter keeps exactly the temple records, in dataset order. */
  lemma TempleFilter(d: Dataset)
    ensures Filter(SearchList(d), OfKind(Temple)) == PlaceItems(Temple, OrEmpty(d.temples))
  {
    FilterSearchList(d, Temple);
    FilterCountriesItemsOther(OrEmpty(d.countries), Temple);
    FilterPlaceItems(Temple, OrEmpty(d.temples), Temple);
    FilterPlaceItems(Beach, OrEmpty(d.beaches), Temple);
  }

  /** The country filter keeps one record per country, in order, and never a city. */
  lemma CountryFilter(d: Dataset)
    ensures var r := Filter(SearchList(d), OfKind(Country)); var cs := OrEmpty(d.countries);
      |r| == |cs| && (forall i :: 0 <= i < |cs| ==> r[i] == CountryItem(cs[i]))
      && forall x :: x in r ==> x.kind == Country
  {
    var l := SearchList(d);
    FilterSearchList(d, Country);
    FilterCountriesItems(OrEmpty(d.countries));
    FilterPlaceItems(Temple, OrEmpty(d.temples), Country);
    FilterPlaceItems(Beach, OrEmpty(d.beaches), Country);
    assert Filter(l, OfKind(Country)) == Filter(CountriesItems(OrEmpty(d.countries)), OfKind(Country));
    FilterAccepts(l, OfKind(Country));
  }

  /** "beach" and "beaches" return exactly the beach records, in dataset order. */
  lemma BeachQuery(d: Dataset, input: string)
    requires NormalizeQuery(input) == "beach" || NormalizeQuery(input) == "beaches"
    ensures Search(Some(d), input) == Results(PlaceItems(Beach, OrEmpty(d.beaches)))
  {
    BeachKeywords(NormalizeQuery(input));
    KeywordSearch(d, input, Beach);
    BeachFilter(d);
  }

  /** "temple" and "temples" return exactly the temple records, in dataset order. */
  lemma TempleQuery(d: Dataset, input: string)
    requires NormalizeQuery(input) == "temple" || NormalizeQuery(input) == "temples"
    ensures Search(Some(d), input) == Results(PlaceItems(Temple, OrEmpty(d.temples)))
  {
    TempleKeywords(NormalizeQuery(input));
    KeywordSearch(d, input, Temple);
    TempleFilter(d);
  }

  /** "country" and "countries" return one record per country, in order, and never a city. */
  lemma CountryQuery(d: Dataset, input: string)
    requires NormalizeQuery(input) == "country" || NormalizeQuery(input) == "countries"
    ensures Search(Some(d), input) == Results(Filter(SearchList(d), OfKind(Country)))
    ensures var r := Search(Some(d), input).items; var cs := OrEmpty(d.countries);
      |r| == |cs| && (forall i :: 0 <= i < |cs| ==> r[i] == CountryItem(cs[i]))
      && forall x :: x in r ==> x.kind == Country
  {
    CountryKeywords(NormalizeQuery(input));
    KeywordSearch(d, input, Country);
    CountryFilter(d);
  }

  /** The three category searches return pairwise disjoint record sets. */
  lemma CategoryResultsDisjoint(d: Dataset, beach: string, temple: string, country: string)
    requires NormalizeQuery(beach) == "beach" || NormalizeQuery(beach) == "beaches"
    requires NormalizeQuery(temple) == "temple" || NormalizeQuery(temple) == "temples"
    requires NormalizeQuery(country) == "country" || NormalizeQuery(country) == "countries"
    ensures var b, t, c := Search(Some(d), beach).items, Search(Some(d), temple).items, Search(Some(d), country).items;
      (forall x :: !(x in b && x in t)) && (forall x :: !(x in b && x in c)) && (forall x :: !(x in t && x in c))
  {
    var l := SearchList(d);
    BeachKeywords(NormalizeQuery(beach));
    KeywordSearch(d, beach, Beach);
    TempleKeywords(NormalizeQuery(temple));
    KeywordSearch(d, temple, Temple);
    CountryKeywords(NormalizeQuery(country));
    KeywordSearch(d, country, Country);
    KindFiltersDisjoint(l, Beach, Temple);
    KindFiltersDisjoint(l, Beach, Country);
    KindFiltersDisjoint(l, Temple, Country);
  }

  /** Any other non-empty query keeps, in order, exactly the records whose
      lowercase(name + " " + description) contains it. */
  lemma GeneralQuery(d: Dataset, input: string)
    requires NormalizeQuery(input) != ""
    requires NormalizeQuery(input) !in {"beach", "beaches", "temple", "temples", "country", "countries"}
    ensures Search(Some(d), input).Results?
    ensures var r := Search(Some(d), input).items; var q := NormalizeQuery(input);
      IsSubsequence(r, SearchList(d))
      && (forall x :: x in r <==> x in SearchList(d) && Occurs(SearchText(x), q))
      && (forall x :: multiset(r)[x] == if Occurs(SearchText(x), q) then multiset(SearchList(d))[x] else 0)
  {
    var q := NormalizeQuery(input);
    var l := SearchList(d);
    OtherWords(q);
    assert Search(Some(d), input) == Results(Filter(l, Mentions(q)));
    FilterIsSubsequence(l, Mentions(q));
    FilterMembership(l, Mentions(q));
    forall x ensures multiset(Filter(l, Mentions(q)))[x] == if Occurs(SearchText(x), q) then multiset(l)[x] else 0 {
      FilterMultiplicity(l, Mentions(q), x);
      ContainsIff(SearchText(x), q);
    }
    forall x ensures Accepts(Mentions(q), x) <==> Occurs(SearchText(x), q) {
      ContainsIff(SearchText(x), q);
    }
  }
}

/**
 * The status line shown after a search. handleSearch writes a validation
 * message for an empty query and then calls renderResults, which overwrites
 * it; `StatusAsWritten` keeps that order and `Status` is the intended one.
 */
module Feedback {
  import opened Wrappers
  import opened Text
  import opened Catalog
  import opened Query

  datatype StatusLine =
    | InvalidQuery   // "Please enter a valid search query."
    | Waiting        // "Data not loaded yet. Please wait..."
    | NoResults      // "No results found. Try another keyword."
    | Found(count: nat)  // "Found N result(s)."

  /** The status renderResults writes for a result list. */
  function RenderStatus(results: seq<Item>): StatusLine {
    if |results| == 0 then NoResults else Found(|results|)
  }

  /** The status left on screen by handleSearch as the code is written: the
      empty-query message is replaced by renderResults([]). */
  function StatusAsWritten(o: Outcome): StatusLine {
    match o
    case EmptyQuery => RenderStatus([])
    case NotLoaded => Waiting
    case Results(r) => RenderStatus(r)
  }

  /** The status handleSearch evidently means to leave: the empty-query message stays. */
  function Status(o: Outcome): StatusLine {
    match o
    case EmptyQuery => InvalidQuery
    case NotLoaded => Waiting
    case Results(r) => RenderStatus(r)
  }

  /** As written, a whitespace-only query ends with "No results found",
      never with the request for a valid query. */
  lemma EmptyQueryMessageLost(data: Option<Dataset>)
    ensures Search(data, " ") == EmptyQuery
    ensures StatusAsWritten(Search(data, " ")) == NoResults
    ensures forall input :: StatusAsWritten(Search(data, input)) != InvalidQuery
  {
    EmptyQueryFirst(data, " ");
  }

  /** Each status names its outcome: the validation message exactly for an
      empty query, the waiting message exactly when no dataset is loaded, and
      otherwise the number of results. */
  lemma StatusReportsOutcome(data: Option<Dataset>, input: string)
    ensures var o := Search(data, input); var s := Status(o);
      (s == InvalidQuery <==> AllWhitespace(input))
      && (s == Waiting <==> data.None? && !AllWhitespace(input))
      && (s == NoResults <==> o == Results([]))
      && (s.Found? ==> o.Results? && s.count == |o.items| > 0)
  {
    EmptyQueryFirst(data, input);
    NotLoadedIff(data, input);
  }
}
