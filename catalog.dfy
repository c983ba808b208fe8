/**
 * The travel dataset as loaded from JSON, the display records the search
 * works on, and the flattening of the former into the latter.
 */
module Catalog {
  import opened Wrappers

  /** A city, temple or beach entry of the dataset. */
  datatype Place = Place(name: string, imageUrl: string, description: string)

  /** A country entry: its image and its list of cities may be absent. */
  datatype CountryEntry = CountryEntry(name: string, imageUrl: Option<string>, cities: Option<seq<Place>>)

  /** The parsed dataset; each of its three collections may be absent. */
  datatype Dataset = Dataset(
    countries: Option<seq<CountryEntry>>,
    temples: Option<seq<Place>>,
    beaches: Option<seq<Place>>)

  /** The `type` tag of a display record. */
  datatype Kind = Country | City | Temple | Beach

  /** A display record of the flattened search list. */
  datatype Item = Item(kind: Kind, name: string, imageUrl: string, description: string)

  /** `xs || []`: an absent collection reads as empty. */
  function OrEmpty<T>(xs: Option<seq<T>>): seq<T> {
    if xs.Some? then xs.value else []
  }

  /** `country.imageUrl || ""`. */
  function ImageOrEmpty(url: Option<string>): string {
    if url.Some? then url.value else ""
  }

  /** The synthesised description of a country record. */
  function CountryDescription(name: string): string {
    "Explore top destinations in " + name + "."
  }

  function CountryItem(c: CountryEntry): Item {
    Item(Country, c.name, ImageOrEmpty(c.imageUrl), CountryDescription(c.name))
  }

  function PlaceItem(kind: Kind, p: Place): Item {
    Item(kind, p.name, p.imageUrl, p.description)
  }

  /** The records of a list of places, all tagged `kind`, in list order. */
  function PlaceItems(kind: Kind, ps: seq<Place>): (r: seq<Item>)
    ensures |r| == |ps|
    ensures forall i :: 0 <= i < |ps| ==> r[i] == PlaceItem(kind, ps[i])
  {
    if ps == [] then [] else PlaceItems(kind, ps[..|ps| - 1]) + [PlaceItem(kind, ps[|ps| - 1])]
  }

  /** The cities of a country, as the loop over `country.cities || []` sees them. */
  function CitiesOf(c: CountryEntry): seq<Place> {
    OrEmpty(c.cities)
  }

  /** A country record followed by the records of its cities. */
  function CountryBlock(c: CountryEntry): seq<Item> {
    [CountryItem(c)] + PlaceItems(City, CitiesOf(c))
  }

  /** The country blocks of all countries, one after the other. */
  function CountriesItems(cs: seq<CountryEntry>): seq<Item> {
    if cs == [] then [] else CountriesItems(cs[..|cs| - 1]) + CountryBlock(cs[|cs| - 1])
  }

  /** The total number of cities over a list of countries. */
  function CityCount(cs: seq<CountryEntry>): nat {
    if cs == [] then 0 else CityCount(cs[..|cs| - 1]) + |CitiesOf(cs[|cs| - 1])|
  }

  /** The flattened search list: countries with their cities, then temples, then beaches. */
  function SearchList(d: Dataset): seq<Item> {
    CountriesItems(OrEmpty(d.countries))
      + PlaceItems(Temple, OrEmpty(d.temples))
      + PlaceItems(Beach, OrEmpty(d.beaches))
  }

  /** One `for (const p of ps) items.push({type: kind, ...p})` loop. */
  method PushPlaces(items: seq<Item>, kind: Kind, ps: seq<Place>) returns (out: seq<Item>)
    ensures out == items + PlaceItems(kind, ps)
  {
    out := items;
    for j := 0 to |ps|
      invariant out == items + PlaceItems(kind, ps[..j])
    {
      out := out + [PlaceItem(kind, ps[j])];
      assert ps[..j + 1][..j] == ps[..j];
    }
    assert ps[..|ps|] == ps;
  }

  /** The body of the country loop: the country record, then its cities. */
  method PushCountry(items: seq<Item>, country: CountryEntry) returns (out: seq<Item>)
    ensures out == items + CountryBlock(country)
  {
    out := items + [CountryItem(country)];
    out := PushPlaces(out, City, CitiesOf(country));
  }

  /** buildSearchList: pushes the records one at a time onto `items`. */
  method BuildSearchList(json: Dataset) returns (items: seq<Item>)
    ensures items == SearchList(json)
  {
    items := [];
    var countries := OrEmpty(json.countries);
    for i := 0 to |countries|
      invariant items == CountriesItems(countries[..i])
    {
      items := PushCountry(items, countries[i]);
      CountriesItemsSnoc(countries, i);
    }
    assert countries[..|countries|] == countries;
    items := PushPlaces(items, Temple, OrEmpty(json.temples));
    items := PushPlaces(items, Beach, OrEmpty(json.beaches));
  }

  lemma CountriesItemsSnoc(cs: seq<CountryEntry>, i: nat)
    requires i < |cs|
    ensures CountriesItems(cs[..i + 1]) == CountriesItems(cs[..i]) + CountryBlock(cs[i])
  {
    assert cs[..i + 1][..i] == cs[..i];
  }

  /** Each country contributes one record plus one per city. */
  lemma {:induction false} CountriesItemsLength(cs: seq<CountryEntry>)
    ensures |CountriesItems(cs)| == |cs| + CityCount(cs)
  {
    if cs != [] {
      CountriesItemsLength(cs[..|cs| - 1]);
    }
  }

  /** The flattened list has one record per country, city, temple and beach,
      an absent collection counting as empty. */
  lemma SearchListLength(d: Dataset)
    ensures |SearchList(d)| == |OrEmpty(d.countries)| + CityCount(OrEmpty(d.countries))
                               + |OrEmpty(d.temples)| + |OrEmpty(d.beaches)|
  {
    CountriesItemsLength(OrEmpty(d.countries));
  }

  /** The records of the first `n` countries form a prefix of the records of all of them. */
  lemma {:induction false} CountriesItemsPrefix(cs: seq<CountryEntry>, n: nat)
    requires n <= |cs|
    ensures |CountriesItems(cs[..n])| <= |CountriesItems(cs)|
    ensures CountriesItems(cs)[..|CountriesItems(cs[..n])|] == CountriesItems(cs[..n])
    decreases |cs|
  {
    if n == |cs| {
      assert cs[..n] == cs;
    } else {
      var init := cs[..|cs| - 1];
      assert init[..n] == cs[..n];
      CountriesItemsPrefix(init, n);
      var whole, part := CountriesItems(cs), CountriesItems(init);
      assert whole == part + CountryBlock(cs[|cs| - 1]);
      assert whole[..|part|] == part;
    }
  }

  lemma SliceAfterPrefix(whole: seq<Item>, head: seq<Item>, block: seq<Item>)
    requires |head| + |block| <= |whole| && whole[..|head| + |block|] == head + block
    ensures whole[|head|..|head| + |block|] == block
  {
    assert whole[|head|..|head| + |block|] == whole[..|head| + |block|][|head|..];
  }

  /** Where the block of country `i` starts in the flattened list. */
  function CountryOffset(cs: seq<CountryEntry>, i: nat): nat
    requires i <= |cs|
  {
    i + CityCount(cs[..i])
  }

  /** The block of country `i` (the country then its cities) sits at its offset. */
  lemma CountryBlockAt(cs: seq<CountryEntry>, i: nat)
    requires i < |cs|
    ensures CountryOffset(cs, i) + |CountryBlock(cs[i])| <= |CountriesItems(cs)|
    ensures CountriesItems(cs)[CountryOffset(cs, i)..CountryOffset(cs, i) + |CountryBlock(cs[i])|] == CountryBlock(cs[i])
  {
    CountriesItemsLength(cs[..i]);
    assert CountryOffset(cs, i) == |CountriesItems(cs[..i])|;
    BlockAfterItsPredecessors(cs, i);
  }

  lemma BlockAfterItsPredecessors(cs: seq<CountryEntry>, i: nat)
    requires i < |cs|
    ensures |CountriesItems(cs[..i])| + |CountryBlock(cs[i])| <= |CountriesItems(cs)|
    ensures CountriesItems(cs)[|CountriesItems(cs[..i])|..|CountriesItems(cs[..i])| + |CountryBlock(cs[i])|] == CountryBlock(cs[i])
  {
    CountriesItemsPrefix(cs, i + 1);
    CountriesItemsSnoc(cs, i);
    SliceAfterPrefix(CountriesItems(cs), CountriesItems(cs[..i]), CountryBlock(cs[i]));
  }

  /** The record of country `i`: type "country", its name, its image or "",
      and the synthesised description. */
  lemma CountryRecordAt(d: Dataset, i: nat)
    requires i < |OrEmpty(d.countries)|
    ensures var cs := OrEmpty(d.countries);
      CountryOffset(cs, i) < |SearchList(d)| &&
      SearchList(d)[CountryOffset(cs, i)]
        == Item(Country, cs[i].name, ImageOrEmpty(cs[i].imageUrl),
                "Explore top destinations in " + cs[i].name + ".")
  {
    var cs := OrEmpty(d.countries);
    CountryBlockAt(cs, i);
    assert CountryBlock(cs[i])[0] == CountriesItems(cs)[CountryOffset(cs, i)];
  }

  /** Country `i` is immediately followed by its own cities, in order, each
      copying name, image and description unchanged. */
  lemma CityRecordAt(d: Dataset, i: nat, j: nat)
    requires i < |OrEmpty(d.countries)| && j < |CitiesOf(OrEmpty(d.countries)[i])|
    ensures var cs := OrEmpty(d.countries); var city := CitiesOf(cs[i])[j];
      CountryOffset(cs, i) + 1 + j < |SearchList(d)| &&
      SearchList(d)[CountryOffset(cs, i) + 1 + j]
        == Item(City, city.name, city.imageUrl, city.description)
  {
    var cs := OrEmpty(d.countries);
    var off := CountryOffset(cs, i);
    var block := CountryBlock(cs[i]);
    CountryBlockAt(cs, i);
    assert block[1 + j] == PlaceItem(City, CitiesOf(cs[i])[j]);
    assert CountriesItems(cs)[off + 1 + j] == block[1 + j];
    assert SearchList(d)[off + 1 + j] == CountriesItems(cs)[off + 1 + j];
  }

  /** Temples follow every country and city record, copied unchanged and in order. */
  lemma TempleRecordAt(d: Dataset, t: nat)
    requires t < |OrEmpty(d.temples)|
    ensures var n := |OrEmpty(d.countries)| + CityCount(OrEmpty(d.countries)); var p := OrEmpty(d.temples)[t];
      n + t < |SearchList(d)| && SearchList(d)[n + t] == Item(Temple, p.name, p.imageUrl, p.description)
  {
    CountriesItemsLength(OrEmpty(d.countries));
  }

  /** Beaches come last, copied unchanged and in order. */
  lemma BeachRecordAt(d: Dataset, b: nat)
    requires b < |OrEmpty(d.beaches)|
    ensures var n := |OrEmpty(d.countries)| + CityCount(OrEmpty(d.countries)) + |OrEmpty(d.temples)|;
      var p := OrEmpty(d.beaches)[b];
      n + b < |SearchList(d)| && SearchList(d)[n + b] == Item(Beach, p.name, p.imageUrl, p.description)
  {
    CountriesItemsLength(OrEmpty(d.countries));
  }

  lemma {:induction false} CountriesItemsKinds(cs: seq<CountryEntry>)
    ensures forall x :: x in CountriesItems(cs) ==> x.kind == Country || x.kind == City
  {
    if cs != [] {
      CountriesItemsKinds(cs[..|cs| - 1]);
    }
  }

  /** The kind of a record determines its region of the list: countries and
      cities first, then temples, then beaches. */
  lemma KindLayout(d: Dataset, k: nat)
    requires k < |SearchList(d)|
    ensures var n := |OrEmpty(d.countries)| + CityCount(OrEmpty(d.countries));
      var m := n + |OrEmpty(d.temples)|;
      var x := SearchList(d)[k];
      ((x.kind == Country || x.kind == City) <==> k < n)
      && (x.kind == Temple <==> n <= k < m)
      && (x.kind == Beach <==> m <= k)
  {
    var cs := OrEmpty(d.countries);
    CountriesItemsLength(cs);
    CountriesItemsKinds(cs);
    var n := |cs| + CityCount(cs);
    if k < n {
      assert SearchList(d)[k] == CountriesItems(cs)[k];
    }
  }
}
