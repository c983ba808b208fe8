/**
 * A worked example: one country "India" with the cities Delhi and Mumbai,
 * one temple and one beach.
 */
module Scenario {
  import opened Wrappers
  import opened Text
  import opened Catalog
  import opened Query
  import opened Feedback

  const Delhi := Place("Delhi", "delhi.jpg", "Capital of India.")
  const Mumbai := Place("Mumbai", "mumbai.jpg", "Coastal financial capital.")
  const India := CountryEntry("India", None, Some([Delhi, Mumbai]))
  const GoldenTemple := Place("Golden Temple", "temple.jpg", "Sacred site in Amritsar.")
  const GoaBeach := Place("Goa Beach", "goa.jpg", "Sunny sands.")
  const Sample := Dataset(Some([India]), Some([GoldenTemple]), Some([GoaBeach]))

  /** The five records of the sample, in list order. */
  const IndiaRecord := Item(Country, "India", "", "Explore top destinations in India.")
  const DelhiRecord := Item(City, "Delhi", "delhi.jpg", "Capital of India.")
  const MumbaiRecord := Item(City, "Mumbai", "mumbai.jpg", "Coastal financial capital.")
  const TempleRecord := Item(Temple, "Golden Temple", "temple.jpg", "Sacred site in Amritsar.")
  const BeachRecord := Item(Beach, "Goa Beach", "goa.jpg", "Sunny sands.")

  lemma SampleList()
    ensures CountryItem(India) == IndiaRecord
    ensures SearchList(Sample) == [IndiaRecord, DelhiRecord, MumbaiRecord, TempleRecord, BeachRecord]
  {
    assert [India][..0] == [];
    assert CountriesItems([India]) == CountryBlock(India);
    assert CountryDescription("India") == "Explore top destinations in India.";
    assert CountryItem(India) == IndiaRecord;
    assert PlaceItems(City, [Delhi, Mumbai]) == [PlaceItem(City, Delhi), PlaceItem(City, Mumbai)];
    assert PlaceItems(Temple, [GoldenTemple]) == [PlaceItem(Temple, GoldenTemple)];
    assert PlaceItems(Beach, [GoaBeach]) == [PlaceItem(Beach, GoaBeach)];
  }

  /** A query that is already trimmed lower-case text is compared as it is. */
  lemma PlainQuery(q: string)
    requires q != [] && forall i :: 0 <= i < |q| ==> 'a' <= q[i] <= 'z'
    ensures NormalizeQuery(q) == q
  {
    TrimOfTrimmed(q);
  }

  lemma ScenarioBeaches()
    ensures Search(Some(Sample), "beaches") == Results([BeachRecord])
  {
    PlainQuery("beaches");
    BeachQuery(Sample, "beaches");
  }

  lemma ScenarioCountry()
    ensures Search(Some(Sample), "country") == Results([IndiaRecord])
  {
    PlainQuery("country");
    CountryQuery(Sample, "country");
    SampleList();
  }

  lemma ScenarioEmpty()
    ensures Search(Some(Sample), "") == EmptyQuery
    ensures Status(Search(Some(Sample), "")) == InvalidQuery
  {
  }
}
