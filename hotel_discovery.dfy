/**
 * The hotel search page (src/pages/HotelDiscovery.tsx): the fetched hotels
 * narrowed by a free-text query, a city and a price range. The visible list is
 * recomputed by an effect whenever one of those changes.
 */
module HotelDiscovery {
  import opened Lists
  import opened Text
  import opened Api

  datatype Hotel = Hotel(id: int, name: string, city: string, location: string, pricePerNight: real)

  const AllCities: string := "All Cities"
  /** The slider's bounds, also the initial and the cleared range. */
  const PriceFloor: int := 0
  const PriceCeiling: int := 500

  predicate MatchesQuery(h: Hotel, query: string) {
    ContainsCI(h.name, query) || ContainsCI(h.location, query) || ContainsCI(h.city, query)
  }

  /** The city filter is in force only for a chosen city other than "All Cities". */
  predicate CityFilterOn(city: string) {
    city != "" && city != AllCities
  }

  predicate InPriceRange(h: Hotel, lo: int, hi: int) {
    lo as real <= h.pricePerNight <= hi as real
  }

  /** `applyFilters`: the text filter, then the city filter, then the price filter. */
  function ApplyFilters(hotels: seq<Hotel>, query: string, city: string, lo: int, hi: int): seq<Hotel>
  {
    var byQuery := if query != "" then Filter(hotels, h => MatchesQuery(h, query)) else hotels;
    var byCity := if CityFilterOn(city) then Filter(byQuery, (h: Hotel) => h.city == city) else byQuery;
    Filter(byCity, h => InPriceRange(h, lo, hi))
  }

  /** A hotel passes all three tests. */
  predicate Visible(h: Hotel, query: string, city: string, lo: int, hi: int) {
    (query == "" || MatchesQuery(h, query)) &&
    (!CityFilterOn(city) || h.city == city) &&
    InPriceRange(h, lo, hi)
  }

  /**
   * The chain of filters selects exactly the hotels that pass all three tests,
   * in their original order: the result is one filter by the conjunction.
   */
  lemma ApplyFiltersSelectsVisible(hotels: seq<Hotel>, query: string, city: string, lo: int, hi: int)
    ensures ApplyFilters(hotels, query, city, lo, hi) == Filter(hotels, h => Visible(h, query, city, lo, hi))
    ensures IsSubsequence(ApplyFilters(hotels, query, city, lo, hi), hotels)
  {
    var q := (h: Hotel) => query == "" || MatchesQuery(h, query);
    var c := (h: Hotel) => !CityFilterOn(city) || h.city == city;
    var p := (h: Hotel) => InPriceRange(h, lo, hi);
    var byQuery := if query != "" then Filter(hotels, h => MatchesQuery(h, query)) else hotels;
    assert byQuery == Filter(hotels, q) by {
      if query == "" {
        FilterAll(hotels, q);
      } else {
        FilterCongruent(hotels, h => MatchesQuery(h, query), q);
      }
    }
    var byCity := if CityFilterOn(city) then Filter(byQuery, (h: Hotel) => h.city == city) else byQuery;
    assert byCity == Filter(byQuery, c) by {
      if CityFilterOn(city) {
        FilterCongruent(byQuery, (h: Hotel) => h.city == city, c);
      } else {
        FilterAll(byQuery, c);
      }
    }
    var qc := (h: Hotel) => q(h) && c(h);
    var v := (h: Hotel) => Visible(h, query, city, lo, hi);
    assert byCity == Filter(hotels, qc) by {
      FilterFilter(hotels, q, c, qc);
    }
    assert Filter(byCity, p) == Filter(hotels, v) by {
      FilterFilter(hotels, qc, p, v);
    }
    FilterIsSubsequence(hotels, v);
  }

  /** With no query, no city and the full range, every hotel priced within the slider's bounds is shown. */
  lemma NoFiltersShowsAllInRange(hotels: seq<Hotel>, h: Hotel)
    requires h in hotels && PriceFloor as real <= h.pricePerNight <= PriceCeiling as real
    ensures h in ApplyFilters(hotels, "", "", PriceFloor, PriceCeiling)
  {
  }

  class DiscoveryPage {
    var hotels: seq<Hotel>
    var filteredHotels: seq<Hotel>
    var searchQuery: string
    var selectedCity: string
    var priceLo: int
    var priceHi: int
    var loading: bool

    /** Once the filter effect has run, the visible list is the filtered list. */
    ghost predicate Valid()
      reads this
    {
      filteredHotels == ApplyFilters(hotels, searchQuery, selectedCity, priceLo, priceHi)
    }

    /** The query starts from the `search` parameter (`get('search') || ''`). */
    constructor (searchParam: Option<string>)
      ensures Valid() && loading
      ensures hotels == [] && filteredHotels == []
      ensures searchQuery == (if searchParam.Some? then searchParam.value else "")
      ensures selectedCity == "" && priceLo == PriceFloor && priceHi == PriceCeiling
    {
      hotels := [];
      filteredHotels := [];
      searchQuery := if searchParam.Some? then searchParam.value else "";
      selectedCity := "";
      priceLo, priceHi := PriceFloor, PriceCeiling;
      loading := true;
    }

    method Refilter()
      modifies this`filteredHotels
      ensures Valid()
    {
      filteredHotels := ApplyFilters(hotels, searchQuery, selectedCity, priceLo, priceHi);
    }

    /** The fetch effect: the hotels, or none when the call fails; loading ends either way. */
    method LoadHotels(result: Response<seq<Hotel>>)
      modifies this`hotels, this`filteredHotels, this`loading
      ensures Valid() && !loading
      ensures hotels == if result.Ok? then result.payload else []
    {
      hotels := if result.Ok? then result.payload else [];
      loading := false;
      Refilter();
    }

    method SetSearchQuery(query: string)
      modifies this`searchQuery, this`filteredHotels
      ensures Valid() && searchQuery == query
    {
      searchQuery := query;
      Refilter();
    }

    method SelectCity(city: string)
      modifies this`selectedCity, this`filteredHotels
      ensures Valid() && selectedCity == city
    {
      selectedCity := city;
      Refilter();
    }

    /** The price slider (a range input from 0 to 500) moves only the upper bound. */
    method SlidePrice(value: int)
      requires PriceFloor <= value <= PriceCeiling
      modifies this`priceHi, this`filteredHotels
      ensures Valid() && priceHi == value && priceLo == old(priceLo)
    {
      priceHi := value;
      Refilter();
    }

    /** "Clear all filters": back to the initial query, city and range. */
    method ClearFilters()
      modifies this`searchQuery, this`selectedCity, this`priceLo, this`priceHi, this`filteredHotels
      ensures Valid()
      ensures searchQuery == "" && selectedCity == "" && priceLo == PriceFloor && priceHi == PriceCeiling
    {
      searchQuery := "";
      selectedCity := "";
      priceLo, priceHi := PriceFloor, PriceCeiling;
      Refilter();
    }
  }
}
