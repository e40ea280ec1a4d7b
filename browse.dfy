/**
 * The browse page: how it loads listings for the current filter object and how it
 * orders them for the selected sort option.
 */
module Browse {
  import opened Seqs
  import opened PropertyService

  /**
   * The sort key each option orders by, ascending: a comparator `(a, b) => key(a) - key(b)`
   * is this key's difference, and an unknown option compares everything as equal.
   */
  function Rank(sortBy: string, p: Property): int {
    if sortBy == "newest" then -p.listingDate
    else if sortBy == "oldest" then p.listingDate
    else if sortBy == "price-low" then p.price
    else if sortBy == "price-high" then -p.price
    else if sortBy == "beds-high" then -p.bedrooms
    else if sortBy == "sqft-high" then -p.squareFeet
    else 0
  }

  /** `Rank` for one option, as a key function. */
  function RankKey(sortBy: string): Property -> int {
    p => Rank(sortBy, p)
  }

  /** The options of the sort menu. */
  predicate IsSortOption(sortBy: string) {
    sortBy in {"newest", "oldest", "price-low", "price-high", "beds-high", "sqft-high"}
  }

  /** The comparator `switch`: negative when `a` goes first, positive when `b` does. */
  function Compare(sortBy: string, a: Property, b: Property): (c: int)
    ensures c == Rank(sortBy, a) - Rank(sortBy, b)
  {
    match sortBy
    case "newest" => b.listingDate - a.listingDate
    case "oldest" => a.listingDate - b.listingDate
    case "price-low" => a.price - b.price
    case "price-high" => b.price - a.price
    case "beds-high" => b.bedrooms - a.bedrooms
    case "sqft-high" => b.squareFeet - a.squareFeet
    case _ => 0
  }

  /**
   * `[...filteredProperties].sort(comparator)`: a stable sort of a copy, so the loaded
   * list itself is left as it was.
   */
  function SortedProperties(ps: seq<Property>, sortBy: string): (r: seq<Property>)
    ensures multiset(r) == multiset(ps)
    ensures forall i, j :: 0 <= i < j < |r| ==> Compare(sortBy, r[i], r[j]) <= 0
    ensures sortBy == "newest" ==> forall i, j :: 0 <= i < j < |r| ==> r[i].listingDate >= r[j].listingDate
    ensures sortBy == "oldest" ==> forall i, j :: 0 <= i < j < |r| ==> r[i].listingDate <= r[j].listingDate
    ensures sortBy == "price-low" ==> forall i, j :: 0 <= i < j < |r| ==> r[i].price <= r[j].price
    ensures sortBy == "price-high" ==> forall i, j :: 0 <= i < j < |r| ==> r[i].price >= r[j].price
    ensures sortBy == "beds-high" ==> forall i, j :: 0 <= i < j < |r| ==> r[i].bedrooms >= r[j].bedrooms
    ensures sortBy == "sqft-high" ==> forall i, j :: 0 <= i < j < |r| ==> r[i].squareFeet >= r[j].squareFeet
    ensures !IsSortOption(sortBy) ==> r == ps
    ensures (forall i, j :: 0 <= i < j < |ps| ==> Compare(sortBy, ps[i], ps[j]) <= 0) ==> r == ps
    ensures forall k :: WithKey(r, RankKey(sortBy), k) == WithKey(ps, RankKey(sortBy), k)
  {
    var key := RankKey(sortBy);
    SortByKeySorted(ps, key);
    SortByKeyStable(ps, key);
    var r := SortByKey(ps, key);
    assert forall i, j :: 0 <= i < j < |r| ==> key(r[i]) <= key(r[j]);
    if SortedByKey(ps, key) then
      SortByKeyOfSorted(ps, key);
      r
    else r
  }

  /**
   * `loadProperties`: `search(filters)` when the filter object has a key and `getAll()`
   * otherwise; either way the listings are exactly those the filter object admits.
   */
  method LoadProperties(store: PropertyStore, filters: SearchFilters) returns (result: seq<Property>)
    ensures result == Matching(store.properties, filters)
    ensures forall p :: p in result <==> p in store.properties && Satisfies(filters, p)
  {
    if HasKeys(filters) {
      result := store.Search(filters);
    } else {
      NoKeysNoFilters(filters);
      MatchingNoFilters(store.properties);
      result := store.GetAll();
    }
  }
}
