/**
 * The property store: immutable listing reference data with lookup by Id, a filtered
 * search and a "similar properties" query.
 */
module PropertyService {
  import opened Wrappers
  import opened JsText
  import opened Seqs

  /**
   * A listing. Bathrooms are counted in half-units (2.5 bathrooms is 5); timestamps are
   * integers. Latitude and longitude are floating point and are not part of this model.
   */
  datatype Property = Property(
    id: int,
    address: string,
    price: int,
    bedrooms: int,
    bathroomHalves: int,
    squareFeet: int,
    propertyType: string,
    listingDate: int,
    images: seq<string>,
    description: string,
    features: seq<string>,
    mlsNumber: string)

  /** The numeric keys a filter object may carry. */
  datatype NumericKey = PriceMin | PriceMax | BedroomsMin | BathroomsMin | SquareFeetMin

  /**
   * The filter object passed to `search`: an absent key is `None`; a numeric bound is
   * whatever `parseInt` produced, possibly `NaN`.
   */
  datatype SearchFilters = SearchFilters(
    searchLocation: Option<string>,
    priceMin: Option<ParsedInt>,
    priceMax: Option<ParsedInt>,
    bedroomsMin: Option<ParsedInt>,
    bathroomsMin: Option<ParsedInt>,
    squareFeetMin: Option<ParsedInt>,
    propertyTypes: Option<seq<string>>)

  /** The empty filter object `{}`. */
  const NoFilters := SearchFilters(None, None, None, None, None, None, None)

  /** The numeric entry of `f` under `k`. */
  function Bound(f: SearchFilters, k: NumericKey): Option<ParsedInt> {
    match k
    case PriceMin => f.priceMin
    case PriceMax => f.priceMax
    case BedroomsMin => f.bedroomsMin
    case BathroomsMin => f.bathroomsMin
    case SquareFeetMin => f.squareFeetMin
  }

  /** `Object.keys(filters).length > 0`. */
  predicate HasKeys(f: SearchFilters) {
    f.searchLocation.Some? || f.propertyTypes.Some? || exists k :: Bound(f, k).Some?
  }

  /** A filter object without keys is `{}`. */
  lemma NoKeysNoFilters(f: SearchFilters)
    requires !HasKeys(f)
    ensures f == NoFilters
  {
    assert Bound(f, PriceMin).None? && Bound(f, PriceMax).None? && Bound(f, BedroomsMin).None?;
    assert Bound(f, BathroomsMin).None? && Bound(f, SquareFeetMin).None?;
  }

  /** `x >= b` in JavaScript: false whenever `b` is `NaN`. */
  predicate AtLeast(x: int, b: ParsedInt) {
    b.Int? && x >= b.value
  }

  /** `x <= b` in JavaScript: false whenever `b` is `NaN`. */
  predicate AtMost(x: int, b: ParsedInt) {
    b.Int? && x <= b.value
  }

  /** The lower-cased address or MLS number contains `term`. */
  predicate LocationMatches(p: Property, term: string) {
    Contains(Lower(p.address), term) || Contains(Lower(p.mlsNumber), term)
  }

  /**
   * The meaning of a filter object, one key at a time: every supplied constraint holds of
   * `p`. An empty location term and an empty type list impose nothing.
   */
  predicate Satisfies(f: SearchFilters, p: Property) {
    && (f.searchLocation.Some? && f.searchLocation.value != "" ==>
          LocationMatches(p, Lower(f.searchLocation.value)))
    && (f.priceMin.Some? ==> AtLeast(p.price, f.priceMin.value))
    && (f.priceMax.Some? ==> AtMost(p.price, f.priceMax.value))
    && (f.bedroomsMin.Some? ==> AtLeast(p.bedrooms, f.bedroomsMin.value))
    && (f.bathroomsMin.Some? ==>
          f.bathroomsMin.value.Int? && p.bathroomHalves >= 2 * f.bathroomsMin.value.value)
    && (f.squareFeetMin.Some? ==> AtLeast(p.squareFeet, f.squareFeetMin.value))
    && (f.propertyTypes.Some? && f.propertyTypes.value != [] ==>
          p.propertyType in f.propertyTypes.value)
  }

  /** The properties of `s` that satisfy `f`, in the order of `s`: the meaning of `search`. */
  function Matching(s: seq<Property>, f: SearchFilters): (r: seq<Property>)
    ensures forall p :: p in r <==> p in s && Satisfies(f, p)
    ensures IsSubsequence(r, s)
  {
    if s == [] then []
    else
      var rest := Matching(s[1..], f);
      assert forall p :: p in s <==> p == s[0] || p in s[1..];
      if Satisfies(f, s[0]) then [s[0]] + rest else rest
  }

  /** One of the `filter` calls `search` chains. */
  datatype Criterion =
    | LocationContains(term: string)
    | PriceAtLeast(bound: ParsedInt)
    | PriceAtMost(bound: ParsedInt)
    | BedroomsAtLeast(bound: ParsedInt)
    | BathroomsAtLeast(bound: ParsedInt)
    | SquareFeetAtLeast(bound: ParsedInt)
    | TypeIn(types: seq<string>)

  predicate Meets(p: Property, c: Criterion) {
    match c
    case LocationContains(term) => LocationMatches(p, term)
    case PriceAtLeast(b) => AtLeast(p.price, b)
    case PriceAtMost(b) => AtMost(p.price, b)
    case BedroomsAtLeast(b) => AtLeast(p.bedrooms, b)
    case BathroomsAtLeast(b) => b.Int? && p.bathroomHalves >= 2 * b.value
    case SquareFeetAtLeast(b) => AtLeast(p.squareFeet, b)
    case TypeIn(types) => p.propertyType in types
  }

  /** `s.filter(property => Meets(property, c))`. */
  function Keep(s: seq<Property>, c: Criterion): (r: seq<Property>) {
    if s == [] then []
    else if Meets(s[0], c) then [s[0]] + Keep(s[1..], c)
    else Keep(s[1..], c)
  }

  /**
   * The criterion stage `k` (0 to 6) of `search` filters by, in the order the source
   * applies them, or `None` when the filter object does not switch that stage on.
   */
  function Stage(f: SearchFilters, k: nat): Option<Criterion> {
    if k == 0 then
      (if f.searchLocation.Some? && f.searchLocation.value != ""
       then Some(LocationContains(Lower(f.searchLocation.value))) else None)
    else if k == 1 then (if f.priceMin.Some? then Some(PriceAtLeast(f.priceMin.value)) else None)
    else if k == 2 then (if f.priceMax.Some? then Some(PriceAtMost(f.priceMax.value)) else None)
    else if k == 3 then (if f.bedroomsMin.Some? then Some(BedroomsAtLeast(f.bedroomsMin.value)) else None)
    else if k == 4 then (if f.bathroomsMin.Some? then Some(BathroomsAtLeast(f.bathroomsMin.value)) else None)
    else if k == 5 then (if f.squareFeetMin.Some? then Some(SquareFeetAtLeast(f.squareFeetMin.value)) else None)
    else if k == 6 then
      (if f.propertyTypes.Some? && |f.propertyTypes.value| > 0 then Some(TypeIn(f.propertyTypes.value)) else None)
    else None
  }

  predicate PassesStage(f: SearchFilters, k: nat, p: Property) {
    Stage(f, k).None? || Meets(p, Stage(f, k).value)
  }

  /** `p` survives the first `n` stages. */
  predicate PassesStages(f: SearchFilters, n: nat, p: Property) {
    forall k :: 0 <= k < n ==> PassesStage(f, k, p)
  }

  /** `x`, filtered by `stage` when that stage is on. */
  function ApplyStage(x: seq<Property>, stage: Option<Criterion>): seq<Property> {
    if stage.Some? then Keep(x, stage.value) else x
  }

  /** What `search` has left after its first `n` stages, applied one after the other. */
  function AfterStages(s: seq<Property>, f: SearchFilters, n: nat): seq<Property> {
    if n == 0 then s else ApplyStage(AfterStages(s, f, n - 1), Stage(f, n - 1))
  }

  /** The properties of `s` that pass the first `n` stages, in one pass. */
  function PassingStages(s: seq<Property>, f: SearchFilters, n: nat): seq<Property> {
    if s == [] then []
    else if PassesStages(f, n, s[0]) then [s[0]] + PassingStages(s[1..], f, n)
    else PassingStages(s[1..], f, n)
  }

  /** One more stage filters the survivors of the earlier ones by its criterion. */
  lemma {:induction false} ApplyStagePassing(s: seq<Property>, f: SearchFilters, n: nat)
    ensures ApplyStage(PassingStages(s, f, n), Stage(f, n)) == PassingStages(s, f, n + 1)
  {
    if s != [] {
      ApplyStagePassing(s[1..], f, n);
      var p := s[0];
      assert PassesStages(f, n + 1, p) <==> PassesStages(f, n, p) && PassesStage(f, n, p) by {
        if PassesStages(f, n, p) && PassesStage(f, n, p) {
          forall k | 0 <= k < n + 1 ensures PassesStage(f, k, p) {
            if k < n {
              assert PassesStage(f, k, p);
            }
          }
        }
      }
    }
    else {
      assert ApplyStage([], Stage(f, n)) == [];
    }
  }

  /** Applying the stages one after the other keeps exactly what passes all of them. */
  lemma {:induction false} StagesInTurn(s: seq<Property>, f: SearchFilters, n: nat)
    ensures AfterStages(s, f, n) == PassingStages(s, f, n)
  {
    if n == 0 {
      PassingNoStages(s, f);
    } else {
      StagesInTurn(s, f, n - 1);
      ApplyStagePassing(s, f, n - 1);
    }
  }

  lemma {:induction false} PassingNoStages(s: seq<Property>, f: SearchFilters)
    ensures PassingStages(s, f, 0) == s
  {
    if s != [] {
      PassingNoStages(s[1..], f);
    }
  }

  /** Passing all seven stages is exactly satisfying the filter object. */
  lemma StagesMeaning(f: SearchFilters, p: Property)
    ensures PassesStages(f, 7, p) <==> Satisfies(f, p)
  {
    if Satisfies(f, p) {
      forall k | 0 <= k < 7 ensures PassesStage(f, k, p) {
      }
    } else {
      assert !(PassesStage(f, 0, p) && PassesStage(f, 1, p) && PassesStage(f, 2, p) &&
               PassesStage(f, 3, p) && PassesStage(f, 4, p) && PassesStage(f, 5, p) &&
               PassesStage(f, 6, p));
    }
  }

  /** The seven-stage pipeline of `search` is the one-pass filter by `Satisfies`. */
  lemma {:induction false} SearchPipeline(s: seq<Property>, f: SearchFilters)
    ensures AfterStages(s, f, 7) == Matching(s, f)
  {
    StagesInTurn(s, f, 7);
    PassingAllStages(s, f);
  }

  lemma {:induction false} PassingAllStages(s: seq<Property>, f: SearchFilters)
    ensures PassingStages(s, f, 7) == Matching(s, f)
  {
    if s != [] {
      PassingAllStages(s[1..], f);
      StagesMeaning(f, s[0]);
    }
  }

  /** With the empty filter object `search` returns the whole collection. */
  lemma {:induction false} MatchingNoFilters(s: seq<Property>)
    ensures Matching(s, NoFilters) == s
  {
    if s != [] {
      MatchingNoFilters(s[1..]);
    }
  }

  /** The Id lookup `find(item => item.Id === key)`: the first index, or -1. */
  function IndexOfId(s: seq<Property>, key: ParsedInt): (i: int)
    ensures -1 <= i < |s|
    ensures i >= 0 ==> Int(s[i].id) == key
    ensures forall j :: 0 <= j < |s| && (i < 0 || j < i) ==> Int(s[j].id) != key
  {
    if s == [] then -1
    else if Int(s[0].id) == key then 0
    else
      var i := IndexOfId(s[1..], key);
      if i < 0 then -1 else i + 1
  }

  function Abs(x: int): nat {
    if x < 0 then -x else x
  }

  /**
   * `x` is similar to `src`: another Id, the same type, a price within 20% of the source
   * price (`|d| <= 0.2 * P` is `5 * |d| <= P`) and at most one bedroom more or fewer.
   */
  predicate IsSimilar(src: Property, x: Property) {
    && x.id != src.id
    && x.propertyType == src.propertyType
    && 5 * Abs(x.price - src.price) <= src.price
    && Abs(x.bedrooms - src.bedrooms) <= 1
  }

  function SimilarTo(s: seq<Property>, src: Property): (r: seq<Property>)
    ensures forall x :: x in r <==> x in s && IsSimilar(src, x)
    ensures IsSubsequence(r, s)
  {
    if s == [] then []
    else
      var rest := SimilarTo(s[1..], src);
      assert forall x :: x in s <==> x == s[0] || x in s[1..];
      if IsSimilar(src, s[0]) then [s[0]] + rest else rest
  }

  /** The `limit` of `getSimilar` when the caller gives none. */
  const DefaultSimilarLimit := 4

  /** The end index of `Array.prototype.slice(0, limit)`; a negative limit counts from the end. */
  function SliceEnd(length: nat, limit: int): (e: nat)
    ensures e <= length
    ensures 0 <= limit ==> e == if limit < length then limit else length
    ensures limit < 0 ==> e == if length + limit < 0 then 0 else length + limit
  {
    if limit < 0 then (if length + limit < 0 then 0 else length + limit)
    else if limit < length then limit
    else length
  }

  /** The property store, loaded once with its dataset and never mutated. */
  class PropertyStore {
    const properties: seq<Property>

    constructor (data: seq<Property>)
      ensures properties == data
    {
      properties := data;
    }

    /** `getAll`: a copy of the whole collection, in stored order. */
    function GetAll(): (r: seq<Property>)
      ensures r == properties
    {
      properties
    }

    /** `getById(id)`: the first property whose Id is `parseInt(id, 10)`. */
    function GetById(id: string): (r: Result<Property>)
      ensures r.Success? <==> exists i :: 0 <= i < |properties| && Int(properties[i].id) == ParseInt(id)
      ensures r.Success? ==> r.value in properties && Int(r.value.id) == ParseInt(id)
      ensures r.Success? ==> exists i :: 0 <= i < |properties| && properties[i] == r.value &&
                                forall j :: 0 <= j < i ==> Int(properties[j].id) != ParseInt(id)
      ensures r.Failure? ==> r.error == NotFound("Property not found")
    {
      var i := IndexOfId(properties, ParseInt(id));
      if i < 0 then Failure(NotFound("Property not found")) else Success(properties[i])
    }

    /** `search(filters)`: seven conditional `filter` stages over a local copy. */
    method Search(f: SearchFilters) returns (r: seq<Property>)
      ensures r == Matching(properties, f)
    {
      var filtered := properties;
      if f.searchLocation.Some? && f.searchLocation.value != "" {
        var searchTerm := Lower(f.searchLocation.value);
        filtered := Keep(filtered, LocationContains(searchTerm));
      }
      assert filtered == AfterStages(properties, f, 1);
      if f.priceMin.Some? {
        filtered := Keep(filtered, PriceAtLeast(f.priceMin.value));
      }
      assert filtered == AfterStages(properties, f, 2);
      if f.priceMax.Some? {
        filtered := Keep(filtered, PriceAtMost(f.priceMax.value));
      }
      assert filtered == AfterStages(properties, f, 3);
      if f.bedroomsMin.Some? {
        filtered := Keep(filtered, BedroomsAtLeast(f.bedroomsMin.value));
      }
      assert filtered == AfterStages(properties, f, 4);
      if f.bathroomsMin.Some? {
        filtered := Keep(filtered, BathroomsAtLeast(f.bathroomsMin.value));
      }
      assert filtered == AfterStages(properties, f, 5);
      if f.squareFeetMin.Some? {
        filtered := Keep(filtered, SquareFeetAtLeast(f.squareFeetMin.value));
      }
      assert filtered == AfterStages(properties, f, 6);
      if f.propertyTypes.Some? && |f.propertyTypes.value| > 0 {
        filtered := Keep(filtered, TypeIn(f.propertyTypes.value));
      }
      assert filtered == AfterStages(properties, f, 7);
      SearchPipeline(properties, f);
      r := filtered;
    }

    /**
     * `getSimilar(propertyId, limit)`: the properties similar to the one whose Id is
     * `parseInt(propertyId, 10)`, in collection order, cut at `limit`; empty when there is
     * no such property.
     */
    function GetSimilar(propertyId: string, limit: int): (r: seq<Property>)
      ensures IndexOfId(properties, ParseInt(propertyId)) < 0 ==> r == []
      ensures var i := IndexOfId(properties, ParseInt(propertyId));
              i >= 0 ==> var similar := SimilarTo(properties, properties[i]);
                         r == similar[..SliceEnd(|similar|, limit)]
      ensures IsSubsequence(r, properties)
      ensures 0 <= limit ==> |r| <= limit
      ensures var i := IndexOfId(properties, ParseInt(propertyId));
              i >= 0 ==> forall x :: x in r ==> IsSimilar(properties[i], x)
      ensures var i := IndexOfId(properties, ParseInt(propertyId));
              i >= 0 && 0 <= limit && |r| < limit ==>
                forall x :: x in properties && IsSimilar(properties[i], x) ==> x in r
    {
      var i := IndexOfId(properties, ParseInt(propertyId));
      if i < 0 then []
      else
        var similar := SimilarTo(properties, properties[i]);
        var e := SliceEnd(|similar|, limit);
        PrefixOfSubsequence(similar, properties, e);
        assert forall x :: x in similar[..e] ==> x in similar;
        similar[..e]
    }

    /** `getSimilar(propertyId)` with the limit left at its default. */
    function GetSimilarDefault(propertyId: string): (r: seq<Property>)
      ensures r == GetSimilar(propertyId, DefaultSimilarLimit)
      ensures |r| <= DefaultSimilarLimit
    {
      GetSimilar(propertyId, DefaultSimilarLimit)
    }
  }
}
