/**
 * The filter panel: the form state, its normalisation into the filter object `search`
 * accepts, the property-type checkboxes, the clear button and the active-filter badge.
 */
module PropertyFilters {
  import opened Wrappers
  import opened JsText
  import opened Seqs
  import opened PropertyService

  /** The panel's form state: every numeric field holds the text the user chose or typed. */
  datatype FilterForm = FilterForm(
    priceMin: string,
    priceMax: string,
    bedroomsMin: string,
    bathroomsMin: string,
    squareFeetMin: string,
    propertyTypes: seq<string>,
    searchLocation: string)

  /** The state the panel starts in and `clearFilters` restores. */
  const InitialForm := FilterForm("", "", "", "", "", [], "")

  /** The numeric keys in the order `applyFilters` converts them. */
  const NumericKeys: seq<NumericKey> := [PriceMin, PriceMax, BedroomsMin, BathroomsMin, SquareFeetMin]

  /** The text of the numeric field `k`. */
  function FieldText(form: FilterForm, k: NumericKey): string {
    match k
    case PriceMin => form.priceMin
    case PriceMax => form.priceMax
    case BedroomsMin => form.bedroomsMin
    case BathroomsMin => form.bathroomsMin
    case SquareFeetMin => form.squareFeetMin
  }

  /** The position of `k` in `NumericKeys`. */
  function KeyIndex(k: NumericKey): (i: nat)
    ensures i < |NumericKeys| && NumericKeys[i] == k
    ensures forall j :: 0 <= j < |NumericKeys| && NumericKeys[j] == k ==> j == i
  {
    match k
    case PriceMin => 0
    case PriceMax => 1
    case BedroomsMin => 2
    case BathroomsMin => 3
    case SquareFeetMin => 4
  }

  /** What a numeric field contributes: nothing when empty, its `parseInt` otherwise. */
  function TextBound(text: string): (b: Option<ParsedInt>)
    ensures b.Some? <==> text != ""
    ensures b.Some? ==> b.value == ParseInt(text)
  {
    if text == "" then None else Some(ParseInt(text))
  }

  /**
   * What `applyFilters` hands to `search`: the empty fields are dropped and every
   * remaining numeric field is replaced by its base-10 `parseInt`.
   */
  function Normalized(form: FilterForm): (f: SearchFilters)
    ensures f.searchLocation.Some? <==> form.searchLocation != ""
    ensures f.searchLocation.Some? ==> f.searchLocation.value == form.searchLocation
    ensures f.propertyTypes.Some? <==> form.propertyTypes != []
    ensures f.propertyTypes.Some? ==> f.propertyTypes.value == form.propertyTypes
  {
    var f := SearchFilters(
      if form.searchLocation == "" then None else Some(form.searchLocation),
      TextBound(form.priceMin), TextBound(form.priceMax), TextBound(form.bedroomsMin),
      TextBound(form.bathroomsMin), TextBound(form.squareFeetMin),
      if form.propertyTypes == [] then None else Some(form.propertyTypes));
    f
  }

  /** Each numeric key of the normalised object is the field's bound: present exactly when the field is non-empty, holding its `parseInt`. */
  lemma NormalizedBound(form: FilterForm, k: NumericKey)
    ensures Bound(Normalized(form), k) == TextBound(FieldText(form, k))
  {
  }

  /** The numeric fields that survive the first step of `applyFilters`, still as text. */
  function NonEmptyText(form: FilterForm): (raw: map<NumericKey, string>)
    ensures forall k :: k in raw <==> FieldText(form, k) != ""
    ensures forall k :: k in raw ==> raw[k] == FieldText(form, k)
  {
    map k | k in NumericKeys && FieldText(form, k) != "" :: FieldText(form, k)
  }

  /** `f` with its entry under `k` set to `b`. */
  function WithBound(f: SearchFilters, k: NumericKey, b: Option<ParsedInt>): (r: SearchFilters)
    ensures Bound(r, k) == b
    ensures forall j :: j != k ==> Bound(r, j) == Bound(f, j)
    ensures r.searchLocation == f.searchLocation && r.propertyTypes == f.propertyTypes
  {
    match k
    case PriceMin => f.(priceMin := b)
    case PriceMax => f.(priceMax := b)
    case BedroomsMin => f.(bedroomsMin := b)
    case BathroomsMin => f.(bathroomsMin := b)
    case SquareFeetMin => f.(squareFeetMin := b)
  }

  /** Filter objects that agree on every key are equal. */
  lemma SameFilters(f: SearchFilters, g: SearchFilters)
    requires forall k :: Bound(f, k) == Bound(g, k)
    requires f.searchLocation == g.searchLocation && f.propertyTypes == g.propertyTypes
    ensures f == g
  {
    assert Bound(f, PriceMin) == Bound(g, PriceMin) && Bound(f, PriceMax) == Bound(g, PriceMax);
    assert Bound(f, BedroomsMin) == Bound(g, BedroomsMin) && Bound(f, BathroomsMin) == Bound(g, BathroomsMin);
    assert Bound(f, SquareFeetMin) == Bound(g, SquareFeetMin);
  }

  /**
   * `applyFilters`: keeps the non-empty fields, then walks the numeric keys and replaces
   * the text of each one present by its `parseInt`.
   */
  method ApplyFilters(form: FilterForm) returns (clean: SearchFilters)
    ensures clean == Normalized(form)
  {
    var raw := NonEmptyText(form);
    clean := SearchFilters(
      if form.searchLocation == "" then None else Some(form.searchLocation),
      None, None, None, None, None,
      if form.propertyTypes == [] then None else Some(form.propertyTypes));
    for i := 0 to |NumericKeys|
      invariant forall k :: Bound(clean, k) == if KeyIndex(k) < i then TextBound(FieldText(form, k)) else None
      invariant clean.searchLocation == Normalized(form).searchLocation
      invariant clean.propertyTypes == Normalized(form).propertyTypes
    {
      var key := NumericKeys[i];
      assert KeyIndex(key) == i;
      if key in raw && raw[key] != "" {
        clean := WithBound(clean, key, Some(ParseInt(raw[key])));
      }
    }
    forall k ensures Bound(clean, k) == Bound(Normalized(form), k) {
      NormalizedBound(form, k);
    }
    SameFilters(clean, Normalized(form));
  }

  /**
   * The bathroom menu offers half steps, but `parseInt` truncates them: choosing "n.5"
   * asks `search` for at least n bathrooms.
   */
  lemma HalfBathroomChoiceTruncated(form: FilterForm, n: nat)
    requires form.bathroomsMin == NatToString(n) + ".5"
    ensures Normalized(form).bathroomsMin == Some(Int(n))
  {
    NormalizedBound(form, BathroomsMin);
    ParseIntIgnoresRest(n, ".5");
  }

  /** So a listing with exactly n bathrooms passes the "n.5 or more" choice. */
  lemma HalfBathroomChoiceAdmitsFewer(form: FilterForm, n: nat, p: Property)
    requires form.bathroomsMin == NatToString(n) + ".5"
    requires p.bathroomHalves == 2 * n
    ensures p.bathroomHalves < 2 * n + 1
    ensures Meets(p, BathroomsAtLeast(Normalized(form).bathroomsMin.value))
  {
    HalfBathroomChoiceTruncated(form, n);
  }

  /** `types.filter(t => t !== type)`. */
  function RemoveAll(types: seq<string>, t: string): (r: seq<string>)
    ensures forall x :: x in r <==> x in types && x != t
    ensures IsSubsequence(r, types)
    ensures forall x :: multiset(r)[x] == if x == t then 0 else multiset(types)[x]
  {
    if types == [] then []
    else
      var rest := RemoveAll(types[1..], t);
      assert forall x :: x in types <==> x == types[0] || x in types[1..];
      assert types == [types[0]] + types[1..];
      if types[0] != t then [types[0]] + rest else rest
  }

  /** `handlePropertyTypeToggle(type)` on the checked list. */
  function ToggleType(types: seq<string>, t: string): (r: seq<string>)
    ensures t !in types ==> r == types + [t]
    ensures t in types ==> t !in r && IsSubsequence(r, types)
    ensures forall x :: x != t ==> (x in r <==> x in types)
    ensures t in types ==> forall x :: x != t ==> multiset(r)[x] == multiset(types)[x]
  {
    if t in types then RemoveAll(types, t) else types + [t]
  }

  /** Toggling the same type twice restores whether it is checked, and touches no other type. */
  lemma ToggleTwice(types: seq<string>, t: string)
    ensures t in ToggleType(ToggleType(types, t), t) <==> t in types
    ensures forall x :: x in ToggleType(ToggleType(types, t), t) <==> x in types
  {
  }

  /** Toggling a type that was not checked and toggling it back gives the list back exactly. */
  lemma ToggleTwiceAbsent(types: seq<string>, t: string)
    requires t !in types
    ensures ToggleType(ToggleType(types, t), t) == types
  {
    var once := types + [t];
    RemoveAllAbsent(types, t);
    RemoveAllSplit(types, [t], t);
    assert RemoveAll([t], t) == [];
    assert types + [] == types;
  }

  lemma {:induction false} RemoveAllAbsent(types: seq<string>, t: string)
    requires t !in types
    ensures RemoveAll(types, t) == types
  {
    if types != [] {
      RemoveAllAbsent(types[1..], t);
      assert [types[0]] + types[1..] == types;
    }
  }

  lemma {:induction false} RemoveAllSplit(a: seq<string>, b: seq<string>, t: string)
    ensures RemoveAll(a + b, t) == RemoveAll(a, t) + RemoveAll(b, t)
  {
    if a == [] {
      assert a + b == b;
    } else {
      assert (a + b)[1..] == a[1..] + b;
      RemoveAllSplit(a[1..], b, t);
    }
  }

  /** One entry of `Object.values(filters)`. */
  datatype FieldValue = Text(text: string) | List(items: seq<string>)

  /** `Object.values(filters)`, in the order the state object declares its fields. */
  function Values(form: FilterForm): seq<FieldValue> {
    [Text(form.priceMin), Text(form.priceMax), Text(form.bedroomsMin), Text(form.bathroomsMin),
     Text(form.squareFeetMin), List(form.propertyTypes), Text(form.searchLocation)]
  }

  /** A field counts as set when its text is non-empty or its list has an element. */
  predicate IsActive(v: FieldValue) {
    match v
    case Text(s) => s != ""
    case List(items) => |items| > 0
  }

  /** `hasActiveFilters`: true exactly when some field holds a value. */
  function HasActiveFilters(form: FilterForm): (r: bool)
    ensures r <==> AnyFieldSet(form)
  {
    var vs := Values(form);
    // the first field that holds a value, when there is one
    var first := if form.priceMin != "" then 0 else if form.priceMax != "" then 1
      else if form.bedroomsMin != "" then 2 else if form.bathroomsMin != "" then 3
      else if form.squareFeetMin != "" then 4 else if form.propertyTypes != [] then 5 else 6;
    assert AnyFieldSet(form) ==> IsActive(vs[first]);
    exists i :: 0 <= i < |vs| && IsActive(vs[i])
  }

  function CountActive(vs: seq<FieldValue>): (n: nat)
    ensures n <= |vs|
  {
    if vs == [] then 0 else (if IsActive(vs[0]) then 1 else 0) + CountActive(vs[1..])
  }

  /** The number the filter button shows beside its label. */
  function ActiveCount(form: FilterForm): (n: nat)
    ensures n <= 7
  {
    CountActive(Values(form))
  }

  lemma {:induction false} CountActivePositive(vs: seq<FieldValue>)
    ensures CountActive(vs) > 0 <==> exists i :: 0 <= i < |vs| && IsActive(vs[i])
  {
    if vs != [] {
      CountActivePositive(vs[1..]);
      if exists i :: 0 <= i < |vs[1..]| && IsActive(vs[1..][i]) {
        var i :| 0 <= i < |vs[1..]| && IsActive(vs[1..][i]);
        assert IsActive(vs[i + 1]);
      }
      if exists i :: 0 <= i < |vs| && IsActive(vs[i]) {
        var i :| 0 <= i < |vs| && IsActive(vs[i]);
        if i > 0 {
          assert IsActive(vs[1..][i - 1]);
        }
      }
    }
  }

  /** The badge is shown exactly when its count is positive. */
  lemma ActiveCountPositive(form: FilterForm)
    ensures HasActiveFilters(form) <==> ActiveCount(form) > 0
  {
    CountActivePositive(Values(form));
  }

  /** 1 for a field that holds a value, 0 otherwise. */
  function Flag(b: bool): nat {
    if b then 1 else 0
  }

  /** The badge counts the fields that hold a value, one by one. */
  lemma ActiveCountByField(form: FilterForm)
    ensures ActiveCount(form) ==
      Flag(form.priceMin != "") + Flag(form.priceMax != "") + Flag(form.bedroomsMin != "") +
      Flag(form.bathroomsMin != "") + Flag(form.squareFeetMin != "") +
      Flag(form.propertyTypes != []) + Flag(form.searchLocation != "")
  {
    var vs := Values(form);
    assert CountActive(vs[6..]) == Flag(form.searchLocation != "") by {
      assert vs[6..][1..] == [];
    }
    assert CountActive(vs[5..]) == Flag(form.propertyTypes != []) + CountActive(vs[6..]) by {
      assert vs[5..][1..] == vs[6..];
    }
    assert CountActive(vs[4..]) == Flag(form.squareFeetMin != "") + CountActive(vs[5..]) by {
      assert vs[4..][1..] == vs[5..];
    }
    assert CountActive(vs[3..]) == Flag(form.bathroomsMin != "") + CountActive(vs[4..]) by {
      assert vs[3..][1..] == vs[4..];
    }
    assert CountActive(vs[2..]) == Flag(form.bedroomsMin != "") + CountActive(vs[3..]) by {
      assert vs[2..][1..] == vs[3..];
    }
    assert CountActive(vs[1..]) == Flag(form.priceMax != "") + CountActive(vs[2..]) by {
      assert vs[1..][1..] == vs[2..];
    }
  }

  /** Some field of the form holds a value. */
  predicate AnyFieldSet(form: FilterForm) {
    form.priceMin != "" || form.priceMax != "" || form.bedroomsMin != "" ||
    form.bathroomsMin != "" || form.squareFeetMin != "" || form.propertyTypes != [] ||
    form.searchLocation != ""
  }

  /**
   * The panel has active filters exactly when the object it hands to `search` has a key,
   * so it is exactly then that the browse page calls `search` rather than `getAll`.
   */
  lemma ActiveIffKeys(form: FilterForm)
    ensures HasActiveFilters(form) <==> HasKeys(Normalized(form))
  {
    var f := Normalized(form);
    AnyBound(f);
    assert f.priceMin.Some? <==> form.priceMin != "" by {
      assert Bound(f, PriceMin) == f.priceMin;
    }
    assert f.priceMax.Some? <==> form.priceMax != "" by {
      assert Bound(f, PriceMax) == f.priceMax;
    }
    assert f.bedroomsMin.Some? <==> form.bedroomsMin != "" by {
      assert Bound(f, BedroomsMin) == f.bedroomsMin;
    }
    assert f.bathroomsMin.Some? <==> form.bathroomsMin != "" by {
      assert Bound(f, BathroomsMin) == f.bathroomsMin;
    }
    assert f.squareFeetMin.Some? <==> form.squareFeetMin != "" by {
      assert Bound(f, SquareFeetMin) == f.squareFeetMin;
    }
  }

  /** A filter object has a numeric key exactly when one of its five bounds is present. */
  lemma AnyBound(f: SearchFilters)
    ensures (exists k :: Bound(f, k).Some?) <==>
      f.priceMin.Some? || f.priceMax.Some? || f.bedroomsMin.Some? ||
      f.bathroomsMin.Some? || f.squareFeetMin.Some?
  {
    if f.priceMin.Some? { assert Bound(f, PriceMin).Some?; }
    if f.priceMax.Some? { assert Bound(f, PriceMax).Some?; }
    if f.bedroomsMin.Some? { assert Bound(f, BedroomsMin).Some?; }
    if f.bathroomsMin.Some? { assert Bound(f, BathroomsMin).Some?; }
    if f.squareFeetMin.Some? { assert Bound(f, SquareFeetMin).Some?; }
  }

  /** `clearFilters`: back to the initial state, with nothing active. */
  function ClearFilters(form: FilterForm): (r: FilterForm)
    ensures r == InitialForm
    ensures !HasActiveFilters(r) && ActiveCount(r) == 0
    ensures Normalized(r) == NoFilters
  {
    var r := InitialForm;
    assert forall i :: 0 <= i < |Values(r)| ==> !IsActive(Values(r)[i]);
    SameFilters(Normalized(r), NoFilters);
    ActiveCountPositive(r);
    r
  }
}
