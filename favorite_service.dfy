/**
 * The favorite store: the one mutable collection of the app, with create/update/delete
 * by Id or by property Id, and a subscription channel that hands every subscriber a copy
 * of the collection after each successful change.
 */
module FavoriteService {
  import opened Wrappers
  import opened JsText
  import opened Seqs

  /** A bookmark of a listing; `propertyId` is the string form of the listing's Id. */
  datatype Favorite = Favorite(id: int, propertyId: string, savedDate: int, notes: string)

  /** The payload of `create`: `{ propertyId, notes? }`. */
  datatype NewFavorite = NewFavorite(propertyId: string, notes: Option<string>)

  /** The payload of `update`: any subset of the record's fields; an `Id` in it is ignored. */
  datatype FavoritePatch = FavoritePatch(
    id: Option<int>,
    propertyId: Option<string>,
    savedDate: Option<int>,
    notes: Option<string>)

  /** A subscriber callback, known only by its identity. */
  datatype Callback = Callback(handle: nat)

  /** One callback invocation: the callback and the copy of the collection it received. */
  datatype Delivery = Delivery(callback: Callback, snapshot: seq<Favorite>)

  const FavoriteNotFound := NotFound("Favorite not found")

  /** No two records share an Id. */
  predicate UniqueIds(s: seq<Favorite>) {
    forall i, j :: 0 <= i < j < |s| ==> s[i].id != s[j].id
  }

  /** `Math.max(...s.map(f => f.Id), 0)`. */
  function MaxId(s: seq<Favorite>): (m: int)
    ensures m >= 0
    ensures forall f :: f in s ==> f.id <= m
    ensures m == 0 || exists f :: f in s && f.id == m
  {
    if s == [] then 0
    else
      var rest := MaxId(s[1..]);
      assert forall f :: f in s ==> f == s[0] || f in s[1..];
      if s[0].id > rest then s[0].id else rest
  }

  /** `favorite.notes || ''`: absent and empty notes both become the empty string. */
  function NotesOrEmpty(notes: Option<string>): (r: string)
    ensures notes.Some? ==> r == notes.value
    ensures notes.None? ==> r == ""
  {
    notes.GetOr("")
  }

  /** The record `create` appends to `s`. */
  function NewRecord(s: seq<Favorite>, payload: NewFavorite, now: int): (f: Favorite)
    ensures forall g :: g in s ==> g.id < f.id
    ensures f.id >= 1 && (s == [] ==> f.id == 1)
  {
    Favorite(MaxId(s) + 1, payload.propertyId, now, NotesOrEmpty(payload.notes))
  }

  /** `findIndex(item => item.Id === key)`: the first index, or -1. */
  function IndexOfId(s: seq<Favorite>, key: ParsedInt): (i: int)
    ensures -1 <= i < |s|
    ensures i >= 0 ==> Int(s[i].id) == key
    ensures forall j :: 0 <= j < |s| && (i < 0 || j < i) ==> Int(s[j].id) != key
  {
    if s == [] then -1
    else if Int(s[0].id) == key then 0
    else
      var i := IndexOfId(s[1..], key);
      if i < 0 then -1 else i + 1
  }

  /** `findIndex(item => item.propertyId === propertyId)`: the first index, or -1. */
  function IndexOfPropertyId(s: seq<Favorite>, propertyId: string): (i: int)
    ensures -1 <= i < |s|
    ensures i >= 0 ==> s[i].propertyId == propertyId
    ensures forall j :: 0 <= j < |s| && (i < 0 || j < i) ==> s[j].propertyId != propertyId
  {
    if s == [] then -1
    else if s[0].propertyId == propertyId then 0
    else
      var i := IndexOfPropertyId(s[1..], propertyId);
      if i < 0 then -1 else i + 1
  }

  /** `s.some(favorite => favorite.propertyId === propertyId)`. */
  predicate HasPropertyId(s: seq<Favorite>, propertyId: string) {
    exists i :: 0 <= i < |s| && s[i].propertyId == propertyId
  }

  /** `{ ...f, ...patch }` with the patch's `Id` dropped: the record keeps its Id. */
  function Merge(f: Favorite, patch: FavoritePatch): (r: Favorite)
    ensures r.id == f.id
    ensures r.propertyId == (if patch.propertyId.Some? then patch.propertyId.value else f.propertyId)
    ensures r.savedDate == (if patch.savedDate.Some? then patch.savedDate.value else f.savedDate)
    ensures r.notes == (if patch.notes.Some? then patch.notes.value else f.notes)
  {
    Favorite(f.id,
             patch.propertyId.GetOr(f.propertyId),
             patch.savedDate.GetOr(f.savedDate),
             patch.notes.GetOr(f.notes))
  }

  /** `splice(i, 1)`. */
  function RemoveAt(s: seq<Favorite>, i: nat): (r: seq<Favorite>)
    requires i < |s|
    ensures |r| == |s| - 1
    ensures forall j :: 0 <= j < i ==> r[j] == s[j]
    ensures forall j :: i <= j < |r| ==> r[j] == s[j + 1]
  {
    s[..i] + s[i + 1..]
  }

  /** The number of records bookmarking `propertyId`. */
  function CountPropertyId(s: seq<Favorite>, propertyId: string): nat {
    if s == [] then 0
    else (if s[0].propertyId == propertyId then 1 else 0) + CountPropertyId(s[1..], propertyId)
  }

  /** One delivery per subscriber, in registration order, all with the same snapshot. */
  function Broadcast(subscribers: seq<Callback>, snapshot: seq<Favorite>): (r: seq<Delivery>)
    ensures |r| == |subscribers|
    ensures forall k :: 0 <= k < |r| ==> r[k] == Delivery(subscribers[k], snapshot)
  {
    if subscribers == [] then []
    else [Delivery(subscribers[0], snapshot)] + Broadcast(subscribers[1..], snapshot)
  }

  /** The number of deliveries made to `cb`. */
  function DeliveriesTo(ds: seq<Delivery>, cb: Callback): nat {
    if ds == [] then 0
    else (if ds[0].callback == cb then 1 else 0) + DeliveriesTo(ds[1..], cb)
  }

  /** The number of times `cb` is registered. */
  function Occurrences(subscribers: seq<Callback>, cb: Callback): nat {
    if subscribers == [] then 0
    else (if subscribers[0] == cb then 1 else 0) + Occurrences(subscribers[1..], cb)
  }

  /** `subscribers.filter(sub => sub !== cb)`: what an unsubscribe function leaves. */
  function Without(subscribers: seq<Callback>, cb: Callback): (r: seq<Callback>)
    ensures forall x :: x in r <==> x in subscribers && x != cb
    ensures IsSubsequence(r, subscribers)
    ensures forall x :: Occurrences(r, x) == if x == cb then 0 else Occurrences(subscribers, x)
  {
    if subscribers == [] then []
    else
      var rest := Without(subscribers[1..], cb);
      assert forall x :: x in subscribers <==> x == subscribers[0] || x in subscribers[1..];
      if subscribers[0] != cb then
        assert ([subscribers[0]] + rest)[1..] == rest;
        [subscribers[0]] + rest
      else rest
  }

  lemma {:induction false} OccurrencesAbsent(subscribers: seq<Callback>, cb: Callback)
    ensures cb !in subscribers <==> Occurrences(subscribers, cb) == 0
  {
    if subscribers != [] {
      OccurrencesAbsent(subscribers[1..], cb);
    }
  }

  /**
   * A notification calls every callback once per registration: a callback registered once
   * is called exactly once, and one that is not registered (for instance because its
   * unsubscribe function ran) is not called at all.
   */
  lemma {:induction false} BroadcastCallsEachOnce(subscribers: seq<Callback>, snapshot: seq<Favorite>, cb: Callback)
    ensures DeliveriesTo(Broadcast(subscribers, snapshot), cb) == Occurrences(subscribers, cb)
    ensures cb !in subscribers ==> DeliveriesTo(Broadcast(subscribers, snapshot), cb) == 0
  {
    if subscribers != [] {
      var r := Broadcast(subscribers, snapshot);
      assert r[1..] == Broadcast(subscribers[1..], snapshot);
      BroadcastCallsEachOnce(subscribers[1..], snapshot, cb);
    }
    OccurrencesAbsent(subscribers, cb);
  }

  lemma BroadcastSnoc(subscribers: seq<Callback>, snapshot: seq<Favorite>, i: nat)
    requires i < |subscribers|
    ensures Broadcast(subscribers[..i + 1], snapshot) ==
            Broadcast(subscribers[..i], snapshot) + [Delivery(subscribers[i], snapshot)]
  {
    var a := Broadcast(subscribers[..i + 1], snapshot);
    var b := Broadcast(subscribers[..i], snapshot) + [Delivery(subscribers[i], snapshot)];
    assert |a| == |b|;
    forall k | 0 <= k < |a| ensures a[k] == b[k] {
    }
  }

  /** `create` keeps Ids unique, and the new record is the one found by its Id. */
  lemma {:induction false} CreateKeepsIdsUnique(s: seq<Favorite>, payload: NewFavorite, now: int)
    ensures var f := NewRecord(s, payload, now);
            (UniqueIds(s) ==> UniqueIds(s + [f])) &&
            IndexOfId(s + [f], ParseInt(IntToString(f.id))) == |s|
  {
    var f := NewRecord(s, payload, now);
    var t := s + [f];
    forall j | 0 <= j < |s| ensures t[j].id != f.id {
      assert t[j] in s;
    }
    ParseIntOfIntToString(f.id);
    assert Int(t[|s|].id) == Int(f.id);
  }

  /** `update` keeps every Id where it was, so Ids stay unique. */
  lemma UpdateKeepsIds(s: seq<Favorite>, i: nat, patch: FavoritePatch)
    requires i < |s|
    ensures var t := s[i := Merge(s[i], patch)];
            |t| == |s| && (forall j :: 0 <= j < |s| ==> t[j].id == s[j].id) &&
            (UniqueIds(s) ==> UniqueIds(t))
  {
  }

  /** Removing a record keeps Ids unique, and with unique Ids its Id is then no longer found. */
  lemma {:induction false} RemoveForgetsId(s: seq<Favorite>, i: nat)
    requires i < |s|
    ensures UniqueIds(s) ==> UniqueIds(RemoveAt(s, i))
    ensures UniqueIds(s) ==> IndexOfId(RemoveAt(s, i), Int(s[i].id)) == -1
  {
    var r := RemoveAt(s, i);
    if UniqueIds(s) {
      forall a, b | 0 <= a < b < |r| ensures r[a].id != r[b].id {
        var a', b' := if a < i then a else a + 1, if b < i then b else b + 1;
        assert r[a] == s[a'] && r[b] == s[b'];
      }
      forall j | 0 <= j < |r| ensures Int(r[j].id) != Int(s[i].id) {
        var j' := if j < i then j else j + 1;
        assert r[j] == s[j'];
      }
    }
  }

  lemma {:induction false} CountPropertyIdSplit(a: seq<Favorite>, b: seq<Favorite>, propertyId: string)
    ensures CountPropertyId(a + b, propertyId) == CountPropertyId(a, propertyId) + CountPropertyId(b, propertyId)
  {
    if a == [] {
      assert a + b == b;
    } else {
      assert (a + b)[1..] == a[1..] + b;
      CountPropertyIdSplit(a[1..], b, propertyId);
    }
  }

  lemma {:induction false} CountPropertyIdPositive(s: seq<Favorite>, propertyId: string)
    ensures HasPropertyId(s, propertyId) <==> CountPropertyId(s, propertyId) > 0
  {
    if s != [] {
      CountPropertyIdPositive(s[1..], propertyId);
      if HasPropertyId(s[1..], propertyId) {
        var i :| 0 <= i < |s[1..]| && s[1..][i].propertyId == propertyId;
        assert s[i + 1].propertyId == propertyId;
      }
      if HasPropertyId(s, propertyId) && s[0].propertyId != propertyId {
        var i :| 0 <= i < |s| && s[i].propertyId == propertyId;
        assert s[1..][i - 1].propertyId == propertyId;
      }
    }
  }

  /**
   * `deleteByPropertyId` removes only the first record for the property: exactly one
   * bookmark of that property disappears, so any duplicate survives.
   */
  lemma DeleteByPropertyIdRemovesOne(s: seq<Favorite>, propertyId: string)
    requires IndexOfPropertyId(s, propertyId) >= 0
    ensures var r := RemoveAt(s, IndexOfPropertyId(s, propertyId));
            CountPropertyId(r, propertyId) == CountPropertyId(s, propertyId) - 1 &&
            (HasPropertyId(r, propertyId) <==> CountPropertyId(s, propertyId) >= 2)
  {
    var i := IndexOfPropertyId(s, propertyId);
    var r := RemoveAt(s, i);
    assert s == s[..i] + ([s[i]] + s[i + 1..]);
    assert r == s[..i] + s[i + 1..];
    CountPropertyIdSplit(s[..i], [s[i]] + s[i + 1..], propertyId);
    CountPropertyIdSplit([s[i]], s[i + 1..], propertyId);
    CountPropertyIdSplit(s[..i], s[i + 1..], propertyId);
    CountPropertyIdPositive(r, propertyId);
  }

  /** No property is bookmarked twice: what the card's toggle maintains by itself. */
  predicate AtMostOnePerProperty(s: seq<Favorite>) {
    forall i, j :: 0 <= i < j < |s| ==> s[i].propertyId != s[j].propertyId
  }

  /** After an append a property is bookmarked iff it was before or the new record names it. */
  lemma AppendStatus(s: seq<Favorite>, f: Favorite, propertyId: string)
    ensures HasPropertyId(s + [f], propertyId) <==> HasPropertyId(s, propertyId) || f.propertyId == propertyId
    ensures AtMostOnePerProperty(s) && !HasPropertyId(s, f.propertyId) ==> AtMostOnePerProperty(s + [f])
  {
    var t := s + [f];
    if HasPropertyId(t, propertyId) {
      var i :| 0 <= i < |t| && t[i].propertyId == propertyId;
      if i < |s| {
        assert s[i].propertyId == propertyId;
      }
    }
    if HasPropertyId(s, propertyId) {
      var i :| 0 <= i < |s| && s[i].propertyId == propertyId;
      assert t[i].propertyId == propertyId;
    }
    assert t[|s|] == f;
    if AtMostOnePerProperty(s) && !HasPropertyId(s, f.propertyId) {
      forall i, j | 0 <= i < j < |t| ensures t[i].propertyId != t[j].propertyId {
        if j == |s| {
          assert t[i] == s[i];
        } else {
          assert t[i] == s[i] && t[j] == s[j];
        }
      }
    }
  }

  /** Removing one record leaves every other property's status as it was. */
  lemma RemoveStatus(s: seq<Favorite>, i: nat, propertyId: string)
    requires i < |s| && s[i].propertyId != propertyId
    ensures HasPropertyId(RemoveAt(s, i), propertyId) <==> HasPropertyId(s, propertyId)
  {
    var r := RemoveAt(s, i);
    if HasPropertyId(r, propertyId) {
      var j :| 0 <= j < |r| && r[j].propertyId == propertyId;
      var j' := if j < i then j else j + 1;
      assert s[j'].propertyId == propertyId;
    }
    if HasPropertyId(s, propertyId) {
      var k :| 0 <= k < |s| && s[k].propertyId == propertyId;
      var k' := if k < i then k else k - 1;
      assert r[k'].propertyId == propertyId;
    }
  }

  /** Without duplicates, removing a record un-bookmarks its property, and no duplicate appears. */
  lemma RemoveOnlyCopy(s: seq<Favorite>, i: nat)
    requires i < |s| && AtMostOnePerProperty(s)
    ensures !HasPropertyId(RemoveAt(s, i), s[i].propertyId)
    ensures AtMostOnePerProperty(RemoveAt(s, i))
  {
    var r := RemoveAt(s, i);
    forall j | 0 <= j < |r| ensures r[j].propertyId != s[i].propertyId {
      var j' := if j < i then j else j + 1;
      assert r[j] == s[j'];
    }
    forall a, b | 0 <= a < b < |r| ensures r[a].propertyId != r[b].propertyId {
      var a', b' := if a < i then a else a + 1, if b < i then b else b + 1;
      assert r[a] == s[a'] && r[b] == s[b'];
    }
  }

  /** The favorite store. */
  class FavoriteStore {
    /** The current collection. */
    var favorites: seq<Favorite>
    /** The registered callbacks, in registration order. */
    var subscribers: seq<Callback>
    /** Every callback invocation made so far, in the order it happened. */
    var deliveries: seq<Delivery>

    constructor (initial: seq<Favorite>)
      ensures favorites == initial && subscribers == [] && deliveries == []
    {
      favorites := initial;
      subscribers := [];
      deliveries := [];
    }

    /** `subscribe(callback)`: registers `cb`; nothing is called. */
    method Subscribe(cb: Callback)
      modifies this`subscribers
      ensures subscribers == old(subscribers) + [cb]
    {
      subscribers := subscribers + [cb];
    }

    /** The function `subscribe` returns: drops every registration of `cb`. */
    method Unsubscribe(cb: Callback)
      modifies this`subscribers
      ensures subscribers == Without(old(subscribers), cb)
      ensures cb !in subscribers
    {
      subscribers := Without(subscribers, cb);
    }

    /** `notify()`: every subscriber, in order, receives a copy of the collection. */
    method Notify()
      modifies this`deliveries
      ensures deliveries == old(deliveries) + Broadcast(subscribers, favorites)
    {
      for i := 0 to |subscribers|
        invariant deliveries == old(deliveries) + Broadcast(subscribers[..i], favorites)
      {
        BroadcastSnoc(subscribers, favorites, i);
        deliveries := deliveries + [Delivery(subscribers[i], favorites)];
      }
      assert subscribers[..|subscribers|] == subscribers;
    }

    /** `getAll()`: a copy of the collection. */
    function GetAll(): (r: seq<Favorite>)
      reads this
      ensures r == favorites
    {
      favorites
    }

    /** `getById(id)`: the first record whose Id is `parseInt(id, 10)`, or "Favorite not found". */
    function GetById(id: string): (r: Result<Favorite>)
      reads this
      ensures r.Success? <==> exists i :: 0 <= i < |favorites| && Int(favorites[i].id) == ParseInt(id)
      ensures r.Success? ==> r.value in favorites && Int(r.value.id) == ParseInt(id)
      ensures r.Success? ==> exists i :: 0 <= i < |favorites| && favorites[i] == r.value &&
                                forall j :: 0 <= j < i ==> Int(favorites[j].id) != ParseInt(id)
      ensures r.Failure? ==> r.error == FavoriteNotFound
    {
      var i := IndexOfId(favorites, ParseInt(id));
      if i < 0 then Failure(FavoriteNotFound) else Success(favorites[i])
    }

    /** `isFavorite(propertyId)` and `isFavoriteSync(propertyId)`. */
    function IsFavorite(propertyId: string): (r: bool)
      reads this
      ensures r <==> exists f :: f in favorites && f.propertyId == propertyId
    {
      IndexOfPropertyId(favorites, propertyId) >= 0
    }

    /**
     * `create(payload)`: appends a record with the next Id, the given property Id, `now` as
     * its saved date and the notes (empty by default), notifies, and returns the record.
     * A second bookmark of the same property is not refused.
     */
    method Create(payload: NewFavorite, now: int) returns (created: Favorite)
      modifies this`favorites, this`deliveries
      ensures created == NewRecord(old(favorites), payload, now)
      ensures created.id == MaxId(old(favorites)) + 1
      ensures created.propertyId == payload.propertyId && created.notes == NotesOrEmpty(payload.notes)
      ensures favorites == old(favorites) + [created]
      ensures deliveries == old(deliveries) + Broadcast(subscribers, favorites)
      ensures UniqueIds(old(favorites)) ==> UniqueIds(favorites)
      ensures GetById(IntToString(created.id)) == Success(created)
    {
      created := NewRecord(favorites, payload, now);
      CreateKeepsIdsUnique(favorites, payload, now);
      favorites := favorites + [created];
      Notify();
    }

    /**
     * `update(id, patch)`: overwrites the first record with that Id by the patch fields,
     * keeping its Id and position, then notifies; fails, changing nothing, when no record
     * has that Id.
     */
    method Update(id: string, patch: FavoritePatch) returns (r: Result<Favorite>)
      modifies this`favorites, this`deliveries
      ensures var i := IndexOfId(old(favorites), ParseInt(id));
              if i < 0 then
                r == Failure(FavoriteNotFound) && favorites == old(favorites) && deliveries == old(deliveries)
              else
                && r == Success(Merge(old(favorites)[i], patch))
                && favorites == old(favorites)[i := r.value]
                && deliveries == old(deliveries) + Broadcast(subscribers, favorites)
      ensures |favorites| == |old(favorites)|
      ensures forall j :: 0 <= j < |favorites| ==> favorites[j].id == old(favorites)[j].id
      ensures UniqueIds(old(favorites)) ==> UniqueIds(favorites)
    {
      var index := IndexOfId(favorites, ParseInt(id));
      if index == -1 {
        return Failure(FavoriteNotFound);
      }
      UpdateKeepsIds(favorites, index, patch);
      favorites := favorites[index := Merge(favorites[index], patch)];
      Notify();
      r := Success(favorites[index]);
    }

    /**
     * `delete(id)`: removes the first record with that Id, notifies and returns true; fails,
     * changing nothing, when no record has that Id.
     */
    method Delete(id: string) returns (r: Result<bool>)
      modifies this`favorites, this`deliveries
      ensures var i := IndexOfId(old(favorites), ParseInt(id));
              if i < 0 then
                r == Failure(FavoriteNotFound) && favorites == old(favorites) && deliveries == old(deliveries)
              else
                && r == Success(true)
                && favorites == RemoveAt(old(favorites), i)
                && deliveries == old(deliveries) + Broadcast(subscribers, favorites)
      ensures UniqueIds(old(favorites)) ==> UniqueIds(favorites)
      ensures r.Success? && UniqueIds(old(favorites)) ==> GetById(id).Failure?
    {
      var index := IndexOfId(favorites, ParseInt(id));
      if index == -1 {
        return Failure(FavoriteNotFound);
      }
      RemoveForgetsId(favorites, index);
      favorites := RemoveAt(favorites, index);
      Notify();
      r := Success(true);
    }

    /**
     * `deleteByPropertyId(propertyId)`: removes the first record for that property,
     * notifies and returns true; fails, changing nothing, when there is none.
     */
    method DeleteByPropertyId(propertyId: string) returns (r: Result<bool>)
      modifies this`favorites, this`deliveries
      ensures var i := IndexOfPropertyId(old(favorites), propertyId);
              if i < 0 then
                r == Failure(FavoriteNotFound) && favorites == old(favorites) && deliveries == old(deliveries)
              else
                && r == Success(true)
                && favorites == RemoveAt(old(favorites), i)
                && deliveries == old(deliveries) + Broadcast(subscribers, favorites)
      ensures r.Success? ==> CountPropertyId(favorites, propertyId) == CountPropertyId(old(favorites), propertyId) - 1
      ensures UniqueIds(old(favorites)) ==> UniqueIds(favorites)
    {
      var index := IndexOfPropertyId(favorites, propertyId);
      if index == -1 {
        return Failure(FavoriteNotFound);
      }
      RemoveForgetsId(favorites, index);
      DeleteByPropertyIdRemovesOne(favorites, propertyId);
      favorites := RemoveAt(favorites, index);
      Notify();
      r := Success(true);
    }
  }
}
