/**
 * The favorites page: joins the favorite records with the listings they bookmark, orders
 * the result, and saves edited notes back to the favorite store.
 */
module FavoritesPage {
  import opened Wrappers
  import opened JsText
  import opened Seqs
  import opened PropertyService
  import opened FavoriteService

  /** A listing enriched with the favorite record that bookmarks it. */
  datatype FavoriteProperty = FavoriteProperty(property: Property, favoriteData: Favorite)

  /** Some favorite bookmarks `p`: its `propertyId` is `p.Id.toString()`. */
  predicate IsBookmarked(favorites: seq<Favorite>, p: Property) {
    HasPropertyId(favorites, IntToString(p.id))
  }

  /** `allProperties.filter(property => favorites.some(...))`. */
  function Bookmarked(all: seq<Property>, favorites: seq<Favorite>): (r: seq<Property>)
    ensures forall p :: p in r <==> p in all && IsBookmarked(favorites, p)
    ensures IsSubsequence(r, all)
  {
    if all == [] then []
    else
      var rest := Bookmarked(all[1..], favorites);
      assert forall p :: p in all <==> p == all[0] || p in all[1..];
      if IsBookmarked(favorites, all[0]) then [all[0]] + rest else rest
  }

  /** The first favorite for `p`, which `find` returns. */
  function FirstFavorite(favorites: seq<Favorite>, p: Property): (f: Favorite)
    requires IsBookmarked(favorites, p)
    ensures f in favorites && f.propertyId == IntToString(p.id)
    ensures exists i :: 0 <= i < |favorites| && favorites[i] == f &&
              forall j :: 0 <= j < i ==> favorites[j].propertyId != IntToString(p.id)
  {
    var i := IndexOfPropertyId(favorites, IntToString(p.id));
    favorites[i]
  }

  /** `favoritePropertyData.map(property => ({ ...property, favoriteData }))`. */
  function Enrich(ps: seq<Property>, favorites: seq<Favorite>): (r: seq<FavoriteProperty>)
    requires forall p :: p in ps ==> IsBookmarked(favorites, p)
    ensures |r| == |ps|
    ensures forall k :: 0 <= k < |r| ==> r[k] == FavoriteProperty(ps[k], FirstFavorite(favorites, ps[k]))
  {
    if ps == [] then []
    else [FavoriteProperty(ps[0], FirstFavorite(favorites, ps[0]))] + Enrich(ps[1..], favorites)
  }

  /** The listings of a joined list, in its order. */
  function PropertiesOf(fps: seq<FavoriteProperty>): (r: seq<Property>)
    ensures |r| == |fps| && forall k :: 0 <= k < |r| ==> r[k] == fps[k].property
  {
    if fps == [] then [] else [fps[0].property] + PropertiesOf(fps[1..])
  }

  /**
   * `loadFavoriteProperties`: nothing when there are no favorites; otherwise every
   * bookmarked listing, in the listings' order, each with the first favorite bookmarking it.
   * A favorite whose `propertyId` names no listing contributes nothing.
   */
  function LoadFavoriteProperties(all: seq<Property>, favorites: seq<Favorite>): (r: seq<FavoriteProperty>)
    ensures favorites == [] ==> r == []
    ensures PropertiesOf(r) == Bookmarked(all, favorites)
    ensures forall p :: p in PropertiesOf(r) <==> p in all && IsBookmarked(favorites, p)
    ensures IsSubsequence(PropertiesOf(r), all)
    ensures forall k :: 0 <= k < |r| ==> r[k].favoriteData == FirstFavorite(favorites, r[k].property)
  {
    if favorites == [] then
      NoFavoritesNothingBookmarked(all);
      []
    else
      var r := Enrich(Bookmarked(all, favorites), favorites);
      assert PropertiesOf(r) == Bookmarked(all, favorites);
      r
  }

  /** The early return for an empty favorite list gives what the join would give anyway. */
  lemma {:induction false} NoFavoritesNothingBookmarked(all: seq<Property>)
    ensures Bookmarked(all, []) == []
  {
    if all != [] {
      NoFavoritesNothingBookmarked(all[1..]);
    }
  }

  /** The ascending key of each sort option of this page. */
  function SavedRank(sortBy: string, fp: FavoriteProperty): int {
    if sortBy == "newest" then -fp.favoriteData.savedDate
    else if sortBy == "oldest" then fp.favoriteData.savedDate
    else if sortBy == "price-low" then fp.property.price
    else if sortBy == "price-high" then -fp.property.price
    else 0
  }

  /** `SavedRank` for one option, as a key function. */
  function SavedRankKey(sortBy: string): FavoriteProperty -> int {
    fp => SavedRank(sortBy, fp)
  }

  /** The options of this page's sort menu. */
  predicate IsSavedSortOption(sortBy: string) {
    sortBy in {"newest", "oldest", "price-low", "price-high"}
  }

  /** The comparator `switch` of this page. */
  function CompareSaved(sortBy: string, a: FavoriteProperty, b: FavoriteProperty): (c: int)
    ensures c == SavedRank(sortBy, a) - SavedRank(sortBy, b)
  {
    match sortBy
    case "newest" => b.favoriteData.savedDate - a.favoriteData.savedDate
    case "oldest" => a.favoriteData.savedDate - b.favoriteData.savedDate
    case "price-low" => a.property.price - b.property.price
    case "price-high" => b.property.price - a.property.price
    case _ => 0
  }

  /** `[...favoriteProperties].sort(comparator)`: a stable sort of a copy. */
  function SortedFavorites(fps: seq<FavoriteProperty>, sortBy: string): (r: seq<FavoriteProperty>)
    ensures multiset(r) == multiset(fps)
    ensures forall i, j :: 0 <= i < j < |r| ==> CompareSaved(sortBy, r[i], r[j]) <= 0
    ensures sortBy == "newest" ==>
              forall i, j :: 0 <= i < j < |r| ==> r[i].favoriteData.savedDate >= r[j].favoriteData.savedDate
    ensures sortBy == "oldest" ==>
              forall i, j :: 0 <= i < j < |r| ==> r[i].favoriteData.savedDate <= r[j].favoriteData.savedDate
    ensures sortBy == "price-low" ==> forall i, j :: 0 <= i < j < |r| ==> r[i].property.price <= r[j].property.price
    ensures sortBy == "price-high" ==> forall i, j :: 0 <= i < j < |r| ==> r[i].property.price >= r[j].property.price
    ensures !IsSavedSortOption(sortBy) ==> r == fps
    ensures (forall i, j :: 0 <= i < j < |fps| ==> CompareSaved(sortBy, fps[i], fps[j]) <= 0) ==> r == fps
    ensures forall k :: WithKey(r, SavedRankKey(sortBy), k) == WithKey(fps, SavedRankKey(sortBy), k)
  {
    var key := SavedRankKey(sortBy);
    SortByKeySorted(fps, key);
    SortByKeyStable(fps, key);
    var r := SortByKey(fps, key);
    assert forall i, j :: 0 <= i < j < |r| ==> key(r[i]) <= key(r[j]);
    if SortedByKey(fps, key) then
      SortByKeyOfSorted(fps, key);
      r
    else r
  }

  /** The notes being edited, by favorite Id. */
  type NoteStates = map<int, string>

  /** `handleNoteChange(favoriteId, value)`: records the edit for that favorite only. */
  function NoteChange(states: NoteStates, favoriteId: int, value: string): (r: NoteStates)
    ensures r.Keys == states.Keys + {favoriteId}
    ensures r[favoriteId] == value
    ensures forall id :: id in states && id != favoriteId ==> r[id] == states[id]
  {
    states[favoriteId := value]
  }

  /**
   * The guard of `handleNoteBlur`: the note to save, present exactly when that favorite
   * has an edit and the edit differs from the stored note.
   */
  function NoteToSave(states: NoteStates, favoriteId: int, originalNotes: string): (r: Option<string>)
    ensures r.Some? <==> favoriteId in states && states[favoriteId] != originalNotes
    ensures r.Some? ==> r.value == states[favoriteId]
  {
    if favoriteId in states && states[favoriteId] != originalNotes then Some(states[favoriteId]) else None
  }

  /** An edit that is typed back to the stored text is not saved. */
  lemma EditRevertedNotSaved(states: NoteStates, favoriteId: int, originalNotes: string)
    ensures NoteToSave(NoteChange(states, favoriteId, originalNotes), favoriteId, originalNotes) == None
  {
  }

  /** The patch `{ notes }` that `handleUpdateNote` sends. */
  function NotesPatch(notes: string): FavoritePatch {
    FavoritePatch(None, None, None, Some(notes))
  }

  /** Such a patch replaces the notes and nothing else. */
  lemma NotesPatchReplacesNotes(f: Favorite, notes: string)
    ensures Merge(f, NotesPatch(notes)) == f.(notes := notes)
  {
  }

  /**
   * `handleNoteBlur(favoriteId, originalNotes)`: when the guard lets an edit through, updates
   * that favorite's notes in the store (the numeric Id is passed on, and `update` parses it
   * back); otherwise the store is not touched.
   */
  method HandleNoteBlur(store: FavoriteStore, states: NoteStates, favoriteId: int, originalNotes: string)
    returns (outcome: Option<Result<Favorite>>)
    modifies store`favorites, store`deliveries
    ensures var save := NoteToSave(states, favoriteId, originalNotes);
            var i := FavoriteService.IndexOfId(old(store.favorites), Int(favoriteId));
            if save.None? then
              outcome == None && store.favorites == old(store.favorites) && store.deliveries == old(store.deliveries)
            else if i < 0 then
              outcome == Some(Failure(FavoriteNotFound)) && store.favorites == old(store.favorites) &&
              store.deliveries == old(store.deliveries)
            else
              && outcome == Some(Success(old(store.favorites)[i].(notes := save.value)))
              && store.favorites == old(store.favorites)[i := old(store.favorites)[i].(notes := save.value)]
              && store.deliveries == old(store.deliveries) + Broadcast(store.subscribers, store.favorites)
  {
    var save := NoteToSave(states, favoriteId, originalNotes);
    if save.None? {
      return None;
    }
    ParseIntOfIntToString(favoriteId);
    var i := FavoriteService.IndexOfId(store.favorites, Int(favoriteId));
    if i >= 0 {
      NotesPatchReplacesNotes(store.favorites[i], save.value);
    }
    var r := store.Update(IntToString(favoriteId), NotesPatch(save.value));
    outcome := Some(r);
  }
}
