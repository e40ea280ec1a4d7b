/**
 * The property card: its image carousel and its favorite button, which removes the
 * listing's bookmark when there is one and creates one otherwise.
 */
module PropertyCard {
  import opened Wrappers
  import opened JsText
  import opened Cycling
  import opened PropertyService
  import opened FavoriteService

  /** `isFavorited`: some favorite in `favorites` bookmarks `property`. */
  function IsFavorited(favorites: seq<Favorite>, property: Property): (r: bool)
    ensures r <==> exists f :: f in favorites && f.propertyId == IntToString(property.id)
  {
    exists i :: 0 <= i < |favorites| && favorites[i].propertyId == IntToString(property.id)
  }

  /** What the favorite button did, which decides the toast it shows. */
  datatype ToggleOutcome = Added(favorite: Favorite) | Removed | Failed(error: Error)

  /** The payload the button passes to `create`. */
  function BookmarkFor(property: Property): NewFavorite {
    NewFavorite(IntToString(property.id), Some(""))
  }

  class Card {
    /** The listing shown. */
    const property: Property
    /** `currentImageIndex`. */
    var currentImageIndex: int

    /** The index names one of the listing's images. */
    predicate Valid()
      reads this
    {
      0 <= currentImageIndex < |property.images|
    }

    constructor (property: Property)
      ensures this.property == property && currentImageIndex == 0
      ensures property.images != [] ==> Valid()
    {
      this.property := property;
      currentImageIndex := 0;
    }

    /** `nextImage`. */
    method NextImage()
      modifies this`currentImageIndex
      ensures currentImageIndex == NextIndex(old(currentImageIndex), |property.images|)
      ensures old(Valid()) ==> Valid()
    {
      currentImageIndex := if currentImageIndex == |property.images| - 1 then 0 else currentImageIndex + 1;
    }

    /** `prevImage`. */
    method PrevImage()
      modifies this`currentImageIndex
      ensures currentImageIndex == PrevIndex(old(currentImageIndex), |property.images|)
      ensures old(Valid()) ==> Valid()
    {
      currentImageIndex := if currentImageIndex == 0 then |property.images| - 1 else currentImageIndex - 1;
    }

    /**
     * `handleFavoriteToggle`. The decision is taken on `view`, the collection the card last
     * received from the store: a bookmarked listing is removed with `deleteByPropertyId`,
     * any other is bookmarked with `create` and empty notes.
     */
    method ToggleFavorite(store: FavoriteStore, view: seq<Favorite>, now: int) returns (outcome: ToggleOutcome)
      modifies store`favorites, store`deliveries
      ensures var key := IntToString(property.id);
              if IsFavorited(view, property) then
                var i := IndexOfPropertyId(old(store.favorites), key);
                if i < 0 then
                  outcome == Failed(FavoriteNotFound) && store.favorites == old(store.favorites)
                else
                  outcome == Removed && store.favorites == RemoveAt(old(store.favorites), i)
              else
                var created := NewRecord(old(store.favorites), BookmarkFor(property), now);
                outcome == Added(created) && store.favorites == old(store.favorites) + [created]
      ensures outcome.Failed? ==> store.deliveries == old(store.deliveries)
      ensures !outcome.Failed? ==> store.deliveries == old(store.deliveries) + Broadcast(store.subscribers, store.favorites)
      /* When the card's view is current and no listing is bookmarked twice, one press flips
         this listing's status and leaves every other listing's status alone. */
      ensures view == old(store.favorites) && AtMostOnePerProperty(old(store.favorites)) ==>
                && outcome != Failed(FavoriteNotFound)
                && AtMostOnePerProperty(store.favorites)
                && IsFavorited(store.favorites, property) == !IsFavorited(old(store.favorites), property)
                && forall q: Property :: q.id != property.id ==>
                     IsFavorited(store.favorites, q) == IsFavorited(old(store.favorites), q)
    {
      var key := IntToString(property.id);
      if IsFavorited(view, property) {
        var i := IndexOfPropertyId(store.favorites, key);
        if i >= 0 {
          ghost var s := store.favorites;
          forall q: Property | q.id != property.id
            ensures IsFavorited(RemoveAt(s, i), q) == IsFavorited(s, q)
          {
            IntToStringInjective(q.id, property.id);
            RemoveStatus(s, i, IntToString(q.id));
          }
          if AtMostOnePerProperty(s) {
            RemoveOnlyCopy(s, i);
          }
        }
        var r := store.DeleteByPropertyId(key);
        outcome := if r.Success? then Removed else Failed(r.error);
      } else {
        ghost var s := store.favorites;
        ghost var created := NewRecord(s, BookmarkFor(property), now);
        forall q: Property | q.id != property.id
          ensures IsFavorited(s + [created], q) == IsFavorited(s, q)
        {
          IntToStringInjective(q.id, property.id);
          AppendStatus(s, created, IntToString(q.id));
        }
        AppendStatus(s, created, key);
        var f := store.Create(BookmarkFor(property), now);
        outcome := Added(f);
      }
    }
  }
}
