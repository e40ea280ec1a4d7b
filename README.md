# EstateView listings and favorites, modelled in Dafny

EstateView is a mobile-first real-estate browser. Listings are immutable reference data
held by a property store. The store offers lookup by Id, a filtered `search` and a
"similar properties" query. Bookmarks ("favorites") live in a mutable favorite store.
That store creates, updates and deletes records, and after every successful change it
hands each subscriber a copy of the collection.

On top of the two stores sit:
- the filter panel, which turns its form state into the filter object `search` accepts;
- the browse page, which loads and sorts listings;
- the favorites page, which joins favorites with their listings, sorts them and saves edited notes;
- the photo gallery and the property card (image carousels, plus the card's favorite toggle);
- the map panel (markers and a clamped zoom level).

This project models those parts and proves properties of the model.

Modules, one per source file plus four shared ones:

- `Wrappers`: `Option` and `Result` (the error path of `getById`, `update`, `delete`).
- `JsText`: the JavaScript primitives the code relies on. These are `parseInt(s, 10)` (leading white space, optional sign, longest digit run, `NaN`), `Number.prototype.toString`, ASCII `toLowerCase` and `String.prototype.includes`.
- `Seqs`: subsequences (`filter` keeps order) and a stable sort by an integer key. A comparator `(a, b) => key(a) - key(b)` is such a key's difference.
- `PropertyService`: the class `PropertyStore` (the `properties` array never changes) with `GetAll`, `GetById`, `Search` and `GetSimilar`. `Search` is a method with a local sequence rebound by seven conditional filters. It is proved equal to the one-pass filter `Matching`, whose contract is the meaning of a filter object.
- `FavoriteService`: the class `FavoriteStore`. Its fields `favorites` and `subscribers` are updated in place, and `deliveries` records each callback invocation with the copy it received. `Notify` is the loop over subscribers.
- `PropertyFilters`: the form state, `ApplyFilters` (the loop over the numeric keys), type toggling, clearing, `hasActiveFilters` and the badge count.
- `Browse`, `FavoritesPage`: loading, the comparators and sorts, the favorite/listing join and the note-saving guard.
- `Cycling`, `PhotoGallery`, `PropertyCard`, `MapComponent`: the wrap-around image index, the gallery and card classes, the favorite toggle, and the map's zoom and markers.

Representation choices:
- Bathrooms are counted in half-units, so 2.5 bathrooms is 5, and a bound `b` admits `halves >= 2 * b`.
- Timestamps (`listingDate`, `savedDate`) are integers.
- The saved date of a new favorite is the parameter `now`.
- A filter bound is whatever `parseInt` produced, `NaN` included. A listing meets a `NaN` bound never, as JavaScript's `>=` and `<=` do.
- The price band of `getSimilar` (`|d| <= 0.2 * P`) is written `5 * |d| <= P`.
- Subscriber callbacks are tokens compared by identity.
- Listing records carry unique Ids, so no record occurs twice in the collection. The filters `Matching`, `SimilarTo` and `Bookmarked` are stated by membership and order (a subsequence of the input); on a collection without repeated records this fixes the result exactly.

The bathroom menu offers half steps ("1.5", "2.5", ...). `applyFilters` converts them with `parseInt`, which stops at the point. So choosing "2.5+" asks `search` for at least 2 bathrooms, and a listing with exactly 2 passes. The model keeps this behaviour of the code (`HalfBathroomChoiceTruncated`, `HalfBathroomChoiceAdmitsFewer`).

The card's favorite toggle models one trait of the code as written. The decision uses the card's last received collection, while the removal uses the store's current one. The flip property is therefore stated for the case where the two agree and no listing is bookmarked twice. `create` itself never refuses a second bookmark of the same listing.

## Model

| member | source | states |
|---|---|---|
| JsText.ParseInt | src/services/api/propertyService.js:16 | a number exactly when a decimal digit follows the leading white space and optional sign, and a negative one only after a minus sign; its value on every such input is `ParseIntNumeral` |
| JsText.IntToString | src/components/molecules/PropertyCard.jsx:15 | `n.toString()`: non-empty decimal digits, behind a single minus sign when `n` is negative; `ParseIntOfIntToString` is its inverse and `IntToStringInjective` tells distinct Ids apart |
| JsText.ParseIntOfIntToString | src/services/api/favoriteService.js:29 | `parseInt(n.toString(), 10)` gives `n` back for every integer, so a numeric Id passed on as text finds its record again |
| JsText.IntToStringInjective | src/components/molecules/PropertyCard.jsx:15 | two Ids have the same string form exactly when they are equal |
| JsText.ParseIntNumeral | src/services/api/propertyService.js:16 | white space, an optional sign, one or more digits (leading zeros allowed) and a tail not starting with a digit parse to the digits' base-10 value, negated after a minus sign |
| JsText.ParseIntIgnoresRest | src/components/molecules/PropertyFilters.jsx:41 | `parseInt` reads only the leading digits: the numeral of `n` followed by anything that does not start with a digit parses to `n` |
| JsText.ParseIntNoDigits | src/components/molecules/PropertyFilters.jsx:41 | text without any digit parses to `NaN` |
| JsText.TrimStartSuffix | src/services/api/propertyService.js:16 | the white-space skip of `parseInt` drops exactly the leading white space and leaves a suffix |
| JsText.DigitRunPrefix | src/services/api/propertyService.js:16 | the digits `parseInt` reads are the longest all-digit prefix |
| JsText.Lower | src/services/api/propertyService.js:28 | `toLowerCase` keeps the length and lower-cases position by position |
| JsText.Contains | src/services/api/propertyService.js:30-31 | `includes` is true exactly when the needle occurs at some position |
| Seqs.SortByKey | src/components/pages/Browse.jsx:63 | sorting yields a permutation of the input |
| Seqs.SortByKeySorted | src/components/pages/Browse.jsx:63-80 | the sorted copy is in non-decreasing key order |
| Seqs.SortByKeyStable | src/components/pages/Browse.jsx:63 | the sort is stable: for every key, the elements with that key come out in the order they went in |
| Seqs.SortByKeyOfSorted | src/components/pages/Browse.jsx:77-78 | a stable sort of an input already in key order (for instance one where all keys tie) returns it unchanged |
| PropertyService.Matching | src/services/api/propertyService.js:23-62 | the listings kept are exactly those satisfying every supplied constraint, in collection order |
| PropertyService.PropertyStore.Search | src/services/api/propertyService.js:23-62 | the seven conditional filters leave exactly `Matching(properties, filters)` |
| PropertyService.SearchPipeline | src/services/api/propertyService.js:27-59 | applying the seven stages one after the other equals the one-pass filter by `Satisfies` |
| PropertyService.StagesInTurn | src/services/api/propertyService.js:27-59 | chaining the first `n` stages keeps exactly the listings that pass all of them, in order |
| PropertyService.ApplyStagePassing | src/services/api/propertyService.js:35-53 | one more stage filters the earlier survivors by its own criterion |
| PropertyService.PassingNoStages | src/services/api/propertyService.js:25 | before any stage the whole copy is kept |
| PropertyService.StagesMeaning | src/services/api/propertyService.js:27-59 | passing the seven stages is the same as satisfying the filter object, bound by bound |
| PropertyService.PassingAllStages | src/services/api/propertyService.js:27-59 | the one-pass filter over all seven stages is `Matching` |
| PropertyService.MatchingNoFilters | src/services/api/propertyService.js:23-25 | with the empty filter object every listing is kept |
| PropertyService.NoKeysNoFilters | src/components/pages/Browse.jsx:39 | a filter object with no key is `{}` |
| PropertyService.IndexOfId | src/services/api/propertyService.js:16 | `find` by Id: the first index whose Id equals the parsed key, or -1 when none does |
| PropertyService.PropertyStore.GetAll | src/services/api/propertyService.js:9-12 | returns exactly the stored collection, in stored order |
| PropertyService.PropertyStore.GetById | src/services/api/propertyService.js:14-21 | succeeds exactly when some listing's Id equals `parseInt(id, 10)`, returning the first such listing; otherwise fails with "Property not found" |
| PropertyService.SimilarTo | src/services/api/propertyService.js:71-77 | keeps exactly the similar listings (another Id, the same type, a price within 20%, at most one bedroom apart), in order |
| PropertyService.SliceEnd | src/services/api/propertyService.js:78 | the end index of `slice(0, limit)`: `min(limit, length)` for a non-negative limit, and `max(length + limit, 0)` for a negative one, which counts from the end |
| PropertyService.PropertyStore.GetSimilar | src/services/api/propertyService.js:64-81 | empty for an unknown Id; otherwise a subsequence of the collection and at most `limit` long. The result is exactly the similar listings, in collection order, cut by `slice(0, limit)`; so every item is similar to the source listing, and every similar listing appears when the limit was not reached |
| PropertyService.PropertyStore.GetSimilarDefault | src/services/api/propertyService.js:64 | `getSimilar(propertyId)` with no limit uses the default 4 and returns at most four listings |
| PropertyService.PropertyStore.constructor | src/services/api/propertyService.js:5-7 | the store holds the loaded dataset |
| FavoriteService.MaxId | src/services/api/favoriteService.js:38 | `Math.max(...ids, 0)` is non-negative, at least every Id, and 0 or one of the Ids |
| FavoriteService.NotesOrEmpty | src/services/api/favoriteService.js:43 | `notes || ''`: the given notes, or the empty string when none are given |
| FavoriteService.NewRecord | src/services/api/favoriteService.js:38-44 | the new Id exceeds every existing Id and is 1 in an empty store |
| FavoriteService.IndexOfId | src/services/api/favoriteService.js:52 | `findIndex` by Id: the first matching index, or -1 when none matches |
| FavoriteService.IndexOfPropertyId | src/services/api/favoriteService.js:76 | `findIndex` by property Id: the first matching index, or -1 when none matches |
| FavoriteService.Merge | src/services/api/favoriteService.js:56-58 | the merged record keeps its Id whatever the patch says; each other field takes the patch's value when the patch has one and keeps the old value otherwise |
| FavoriteService.RemoveAt | src/services/api/favoriteService.js:69 | `splice(i, 1)` shortens by one and keeps the others in order |
| FavoriteService.Broadcast | src/services/api/favoriteService.js:19 | one delivery per registration, in registration order, each carrying the same snapshot |
| FavoriteService.Without | src/services/api/favoriteService.js:13-15 | unsubscribing keeps every other registration, in order and with its multiplicity, and drops every registration of the callback |
| FavoriteService.OccurrencesAbsent | src/services/api/favoriteService.js:14 | a callback is unregistered exactly when it occurs zero times |
| FavoriteService.BroadcastCallsEachOnce | src/services/api/favoriteService.js:11-20 | a notification calls each callback once per registration, and an unregistered callback not at all |
| FavoriteService.BroadcastSnoc | src/services/api/favoriteService.js:19 | the deliveries to the first `i + 1` subscribers extend those to the first `i` by subscriber `i` |
| FavoriteService.CreateKeepsIdsUnique | src/services/api/favoriteService.js:36-45 | appending the new record keeps Ids pairwise distinct, and looking up its Id finds it at the end |
| FavoriteService.UpdateKeepsIds | src/services/api/favoriteService.js:56-58 | an update keeps the length and every Id in place, so Ids stay distinct |
| FavoriteService.RemoveForgetsId | src/services/api/favoriteService.js:63-69 | removal keeps Ids distinct, and with distinct Ids the removed Id is no longer found |
| FavoriteService.CountPropertyIdPositive | src/services/api/favoriteService.js:87 | `some` by property Id holds exactly when at least one record names it |
| FavoriteService.DeleteByPropertyIdRemovesOne | src/services/api/favoriteService.js:74-83 | exactly one bookmark of the property disappears, so the property stays bookmarked exactly when it had two or more |
| FavoriteService.AppendStatus | src/services/api/favoriteService.js:45 | after an append a property is bookmarked exactly when it was before or the new record names it; a new property keeps bookmarks unique |
| FavoriteService.RemoveStatus | src/services/api/favoriteService.js:80 | removing a record leaves every other property's bookmarked status as it was |
| FavoriteService.RemoveOnlyCopy | src/services/api/favoriteService.js:80 | without duplicates, removing a record un-bookmarks its property and keeps bookmarks unique |
| FavoriteService.FavoriteStore.constructor | src/services/api/favoriteService.js:6-9 | starts with the loaded records, no subscribers and no deliveries |
| FavoriteService.FavoriteStore.Subscribe | src/services/api/favoriteService.js:11-12 | appends the callback to the registrations |
| FavoriteService.FavoriteStore.Unsubscribe | src/services/api/favoriteService.js:13-15 | the registrations become those without the callback, which is then not registered |
| FavoriteService.FavoriteStore.Notify | src/services/api/favoriteService.js:18-20 | the log grows by exactly one delivery per subscriber, in order, each with the current collection |
| FavoriteService.FavoriteStore.GetAll | src/services/api/favoriteService.js:22-25 | returns the current collection |
| FavoriteService.FavoriteStore.GetById | src/services/api/favoriteService.js:27-34 | succeeds exactly when some record's Id equals `parseInt(id, 10)`, returning the first such record; otherwise fails with "Favorite not found" |
| FavoriteService.FavoriteStore.IsFavorite | src/services/api/favoriteService.js:85-92 | true exactly when some record has that property Id |
| FavoriteService.FavoriteStore.Create | src/services/api/favoriteService.js:36-48 | The new record is appended with Id max+1, the given property Id, `now` and notes defaulting to empty. Earlier records stay as they were and subscribers are notified once. Ids stay unique, `getById` of the new Id returns the record, and a duplicate bookmark is not refused |
| FavoriteService.FavoriteStore.Update | src/services/api/favoriteService.js:50-61 | With no record of that Id it fails with "Favorite not found", no change and no delivery. Otherwise the first such record is overwritten by the patch, keeping its Id and position. All other records and the length stay as they were, and subscribers are notified once |
| FavoriteService.FavoriteStore.Delete | src/services/api/favoriteService.js:63-72 | With no record of that Id it fails with no change and no delivery. Otherwise the first match is removed, the result is true and subscribers are notified once. Ids stay unique and the Id is then no longer found |
| FavoriteService.FavoriteStore.DeleteByPropertyId | src/services/api/favoriteService.js:74-83 | With no record for that property it fails with no change and no delivery. Otherwise only the first record for it is removed (the count drops by one), the result is true and subscribers are notified once |
| PropertyFilters.TextBound | src/components/molecules/PropertyFilters.jsx:34-41 | a numeric field contributes a key exactly when its text is non-empty |
| PropertyFilters.Normalized | src/components/molecules/PropertyFilters.jsx:31-36 | the location and the type list are present exactly when non-empty, holding the form's value |
| PropertyFilters.NormalizedBound | src/components/molecules/PropertyFilters.jsx:39-43 | each numeric key is present exactly when the field's text is non-empty, and then holds that text's `parseInt` |
| PropertyFilters.NonEmptyText | src/components/molecules/PropertyFilters.jsx:31-36 | the first step keeps exactly the non-empty numeric fields, with their text |
| PropertyFilters.ApplyFilters | src/components/molecules/PropertyFilters.jsx:30-46 | the loop over the numeric keys produces exactly `Normalized(form)` |
| PropertyFilters.HalfBathroomChoiceTruncated | src/components/molecules/PropertyFilters.jsx:39-43 | the bathroom choice "n.5" becomes the bound `n` |
| PropertyFilters.HalfBathroomChoiceAdmitsFewer | src/components/molecules/PropertyFilters.jsx:190-191 | so a listing with exactly `n` bathrooms, fewer than the "n.5+" chosen, meets the bound |
| PropertyFilters.RemoveAll | src/components/molecules/PropertyFilters.jsx:65 | `filter(t => t !== type)` keeps every other type, in order and with its number of copies, and drops every occurrence of the removed one |
| PropertyFilters.ToggleType | src/components/molecules/PropertyFilters.jsx:61-68 | An absent type is appended. A present type is removed entirely, leaving a subsequence in which every other type keeps its number of copies. No other type changes membership |
| PropertyFilters.ToggleTwice | src/components/molecules/PropertyFilters.jsx:61-68 | toggling the same type twice restores every type's membership |
| PropertyFilters.ToggleTwiceAbsent | src/components/molecules/PropertyFilters.jsx:61-68 | toggling an unchecked type on and off gives the list back exactly |
| PropertyFilters.RemoveAllAbsent | src/components/molecules/PropertyFilters.jsx:65 | filtering out a type that is not there leaves the list unchanged |
| PropertyFilters.ActiveCount | src/components/molecules/PropertyFilters.jsx:97 | the badge count is at most the seven fields |
| PropertyFilters.ActiveCountByField | src/components/molecules/PropertyFilters.jsx:97 | the badge count is the number of fields holding a value (non-empty text or a non-empty type list) |
| PropertyFilters.ActiveCountPositive | src/components/molecules/PropertyFilters.jsx:82-97 | `hasActiveFilters` holds exactly when the count is positive |
| PropertyFilters.HasActiveFilters | src/components/molecules/PropertyFilters.jsx:82-85 | `hasActiveFilters` holds exactly when some text field is non-empty or the type list is non-empty |
| PropertyFilters.ActiveIffKeys | src/components/molecules/PropertyFilters.jsx:30-46 | the panel has active filters exactly when the object it hands on has a key |
| PropertyFilters.ClearFilters | src/components/molecules/PropertyFilters.jsx:70-80 | restores the initial state, after which nothing is active, the count is 0 and the object handed on is `{}` |
| Browse.Compare | src/components/pages/Browse.jsx:64-79 | each comparator case is the difference of that option's sort key, and an unknown option compares as 0 |
| Browse.SortedProperties | src/components/pages/Browse.jsx:62-81 | The sorted copy is a permutation of the loaded list, with every pair in comparator order. 'newest' and 'oldest' order by listing date, down and up; 'price-low' and 'price-high' by price, up and down; 'beds-high' and 'sqft-high' by bedrooms and square feet, down. Listings that tie keep their input order, so an input already in comparator order, or any input under an unknown option, comes back unchanged |
| Browse.LoadProperties | src/components/pages/Browse.jsx:37-48 | `search` when the filter object has a key, `getAll` otherwise; either way exactly the listings the object admits, in order |
| FavoritesPage.Bookmarked | src/components/pages/Favorites.jsx:40-42 | keeps exactly the listings some favorite names by Id string, in collection order |
| FavoritesPage.FirstFavorite | src/components/pages/Favorites.jsx:46 | `find` returns the first favorite naming the listing |
| FavoritesPage.Enrich | src/components/pages/Favorites.jsx:45-51 | each listing is paired with its first favorite, position by position |
| FavoritesPage.PropertiesOf | src/components/pages/Favorites.jsx:45-51 | the spread keeps each listing, position by position |
| FavoritesPage.LoadFavoriteProperties | src/components/pages/Favorites.jsx:29-53 | Empty when there are no favorites. Otherwise exactly the bookmarked listings in collection order, each with the first favorite naming it; dangling favorites contribute nothing |
| FavoritesPage.NoFavoritesNothingBookmarked | src/components/pages/Favorites.jsx:30-33 | the early return for no favorites agrees with the join |
| FavoritesPage.CompareSaved | src/components/pages/Favorites.jsx:67-78 | each comparator case is the difference of that option's sort key |
| FavoritesPage.SortedFavorites | src/components/pages/Favorites.jsx:66-79 | The sorted copy is a permutation of the joined list. 'newest' and 'oldest' order by saved date, down and up; 'price-low' and 'price-high' by price, up and down. Favorites that tie keep their input order, so an input already in comparator order, or any input under an unknown option, comes back unchanged |
| FavoritesPage.NoteChange | src/components/pages/Favorites.jsx:90-95 | records the edit for that favorite and leaves every other entry as it was |
| FavoritesPage.NoteToSave | src/components/pages/Favorites.jsx:97-99 | a note is saved exactly when an edit exists for that favorite and differs from the stored note |
| FavoritesPage.EditRevertedNotSaved | src/components/pages/Favorites.jsx:97-102 | an edit typed back to the stored text is not saved |
| FavoritesPage.NotesPatchReplacesNotes | src/components/pages/Favorites.jsx:83 | the patch `{ notes }` replaces the notes and nothing else |
| FavoritesPage.HandleNoteBlur | src/components/pages/Favorites.jsx:97-102 | Without a changed edit the store is untouched. Otherwise `update` runs: it fails without change for an unknown Id, or replaces that favorite's notes and notifies once |
| Cycling.NextIndex | src/components/molecules/PhotoGallery.jsx:9-11 | stays in range, and is 0 exactly when stepping from the last image |
| Cycling.PrevIndex | src/components/molecules/PhotoGallery.jsx:13-15 | stays in range, and is the last image exactly when stepping from the first |
| Cycling.NextPrevInverse | src/components/molecules/PhotoGallery.jsx:9-15 | "previous" undoes "next" and "next" undoes "previous" |
| Cycling.NextNNoWrap | src/components/molecules/PhotoGallery.jsx:10 | before the last image, `n` presses of "next" move `n` images on |
| Cycling.NextNCompose | src/components/molecules/PhotoGallery.jsx:9-11 | `a` presses followed by `b` presses are `a + b` presses |
| Cycling.NextRoundTrip | src/components/molecules/PhotoGallery.jsx:9-11 | one press per image comes back to the starting image |
| PhotoGallery.Gallery.constructor | src/components/molecules/PhotoGallery.jsx:6 | opens on the first image, a valid index when there are images |
| PhotoGallery.Gallery.NextImage | src/components/molecules/PhotoGallery.jsx:9-11 | steps forward, wrapping from the last image to 0, and keeps the index valid |
| PhotoGallery.Gallery.PrevImage | src/components/molecules/PhotoGallery.jsx:13-15 | steps back, wrapping from 0 to the last image, and keeps the index valid |
| PhotoGallery.Gallery.GoToImage | src/components/molecules/PhotoGallery.jsx:17-19 | sets the index to exactly the one given |
| PhotoGallery.Gallery.Counter | src/components/molecules/PhotoGallery.jsx:74 | shows `currentIndex + 1` of the image count, between 1 and the count for a valid index |
| PropertyCard.IsFavorited | src/components/molecules/PropertyCard.jsx:15 | true exactly when some favorite names the listing's Id string |
| PropertyCard.Card.constructor | src/components/molecules/PropertyCard.jsx:13 | the carousel starts on the first image |
| PropertyCard.Card.NextImage | src/components/molecules/PropertyCard.jsx:43-48 | steps forward with wrap-around and keeps the index valid |
| PropertyCard.Card.PrevImage | src/components/molecules/PropertyCard.jsx:50-55 | steps back with wrap-around and keeps the index valid |
| PropertyCard.Card.ToggleFavorite | src/components/molecules/PropertyCard.jsx:17-37 | A favorited listing is removed with `deleteByPropertyId`, and any other is bookmarked with `create` and empty notes; the full new store state is stated, including failure and deliveries. With a current view and no duplicates, one press flips this listing's status, leaves every other listing's status alone and keeps bookmarks unique |
| MapComponent.Markers | src/components/organisms/MapComponent.jsx:11-17 | one marker per listing, in order, with the listing's Id |
| MapComponent.MarkerIdsDistinct | src/components/organisms/MapComponent.jsx:11-12 | distinct listing Ids give distinct marker Ids |
| MapComponent.ZoomedIn | src/components/organisms/MapComponent.jsx:42 | `min(zoom + 1, 18)`: one more below 18, exactly 18 at or above it, and within [1, 18] from within it |
| MapComponent.ZoomedOut | src/components/organisms/MapComponent.jsx:50 | `max(zoom - 1, 1)`: one less above 1, exactly 1 at or below it, and within [1, 18] from within it |
| MapComponent.ZoomOutUndoesZoomIn | src/components/organisms/MapComponent.jsx:42-50 | below the top limit, zooming out undoes zooming in |
| MapComponent.Map.constructor | src/components/organisms/MapComponent.jsx:8 | zoom starts at 10 with nothing selected |
| MapComponent.Map.ZoomIn | src/components/organisms/MapComponent.jsx:42 | sets zoom to `ZoomedIn` and keeps it within its limits |
| MapComponent.Map.ZoomOut | src/components/organisms/MapComponent.jsx:50 | sets zoom to `ZoomedOut` and keeps it within its limits |
| MapComponent.Map.MarkerClick | src/components/organisms/MapComponent.jsx:19-23 | selects the marker's listing and sets zoom to 15 |
| MapComponent.Map.ResetView | src/components/organisms/MapComponent.jsx:25-33 | changes nothing without listings, and otherwise sets zoom back to 10 |

## Left out

- Simulated latency and `async`/`await`: the store operations are synchronous and return a `Result` where the code throws.
- Stale responses that arrive after newer requests: a concurrency effect, not modelled.
- `formatPrice` and `formatSquareFeet`: `Intl.NumberFormat` is a foreign library and is not part of this model. The marker's formatted price is therefore not part of a `Marker`.
- The `useFavorites` hook: React lifecycle wiring. The subscription channel it uses is modelled directly.
- What a callback does when called: calls are logged as deliveries. A callback that subscribes or unsubscribes during a notification is not modelled.
- The 300 ms debounce of the filter panel: a timer. `ApplyFilters` is the call it eventually makes.
- Floating point: latitude and longitude, the averaged map centre of `resetView`, and marker positions. Price bands are exact for integers; `0.2 * price` rounding is not modelled.
- JavaScript numbers are IEEE doubles; Ids, prices, timestamps and `parseInt` results are exact unbounded integers in the model. So the model does not capture three things. First, `Math.max(...ids, 0) + 1` stops producing a fresh Id above 2^53, which limits `CreateKeepsIdsUnique` and `FavoriteStore.Create` to Ids below it. Second, `toString` switches to exponent form from 10^21, where `ParseIntOfIntToString` no longer holds. Third, `parseInt` rounds a numeral too long to represent exactly.
- Date parsing and formatting: timestamps are integers, and `create` takes the current time as the parameter `now` instead of an ISO string.
- Loading the mock JSON data: I/O. The stores are built from a given sequence.
- Rendering, animation, toasts, navigation and routing, and the gallery's fullscreen flag (display state only).
- The card's `isToggling` flag: it disables the heart button while the asynchronous store call is pending, so a second press cannot start a second toggle. With synchronous store operations no press can arrive during a toggle, so the flag has no effect in the model.
- The map view, property list and detail pages, the layout and the atoms: view glue repeating modelled logic.
- Non-ASCII text: `toLowerCase` and the white space skipped by `parseInt` cover ASCII only.
- `FavoritePatch`: a patch carries the record's four fields. Extra keys that `{ ...record, ...patch }` would add are not modelled.
- PropertyFilters.ActiveCount: its own contract states only the bound of seven; the exact count is `ActiveCountByField`.
