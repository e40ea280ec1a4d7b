/**
 * The map panel: one marker per listing and an integer zoom level that its buttons move
 * within fixed limits. Coordinates, the averaged map centre and marker positions are
 * floating point and are not part of this model.
 */
module MapComponent {
  import opened Wrappers
  import opened PropertyService

  const InitialZoom := 10
  const MinZoom := 1
  const MaxZoom := 18
  const MarkerZoom := 15

  /** A marker: the listing's Id and the listing it opens. */
  datatype Marker = Marker(id: int, property: Property)

  /** `properties.map(property => ({ id: property.Id, ..., property }))`. */
  function Markers(ps: seq<Property>): (r: seq<Marker>)
    ensures |r| == |ps|
    ensures forall k :: 0 <= k < |r| ==> r[k].id == ps[k].id && r[k].property == ps[k]
  {
    if ps == [] then [] else [Marker(ps[0].id, ps[0])] + Markers(ps[1..])
  }

  /** Distinct listing Ids give distinct marker Ids. */
  lemma MarkerIdsDistinct(ps: seq<Property>)
    requires forall i, j :: 0 <= i < j < |ps| ==> ps[i].id != ps[j].id
    ensures forall i, j :: 0 <= i < j < |Markers(ps)| ==> Markers(ps)[i].id != Markers(ps)[j].id
  {
  }

  /** The "+" button: `Math.min(zoom + 1, 18)`. */
  function ZoomedIn(zoom: int): (z: int)
    ensures z <= MaxZoom
    ensures zoom < MaxZoom ==> z == zoom + 1
    ensures MaxZoom <= zoom ==> z == MaxZoom
    ensures MinZoom <= zoom <= MaxZoom ==> MinZoom <= z <= MaxZoom
  {
    if zoom + 1 < MaxZoom then zoom + 1 else MaxZoom
  }

  /** The "-" button: `Math.max(zoom - 1, 1)`. */
  function ZoomedOut(zoom: int): (z: int)
    ensures z >= MinZoom
    ensures zoom > MinZoom ==> z == zoom - 1
    ensures zoom <= MinZoom ==> z == MinZoom
    ensures MinZoom <= zoom <= MaxZoom ==> MinZoom <= z <= MaxZoom
  {
    if zoom - 1 > MinZoom then zoom - 1 else MinZoom
  }

  /** Zooming out undoes zooming in, except at the top limit. */
  lemma ZoomOutUndoesZoomIn(zoom: int)
    requires MinZoom <= zoom < MaxZoom
    ensures ZoomedOut(ZoomedIn(zoom)) == zoom
  {
  }

  class Map {
    /** The listings on the map. */
    const properties: seq<Property>
    /** `zoom`. */
    var zoom: int
    /** The last listing handed to `onPropertySelect`, if any. */
    var selected: Option<Property>

    /** The zoom level lies within its limits. */
    predicate Valid()
      reads this
    {
      MinZoom <= zoom <= MaxZoom
    }

    constructor (properties: seq<Property>)
      ensures this.properties == properties && zoom == InitialZoom && selected == None
      ensures Valid()
    {
      this.properties := properties;
      zoom := InitialZoom;
      selected := None;
    }

    method ZoomIn()
      modifies this`zoom
      ensures zoom == ZoomedIn(old(zoom))
      ensures old(Valid()) ==> Valid()
    {
      zoom := if zoom + 1 < MaxZoom then zoom + 1 else MaxZoom;
    }

    method ZoomOut()
      modifies this`zoom
      ensures zoom == ZoomedOut(old(zoom))
      ensures old(Valid()) ==> Valid()
    {
      zoom := if zoom - 1 > MinZoom then zoom - 1 else MinZoom;
    }

    /** `handleMarkerClick(marker)`: selects the marker's listing and zooms to street level. */
    method MarkerClick(marker: Marker)
      modifies this`zoom, this`selected
      ensures selected == Some(marker.property) && zoom == MarkerZoom
      ensures Valid()
    {
      selected := Some(marker.property);
      zoom := MarkerZoom;
    }

    /** `resetView`: back to the initial zoom, unless there are no listings to centre on. */
    method ResetView()
      modifies this`zoom
      ensures properties == [] ==> zoom == old(zoom)
      ensures properties != [] ==> zoom == InitialZoom
      ensures old(Valid()) ==> Valid()
    {
      if |properties| > 0 {
        zoom := InitialZoom;
      }
    }
  }
}
