/** The photo gallery: the index of the image on show, stepped by its controls. */
module PhotoGallery {
  import opened Cycling

  class Gallery {
    /** The images, in order. */
    const images: seq<string>
    /** `currentIndex`. */
    var currentIndex: int

    /** The index names an image. */
    predicate Valid()
      reads this
    {
      0 <= currentIndex < |images|
    }

    /** The gallery opens on the first image. */
    constructor (images: seq<string>)
      ensures this.images == images && currentIndex == 0
      ensures images != [] ==> Valid()
    {
      this.images := images;
      currentIndex := 0;
    }

    /** `nextImage`. */
    method NextImage()
      modifies this`currentIndex
      ensures currentIndex == NextIndex(old(currentIndex), |images|)
      ensures old(Valid()) ==> Valid()
      ensures old(currentIndex) == |images| - 1 ==> currentIndex == 0
    {
      currentIndex := if currentIndex == |images| - 1 then 0 else currentIndex + 1;
    }

    /** `prevImage`. */
    method PrevImage()
      modifies this`currentIndex
      ensures currentIndex == PrevIndex(old(currentIndex), |images|)
      ensures old(Valid()) ==> Valid()
      ensures old(currentIndex) == 0 ==> currentIndex == |images| - 1
    {
      currentIndex := if currentIndex == 0 then |images| - 1 else currentIndex - 1;
    }

    /** `goToImage(index)`, which the thumbnail strip calls with the thumbnail's position. */
    method GoToImage(index: int)
      modifies this`currentIndex
      ensures currentIndex == index
      ensures 0 <= index < |images| ==> Valid()
    {
      currentIndex := index;
    }

    /** The counter "current / total": a position between 1 and the number of images. */
    function Counter(): (r: (int, int))
      reads this
      ensures r.1 == |images|
      ensures Valid() ==> 1 <= r.0 <= r.1
      ensures r.0 - 1 == currentIndex
    {
      (currentIndex + 1, |images|)
    }
  }
}
