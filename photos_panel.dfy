/** The photos panel: on submit, the uuid of every newly uploaded image is
    pushed onto the listing's main-photo or other-photo array, depending on the
    prefix of the image's own id. The arrays are objects shared with the
    listing's public data, so the pushes change the listing the panel was
    given, and a second submit of the same images pushes their uuids again. */
module PhotosPanel {
  import opened Support
  import opened ListingData

  /** A JavaScript array of uuid strings, changed in place by `push`. */
  class UuidArray {
    var elements: seq<string>

    constructor ()
      ensures elements == []
    {
      elements := [];
    }

    method Push(u: string)
      modifies this
      ensures elements == old(elements) + [u]
    {
      elements := elements + [u];
    }
  }

  /** The photo arrays held in the listing's public data, when set. */
  datatype PhotoData = PhotoData(mainPhotos: Option<UuidArray>, otherPhotos: Option<UuidArray>)

  /** `const { mainPhotos = [], otherPhotos = [] } = publicData`: the listing's
      own arrays when present, fresh empty arrays otherwise. */
  method PhotoArrays(publicData: PhotoData) returns (mainPhotos: UuidArray, otherPhotos: UuidArray)
    ensures publicData.mainPhotos.Some? ==> mainPhotos == publicData.mainPhotos.value
    ensures publicData.mainPhotos.None? ==> fresh(mainPhotos) && mainPhotos.elements == []
    ensures publicData.otherPhotos.Some? ==> otherPhotos == publicData.otherPhotos.value
    ensures publicData.otherPhotos.None? ==> fresh(otherPhotos) && otherPhotos.elements == []
    ensures publicData.mainPhotos.None? || publicData.otherPhotos.None? ==> mainPhotos != otherPhotos
  {
    if publicData.mainPhotos.Some? {
      mainPhotos := publicData.mainPhotos.value;
    } else {
      mainPhotos := new UuidArray();
    }
    if publicData.otherPhotos.Some? {
      otherPhotos := publicData.otherPhotos.value;
    } else {
      otherPhotos := new UuidArray();
    }
  }

  /** `s.split(sep)[0]`: the part of `s` before the first `sep`, or all of `s`. */
  function BeforeFirst(s: string, sep: char): (r: string)
    ensures r <= s
    ensures sep !in r
    ensures |r| < |s| ==> s[|r|] == sep
  {
    if |s| == 0 || s[0] == sep then [] else [s[0]] + BeforeFirst(s[1..], sep)
  }

  const SEPARATOR: char := '_'

  /** isMainImg: the image id's part before the first underscore is the main
      photo type. */
  predicate IsMainImg(key: string, mainPhotoType: string) {
    BeforeFirst(key, SEPARATOR) == mainPhotoType
  }

  /** An id is main exactly when it is the main photo type itself, or that
      type followed by an underscore and anything; the type must not itself
      contain an underscore. */
  lemma {:induction false} MainImgIff(key: string, mainPhotoType: string)
    requires SEPARATOR !in mainPhotoType
    ensures IsMainImg(key, mainPhotoType) <==>
      key == mainPhotoType ||
      (|mainPhotoType| < |key| && key[..|mainPhotoType|] == mainPhotoType && key[|mainPhotoType|] == SEPARATOR)
  {
    var r := BeforeFirst(key, SEPARATOR);
    if key == mainPhotoType {
      BeforeFirstOfSeparatorFree(key);
    } else if |mainPhotoType| < |key| && key[..|mainPhotoType|] == mainPhotoType && key[|mainPhotoType|] == SEPARATOR {
      BeforeFirstOfSeparated(key, |mainPhotoType|);
    }
  }

  lemma {:induction false} BeforeFirstOfSeparatorFree(s: string)
    requires SEPARATOR !in s
    ensures BeforeFirst(s, SEPARATOR) == s
  {
    if |s| > 0 {
      assert s[0] != SEPARATOR;
      assert forall c :: c in s[1..] ==> c in s;
      BeforeFirstOfSeparatorFree(s[1..]);
      assert [s[0]] + s[1..] == s;
    }
  }

  lemma {:induction false} BeforeFirstOfSeparated(s: string, n: nat)
    requires n < |s| && s[n] == SEPARATOR && SEPARATOR !in s[..n]
    ensures BeforeFirst(s, SEPARATOR) == s[..n]
  {
    if n > 0 {
      assert s[0] == s[..n][0];
      assert s[1..][..n - 1] == s[..n][1..];
      assert forall c :: c in s[..n][1..] ==> c in s[..n];
      BeforeFirstOfSeparated(s[1..], n - 1);
      assert [s[0]] + s[1..][..n - 1] == s[..n];
    }
  }

  /** An image the loop cannot classify: it has an `imageId` but its own id
      is a saved UUID rather than a string, so `split` is not a function and
      the loop throws at it. */
  predicate Throws(img: Image) {
    img.imageId.Some? && img.id.SavedId?
  }

  /** The number of images the loop gets through before it throws. */
  function Processed(images: seq<Image>): (n: nat)
    ensures n <= |images|
    ensures forall k :: 0 <= k < n ==> !Throws(images[k])
    ensures n < |images| ==> Throws(images[n])
  {
    match FindIndex(images, Throws)
    case None => |images|
    case Some(k) => k
  }

  predicate GoesToMain(img: Image, mainPhotoType: string) {
    img.imageId.Some? && img.id.TempId? && IsMainImg(img.id.key, mainPhotoType)
  }

  predicate GoesToOther(img: Image, mainPhotoType: string) {
    img.imageId.Some? && img.id.TempId? && !IsMainImg(img.id.key, mainPhotoType)
  }

  /** What one image pushes onto the main array. */
  function MainPart(img: Image, mainPhotoType: string): seq<string> {
    if GoesToMain(img, mainPhotoType) then [img.imageId.value.uuid] else []
  }

  /** What one image pushes onto the other array. */
  function OtherPart(img: Image, mainPhotoType: string): seq<string> {
    if GoesToOther(img, mainPhotoType) then [img.imageId.value.uuid] else []
  }

  /** The uuid one image was uploaded as, if any. */
  function UploadPart(img: Image): seq<string> {
    if img.imageId.Some? then [img.imageId.value.uuid] else []
  }

  /** The uuids pushed onto the main array, in image order. */
  function MainUuids(images: seq<Image>, mainPhotoType: string): seq<string> {
    if |images| == 0 then []
    else
      var last := images[|images| - 1];
      MainUuids(images[..|images| - 1], mainPhotoType) + MainPart(last, mainPhotoType)
  }

  /** The uuids pushed onto the other array, in image order. */
  function OtherUuids(images: seq<Image>, mainPhotoType: string): seq<string> {
    if |images| == 0 then []
    else
      var last := images[|images| - 1];
      OtherUuids(images[..|images| - 1], mainPhotoType) + OtherPart(last, mainPhotoType)
  }

  /** The uuids of the images that carry an `imageId`, in image order. */
  function UploadedUuids(images: seq<Image>): seq<string> {
    if |images| == 0 then []
    else
      var last := images[|images| - 1];
      UploadedUuids(images[..|images| - 1]) + UploadPart(last)
  }

  /** Where the loop does not throw, every image with an `imageId` sends its
      uuid to exactly one of the two arrays, and images without one send
      nothing: together the two arrays receive exactly the uploaded uuids. */
  lemma {:induction false} PartitionIsExact(images: seq<Image>, mainPhotoType: string)
    requires forall k :: 0 <= k < |images| ==> !Throws(images[k])
    ensures multiset(MainUuids(images, mainPhotoType)) + multiset(OtherUuids(images, mainPhotoType))
         == multiset(UploadedUuids(images))
  {
    if |images| > 0 {
      var init := images[..|images| - 1];
      assert forall k :: 0 <= k < |init| ==> !Throws(init[k]) by {
        forall k | 0 <= k < |init| ensures !Throws(init[k]) {
          assert init[k] == images[k];
        }
      }
      var last := images[|images| - 1];
      PartitionIsExact(init, mainPhotoType);
      OneImageGoesOnce(last, mainPhotoType);
      assert multiset(MainUuids(images, mainPhotoType)) == multiset(MainUuids(init, mainPhotoType)) + multiset(MainPart(last, mainPhotoType));
      assert multiset(OtherUuids(images, mainPhotoType)) == multiset(OtherUuids(init, mainPhotoType)) + multiset(OtherPart(last, mainPhotoType));
      assert multiset(UploadedUuids(images)) == multiset(UploadedUuids(init)) + multiset(UploadPart(last));
    }
  }

  /** One image that does not throw contributes its uuid to exactly one of
      the arrays when it is an upload, and to neither otherwise. */
  lemma OneImageGoesOnce(img: Image, mainPhotoType: string)
    requires !Throws(img)
    ensures multiset(MainPart(img, mainPhotoType)) + multiset(OtherPart(img, mainPhotoType)) == multiset(UploadPart(img))
  {
  }

  /** The two arrays together grow by exactly the number of uploaded images. */
  lemma PartitionCount(images: seq<Image>, mainPhotoType: string)
    requires forall k :: 0 <= k < |images| ==> !Throws(images[k])
    ensures |MainUuids(images, mainPhotoType)| + |OtherUuids(images, mainPhotoType)| == |UploadedUuids(images)|
  {
    PartitionIsExact(images, mainPhotoType);
    assert |multiset(MainUuids(images, mainPhotoType)) + multiset(OtherUuids(images, mainPhotoType))|
        == |multiset(UploadedUuids(images))|;
  }

  /** Every uuid pushed onto the main array is the `imageId` of an upload
      whose id is main. */
  lemma {:induction false} MainUuidsComeFromMainImages(images: seq<Image>, mainPhotoType: string)
    ensures forall u :: u in MainUuids(images, mainPhotoType) ==>
      exists k :: 0 <= k < |images| && GoesToMain(images[k], mainPhotoType) && images[k].imageId.value.uuid == u
  {
    if |images| > 0 {
      var n := |images| - 1;
      var init := images[..n];
      MainUuidsComeFromMainImages(init, mainPhotoType);
      forall u | u in MainUuids(images, mainPhotoType)
        ensures exists k :: 0 <= k < |images| && GoesToMain(images[k], mainPhotoType) && images[k].imageId.value.uuid == u
      {
        if u in MainUuids(init, mainPhotoType) {
          var k :| 0 <= k < |init| && GoesToMain(init[k], mainPhotoType) && init[k].imageId.value.uuid == u;
          assert images[k] == init[k];
        } else {
          assert u in MainPart(images[n], mainPhotoType);
        }
      }
    }
  }

  /** Every uuid pushed onto the other array is the `imageId` of an upload
      whose id is not main. */
  lemma {:induction false} OtherUuidsComeFromOtherImages(images: seq<Image>, mainPhotoType: string)
    ensures forall u :: u in OtherUuids(images, mainPhotoType) ==>
      exists k :: 0 <= k < |images| && GoesToOther(images[k], mainPhotoType) && images[k].imageId.value.uuid == u
  {
    if |images| > 0 {
      var n := |images| - 1;
      var init := images[..n];
      OtherUuidsComeFromOtherImages(init, mainPhotoType);
      forall u | u in OtherUuids(images, mainPhotoType)
        ensures exists k :: 0 <= k < |images| && GoesToOther(images[k], mainPhotoType) && images[k].imageId.value.uuid == u
      {
        if u in OtherUuids(init, mainPhotoType) {
          var k :| 0 <= k < |init| && GoesToOther(init[k], mainPhotoType) && init[k].imageId.value.uuid == u;
          assert images[k] == init[k];
        } else {
          assert u in OtherPart(images[n], mainPhotoType);
        }
      }
    }
  }

  /** Extending the processed prefix by one image extends each array's
      share by that image's part. */
  lemma PrefixStep(images: seq<Image>, i: nat, mainPhotoType: string)
    requires i < |images|
    ensures MainUuids(images[..i + 1], mainPhotoType) == MainUuids(images[..i], mainPhotoType) + MainPart(images[i], mainPhotoType)
    ensures OtherUuids(images[..i + 1], mainPhotoType) == OtherUuids(images[..i], mainPhotoType) + OtherPart(images[i], mainPhotoType)
  {
    assert images[..i + 1][..i] == images[..i];
  }

  /** The loop's callback for one image: an upload's uuid is pushed onto the
      array its id selects; an image without `imageId` is skipped; a saved
      image carrying an `imageId` throws, pushing nothing. */
  method PushUpload(img: Image, mainPhotos: UuidArray, otherPhotos: UuidArray, mainPhotoType: string)
    returns (ok: bool)
    requires mainPhotos != otherPhotos
    modifies mainPhotos, otherPhotos
    ensures ok <==> !Throws(img)
    ensures ok ==> mainPhotos.elements == old(mainPhotos.elements) + MainPart(img, mainPhotoType)
    ensures ok ==> otherPhotos.elements == old(otherPhotos.elements) + OtherPart(img, mainPhotoType)
    ensures !ok ==> mainPhotos.elements == old(mainPhotos.elements) && otherPhotos.elements == old(otherPhotos.elements)
  {
    ok := true;
    if img.imageId.Some? {
      match img.id
      case SavedId(_) =>
        ok := false;
      case TempId(key) =>
        if IsMainImg(key, mainPhotoType) {
          mainPhotos.Push(img.imageId.value.uuid);
        } else {
          otherPhotos.Push(img.imageId.value.uuid);
        }
    }
  }

  /** onSubmit's loop over the submitted images, pushing in place. It stops
      where an image throws; what was pushed before that stays pushed. */
  method Partition(images: seq<Image>, mainPhotos: UuidArray, otherPhotos: UuidArray, mainPhotoType: string)
    returns (completed: bool)
    requires mainPhotos != otherPhotos
    modifies mainPhotos, otherPhotos
    ensures completed <==> Processed(images) == |images|
    ensures mainPhotos.elements == old(mainPhotos.elements) + MainUuids(images[..Processed(images)], mainPhotoType)
    ensures otherPhotos.elements == old(otherPhotos.elements) + OtherUuids(images[..Processed(images)], mainPhotoType)
  {
    var i := 0;
    while i < |images|
      invariant 0 <= i <= |images|
      invariant forall k :: 0 <= k < i ==> !Throws(images[k])
      invariant mainPhotos.elements == old(mainPhotos.elements) + MainUuids(images[..i], mainPhotoType)
      invariant otherPhotos.elements == old(otherPhotos.elements) + OtherUuids(images[..i], mainPhotoType)
    {
      var ok := PushUpload(images[i], mainPhotos, otherPhotos, mainPhotoType);
      if !ok {
        FindIndexIsFirst(images, Throws, i);
        assert Processed(images) == i;
        return false;
      }
      PrefixStep(images, i, mainPhotoType);
      assert mainPhotos.elements == old(mainPhotos.elements) + MainUuids(images[..i + 1], mainPhotoType);
      assert otherPhotos.elements == old(otherPhotos.elements) + OtherUuids(images[..i + 1], mainPhotoType);
      i := i + 1;
    }
    assert images[..|images|] == images;
    completed := true;
  }

  /** The values the photos form submits; `addImage` is the file input. */
  datatype PhotosFormValues<F> = PhotosFormValues(addImage: Option<F>, images: seq<Image>)

  /** What the panel passes on: the images, and public data holding the two
      arrays as they are after the pushes. */
  datatype PhotosUpdate = PhotosUpdate(images: seq<Image>, mainPhotos: seq<string>, otherPhotos: seq<string>)

  /** The panel's onSubmit: drops `addImage`, partitions, and passes the
      images with the two arrays on; throws where the loop throws. */
  method OnSubmit<F>(values: PhotosFormValues<F>, mainPhotos: UuidArray, otherPhotos: UuidArray, mainPhotoType: string)
    returns (r: Result<PhotosUpdate>)
    requires mainPhotos != otherPhotos
    modifies mainPhotos, otherPhotos
    ensures r.Ok? <==> forall k :: 0 <= k < |values.images| ==> !Throws(values.images[k])
    ensures mainPhotos.elements == old(mainPhotos.elements) + MainUuids(values.images[..Processed(values.images)], mainPhotoType)
    ensures otherPhotos.elements == old(otherPhotos.elements) + OtherUuids(values.images[..Processed(values.images)], mainPhotoType)
    ensures r.Ok? ==> r.value == PhotosUpdate(values.images, mainPhotos.elements, otherPhotos.elements)
  {
    var completed := Partition(values.images, mainPhotos, otherPhotos, mainPhotoType);
    if completed {
      r := Ok(PhotosUpdate(values.images, mainPhotos.elements, otherPhotos.elements));
    } else {
      r := Err(TypeError("img.id.split is not a function"));
    }
  }

  /** The listing's own photo arrays: those its public data holds. */
  function ListingArrays(publicData: PhotoData): set<UuidArray> {
    (if publicData.mainPhotos.Some? then {publicData.mainPhotos.value} else {}) +
    (if publicData.otherPhotos.Some? then {publicData.otherPhotos.value} else {})
  }

  /** The contents an array starts from: the listing's array, or a new empty one. */
  function StartingElements(photos: Option<UuidArray>): seq<string>
    reads if photos.Some? then {photos.value} else {}
  {
    if photos.Some? then photos.value.elements else []
  }

  /** Rendering the panel for a listing and submitting: the pushes land in the
      listing's own arrays where its public data holds them, and otherwise in
      new arrays that start empty; the submitted arrays are those after the
      pushes. */
  method SubmitChangesListingArrays<F>(publicData: PhotoData, values: PhotosFormValues<F>, mainPhotoType: string)
    returns (r: Result<PhotosUpdate>)
    requires publicData.mainPhotos.Some? && publicData.otherPhotos.Some? ==>
      publicData.mainPhotos.value != publicData.otherPhotos.value
    modifies ListingArrays(publicData)
    ensures r.Ok? <==> forall k :: 0 <= k < |values.images| ==> !Throws(values.images[k])
    ensures publicData.mainPhotos.Some? ==>
      publicData.mainPhotos.value.elements
        == old(publicData.mainPhotos.value.elements) + MainUuids(values.images[..Processed(values.images)], mainPhotoType)
    ensures publicData.otherPhotos.Some? ==>
      publicData.otherPhotos.value.elements
        == old(publicData.otherPhotos.value.elements) + OtherUuids(values.images[..Processed(values.images)], mainPhotoType)
    ensures r.Ok? ==> r.value.images == values.images
    ensures r.Ok? ==> r.value.mainPhotos == old(StartingElements(publicData.mainPhotos)) + MainUuids(values.images, mainPhotoType)
    ensures r.Ok? ==> r.value.otherPhotos == old(StartingElements(publicData.otherPhotos)) + OtherUuids(values.images, mainPhotoType)
  {
    var mainPhotos, otherPhotos := PhotoArrays(publicData);
    r := OnSubmit(values, mainPhotos, otherPhotos, mainPhotoType);
    if r.Ok? {
      assert values.images[..Processed(values.images)] == values.images;
    }
  }
}
