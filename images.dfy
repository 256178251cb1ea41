/**
  The image level of PutEmployee's reconciliation: the add/update loop over a tool language's
  image DTOs, and the delete loop over its stored images.
*/
module ImageLevel {
  import opened Common
  import opened Lookup
  import opened Models
  import opened Dtos

  /** Every image DTO carries an upload; the controller dereferences Data on each one it visits. */
  predicate ImagesHaveData(ds: seq<ImageDto>)
  {
    forall i :: 0 <= i < |ds| ==> ds[i].data.Some?
  }

  function ImageDtoIds(ds: seq<ImageDto>): (r: seq<int>)
    ensures |r| == |ds| && forall i :: 0 <= i < |ds| ==> r[i] == ds[i].id
  {
    seq(|ds|, i requires 0 <= i < |ds| => ds[i].id)
  }

  /** The bytes the controller copies out of a DTO's upload. */
  function Upload(d: ImageDto): seq<byte>
    requires d.data.Some?
  {
    FromFormFile(d.data).value
  }

  /** A matched image after `_mapper.Map(imageDTO, image)` and the Data copy: new order and payload, same row. */
  function Overwritten(img: Image, d: ImageDto): Image
    requires d.data.Some?
  {
    img.(payload := Upload(d), displayOrder := d.displayOrder)
  }

  /**
    A new image as the controller builds it: only payload and display order are set, so its key
    is 0 until the database numbers it; it belongs to the tool language it is added to.
  */
  function NewImage(d: ImageDto, toolLanguageId: int): Image
    requires d.data.Some?
  {
    Image(0, Upload(d), d.displayOrder, toolLanguageId)
  }

  /** One turn of the add/update loop: overwrite the first image with the DTO's id, or append a new one. */
  function MergeImage(images: seq<Image>, d: ImageDto, toolLanguageId: int): seq<Image>
    requires d.data.Some?
  {
    match FirstIndex(ImageIds(images), d.id)
    case None => images + [NewImage(d, toolLanguageId)]
    case Some(k) => images[k := Overwritten(images[k], d)]
  }

  /**
    The images of a tool language after the add/update loop has run over `ds`. Stored images keep
    their place, key and owner; everything after them is new, unkeyed and owned by this tool language.
  */
  function MergedImages(images: seq<Image>, ds: seq<ImageDto>, toolLanguageId: int): (r: seq<Image>)
    requires ImagesHaveData(ds)
    ensures |images| <= |r|
    ensures forall k :: 0 <= k < |images| ==>
      r[k].imageId == images[k].imageId && r[k].toolLanguageId == images[k].toolLanguageId
    ensures forall k :: |images| <= k < |r| ==> r[k].imageId == 0 && r[k].toolLanguageId == toolLanguageId
    decreases |ds|
  {
    if ds == [] then images
    else
      var front := ds[..|ds| - 1];
      assert forall i :: 0 <= i < |front| ==> front[i] == ds[i];
      MergeImage(MergedImages(images, front, toolLanguageId), ds[|ds| - 1], toolLanguageId)
  }

  /** The add/update loop over `ds` is the loop over all but the last DTO, then one more turn. */
  lemma MergedImagesUnfold(images: seq<Image>, ds: seq<ImageDto>, toolLanguageId: int)
    requires ImagesHaveData(ds) && ds != []
    ensures ImagesHaveData(ds[..|ds| - 1])
    ensures MergedImages(images, ds, toolLanguageId)
         == MergeImage(MergedImages(images, ds[..|ds| - 1], toolLanguageId), ds[|ds| - 1], toolLanguageId)
  {
    assert forall i :: 0 <= i < |ds| - 1 ==> ds[..|ds| - 1][i] == ds[i];
  }

  /** The images of a surviving tool language after the delete loop: those some DTO names. */
  function PrunedImages(images: seq<Image>, ds: seq<ImageDto>): (r: seq<Image>)
    ensures |r| <= |images|
    ensures forall img :: img in r <==> img in images && img.imageId in ImageDtoIds(ds)
    decreases |images|
  {
    if images == [] then []
    else
      var front, last := images[..|images| - 1], images[|images| - 1];
      assert images == front + [last];
      PrunedImages(front, ds) + (if last.imageId in ImageDtoIds(ds) then [last] else [])
  }

  /** The body of the add/update loop for one image DTO with an upload. */
  method MergeOneImage(images: seq<Image>, d: ImageDto, toolLanguageId: int) returns (r: seq<Image>)
    requires d.data.Some?
    ensures r == MergeImage(images, d, toolLanguageId)
  {
    match FirstIndex(ImageIds(images), d.id) {
      case None =>
        r := images + [Image(0, FromFormFile(d.data).value, d.displayOrder, toolLanguageId)];
      case Some(k) =>
        r := images[k := images[k].(displayOrder := d.displayOrder, payload := FromFormFile(d.data).value)];
    }
  }

  /**
    The add/update loop over image DTOs (PutEmployee, inner loop). `ok` is false when some DTO has
    no upload: the controller throws on it and nothing is saved.
  */
  method MergeImages(images: seq<Image>, ds: seq<ImageDto>, toolLanguageId: int) returns (ok: bool, r: seq<Image>)
    ensures ok <==> ImagesHaveData(ds)
    ensures ok ==> r == MergedImages(images, ds, toolLanguageId)
  {
    r := images;
    var i := 0;
    while i < |ds|
      invariant 0 <= i <= |ds|
      invariant ImagesHaveData(ds[..i])
      invariant r == MergedImages(images, ds[..i], toolLanguageId)
    {
      var d := ds[i];
      if d.data.None? {
        return false, r;
      }
      r := MergeOneImage(r, d, toolLanguageId);
      MergedImagesStep(images, ds, i, toolLanguageId);
      i := i + 1;
    }
    assert ds[..i] == ds;
    ok := true;
  }

  lemma MergedImagesStep(images: seq<Image>, ds: seq<ImageDto>, i: nat, toolLanguageId: int)
    requires i < |ds| && ImagesHaveData(ds[..i]) && ds[i].data.Some?
    ensures ImagesHaveData(ds[..i + 1])
    ensures MergedImages(images, ds[..i + 1], toolLanguageId)
         == MergeImage(MergedImages(images, ds[..i], toolLanguageId), ds[i], toolLanguageId)
  {
    assert ds[..i + 1][..i] == ds[..i] && ds[..i + 1][i] == ds[i];
  }

  /** The delete loop over a surviving tool language's images: drop each one no DTO names. */
  method PruneImages(images: seq<Image>, ds: seq<ImageDto>) returns (r: seq<Image>)
    ensures r == PrunedImages(images, ds)
  {
    r := [];
    var i := 0;
    while i < |images|
      invariant 0 <= i <= |images|
      invariant r == PrunedImages(images[..i], ds)
    {
      if images[i].imageId in ImageDtoIds(ds) {
        r := r + [images[i]];
      }
      assert images[..i + 1][..i] == images[..i];
      i := i + 1;
    }
    assert images[..i] == images;
  }

  /** One turn of the loop touches a stored image only when it is the first one with the DTO's key. */
  lemma MergeImageAt(images: seq<Image>, d: ImageDto, toolLanguageId: int, k: nat)
    requires d.data.Some? && k < |images|
    ensures MergeImage(images, d, toolLanguageId)[k]
            == if FirstIndex(ImageIds(images), d.id) == Some(k) then Overwritten(images[k], d) else images[k]
  {
  }

  /**
    The image a stored image should be once the DTOs `ds` have been applied: overwritten by the
    last DTO with its key, if it is the first image with that key and some DTO names it, and
    itself otherwise.
  */
  function LastWrittenImage(images: seq<Image>, ds: seq<ImageDto>, k: nat): Image
    requires ImagesHaveData(ds) && k < |images|
  {
    var x := images[k].imageId;
    match LastIndex(ImageDtoIds(ds), x)
    case Some(j) => if FirstIndex(ImageIds(images), x) == Some(k) then Overwritten(images[k], ds[j]) else images[k]
    case None => images[k]
  }

  /** The step of the induction below: one more DTO at the end keeps `LastWrittenImage` true. */
  lemma MergedImagesLastWritten(images: seq<Image>, ds: seq<ImageDto>, toolLanguageId: int, k: nat)
    requires ds != [] && ImagesHaveData(ds) && k < |images|
    requires ImagesHaveData(ds[..|ds| - 1])
    requires MergedImages(images, ds[..|ds| - 1], toolLanguageId)[k] == LastWrittenImage(images, ds[..|ds| - 1], k)
    ensures MergedImages(images, ds, toolLanguageId)[k] == LastWrittenImage(images, ds, k)
  {
    var x := images[k].imageId;
    var n := |ds| - 1;
    var front, d := ds[..n], ds[n];
    MergedImagesUnfold(images, ds, toolLanguageId);
    var cur := MergedImages(images, front, toolLanguageId);
    MergeImageAt(cur, d, toolLanguageId, k);
    var dtoIds := ImageDtoIds(ds);
    assert dtoIds[..n] == ImageDtoIds(front);
    assert cur[k].imageId == x;
    if d.id == x {
      assert ImageIds(cur)[..|images|] == ImageIds(images);
      FirstIndexStable(ImageIds(images), ImageIds(cur), x);
      assert LastIndex(dtoIds, x) == Some(n);
    } else {
      assert FirstIndex(ImageIds(cur), d.id) != Some(k);
      LastIndexDropLast(dtoIds, x);
    }
  }

  /**
    Last write wins: a stored image ends up with the payload and order of the last DTO carrying
    its key (only the first image with that key is ever matched); an image no DTO names is untouched.
  */
  lemma {:induction false} MergedImagesLastWins(images: seq<Image>, ds: seq<ImageDto>, toolLanguageId: int, k: nat)
    requires ImagesHaveData(ds) && k < |images|
    ensures var x := images[k].imageId;
      MergedImages(images, ds, toolLanguageId)[k]
      == if FirstIndex(ImageIds(images), x) == Some(k) && x in ImageDtoIds(ds)
         then Overwritten(images[k], ds[LastIndex(ImageDtoIds(ds), x).value])
         else images[k]
  {
    LastWrittenImageBy(images, ds, toolLanguageId, k);
  }

  /** The loop leaves each stored image as `LastWrittenImage` says, by induction on the DTOs. */
  lemma {:induction false} LastWrittenImageBy(images: seq<Image>, ds: seq<ImageDto>, toolLanguageId: int, k: nat)
    requires ImagesHaveData(ds) && k < |images|
    ensures MergedImages(images, ds, toolLanguageId)[k] == LastWrittenImage(images, ds, k)
    decreases |ds|
  {
    if ds != [] {
      MergedImagesUnfold(images, ds, toolLanguageId);
      LastWrittenImageBy(images, ds[..|ds| - 1], toolLanguageId, k);
      MergedImagesLastWritten(images, ds, toolLanguageId, k);
    }
  }

  /** One turn appends exactly when no stored image has the DTO's key. */
  lemma MergeImageLength(images: seq<Image>, d: ImageDto, toolLanguageId: int)
    requires d.data.Some?
    ensures |MergeImage(images, d, toolLanguageId)| == if d.id in ImageIds(images) then |images| else |images| + 1
  {
  }

  /** The loop leaves the stored images' keys where they were. */
  lemma MergedImagesPrefix(images: seq<Image>, ds: seq<ImageDto>, toolLanguageId: int)
    requires ImagesHaveData(ds)
    ensures var r := MergedImages(images, ds, toolLanguageId);
      |images| <= |r| && ImageIds(r)[..|images|] == ImageIds(images)
  {
  }

  /** Every DTO names an image among `ids`. */
  predicate AllStored(ds: seq<ImageDto>, ids: seq<int>)
  {
    forall i :: 0 <= i < |ds| ==> ds[i].id in ids
  }

  lemma AllStoredSnoc(ds: seq<ImageDto>, ids: seq<int>)
    requires ds != []
    ensures AllStored(ds, ids) <==> AllStored(ds[..|ds| - 1], ids) && ds[|ds| - 1].id in ids
  {
    assert forall i :: 0 <= i < |ds| - 1 ==> ds[..|ds| - 1][i] == ds[i];
  }

  /** The loop appends exactly when some DTO names an image that is not stored. */
  lemma {:induction false} MergedImagesGrowIff(images: seq<Image>, ds: seq<ImageDto>, toolLanguageId: int)
    requires ImagesHaveData(ds)
    ensures |MergedImages(images, ds, toolLanguageId)| == |images| <==> AllStored(ds, ImageIds(images))
    decreases |ds|
  {
    if ds != [] {
      var n := |ds| - 1;
      var front, d := ds[..n], ds[n];
      MergedImagesUnfold(images, ds, toolLanguageId);
      var cur := MergedImages(images, front, toolLanguageId);
      MergedImagesGrowIff(images, front, toolLanguageId);
      MergedImagesPrefix(images, front, toolLanguageId);
      MergeImageLength(cur, d, toolLanguageId);
      AllStoredSnoc(ds, ImageIds(images));
      if |cur| == |images| {
        assert ImageIds(cur) == ImageIds(cur)[..|images|];
      }
    }
  }

  /** By key, the loop adds nothing but the key 0 of new images. */
  lemma MergedImageIds(images: seq<Image>, ds: seq<ImageDto>, toolLanguageId: int, x: int)
    requires ImagesHaveData(ds)
    ensures var merged := MergedImages(images, ds, toolLanguageId);
      x in ImageIds(merged) <==> x in ImageIds(images) || (x == 0 && |merged| > |images|)
  {
    var merged := MergedImages(images, ds, toolLanguageId);
    if x in ImageIds(merged) {
      var m :| 0 <= m < |merged| && merged[m].imageId == x;
      if m < |images| {
        assert ImageIds(images)[m] == x;
      }
    }
    if x in ImageIds(images) {
      var m :| 0 <= m < |images| && images[m].imageId == x;
      assert ImageIds(merged)[m] == x;
    }
    if x == 0 && |merged| > |images| {
      assert ImageIds(merged)[|images|] == 0;
    }
  }

  /** The delete loop, by key: a key remains exactly when it was there and some DTO names it. */
  lemma PrunedImageIds(images: seq<Image>, ds: seq<ImageDto>, x: int)
    ensures x in ImageIds(PrunedImages(images, ds)) <==> x in ImageIds(images) && x in ImageDtoIds(ds)
  {
    var r := PrunedImages(images, ds);
    if x in ImageIds(r) {
      var k :| 0 <= k < |r| && r[k].imageId == x;
      assert r[k] in images;
    }
    if x in ImageIds(images) && x in ImageDtoIds(ds) {
      var m :| 0 <= m < |images| && images[m].imageId == x;
      assert images[m] in r;
      var k :| 0 <= k < |r| && r[k] == images[m];
      assert ImageIds(r)[k] == x;
    }
  }

  /**
    Both loops together, by key: an image with key x remains under a surviving tool language
    exactly when some DTO names x and x was stored, or x is 0 (the key of every new image)
    and some DTO named an image that was not stored.
  */
  lemma ReconciledImageIds(images: seq<Image>, ds: seq<ImageDto>, toolLanguageId: int, x: int)
    requires ImagesHaveData(ds)
    ensures x in ImageIds(PrunedImages(MergedImages(images, ds, toolLanguageId), ds))
            <==> x in ImageDtoIds(ds)
                 && (x in ImageIds(images) || (x == 0 && exists i :: 0 <= i < |ds| && ds[i].id !in ImageIds(images)))
  {
    MergedImagesGrowIff(images, ds, toolLanguageId);
    assert AllStored(ds, ImageIds(images)) <==> !exists i :: 0 <= i < |ds| && ds[i].id !in ImageIds(images);
    MergedImageIds(images, ds, toolLanguageId, x);
    PrunedImageIds(MergedImages(images, ds, toolLanguageId), ds, x);
  }

  /** Both loops keep every image keyed to the tool language that owns it. */
  lemma ReconciledImagesKeyed(images: seq<Image>, ds: seq<ImageDto>, toolLanguageId: int)
    requires ImagesHaveData(ds) && ImagesKeyed(images, toolLanguageId)
    ensures ImagesKeyed(MergedImages(images, ds, toolLanguageId), toolLanguageId)
    ensures ImagesKeyed(PrunedImages(MergedImages(images, ds, toolLanguageId), ds), toolLanguageId)
  {
    var merged := MergedImages(images, ds, toolLanguageId);
    var r := PrunedImages(merged, ds);
    forall k | 0 <= k < |r| ensures r[k].toolLanguageId == toolLanguageId {
      assert r[k] in merged;
    }
  }

  // Which DTO each new image comes from.

  /** Whether the turn for DTO `d`, run on `cur`, writes the image at index k (by match or by append). */
  predicate TurnWrites(cur: seq<Image>, d: ImageDto, k: nat)
  {
    FirstIndex(ImageIds(cur), d.id) == Some(k) || (d.id !in ImageIds(cur) && k == |cur|)
  }

  /** The index of the last DTO whose turn wrote the image at index k, or None. */
  function LastWriter(images: seq<Image>, ds: seq<ImageDto>, toolLanguageId: int, k: nat): (r: Option<nat>)
    requires ImagesHaveData(ds)
    ensures r.Some? ==> r.value < |ds|
    decreases |ds|
  {
    if ds == [] then None
    else
      var front := ds[..|ds| - 1];
      assert ImagesHaveData(front) by {
        assert forall i :: 0 <= i < |front| ==> front[i] == ds[i];
      }
      if TurnWrites(MergedImages(images, front, toolLanguageId), ds[|ds| - 1], k) then Some(|ds| - 1)
      else LastWriter(images, front, toolLanguageId, k)
  }

  /** A turn that writes a new image (one past the stored ones) leaves exactly the new image its DTO describes. */
  lemma WrittenNewImage(images: seq<Image>, cur: seq<Image>, d: ImageDto, toolLanguageId: int, k: nat)
    requires d.data.Some? && |images| <= k && TurnWrites(cur, d, k)
    requires |images| <= |cur| && ImageIds(cur)[..|images|] == ImageIds(images)
    requires forall m :: |images| <= m < |cur| ==> cur[m].imageId == 0 && cur[m].toolLanguageId == toolLanguageId
    ensures k < |MergeImage(cur, d, toolLanguageId)|
    ensures d.id !in ImageIds(images) && MergeImage(cur, d, toolLanguageId)[k] == NewImage(d, toolLanguageId)
  {
  }

  /**
    Every new image the loop added carries the upload and display order of the last DTO whose turn
    wrote it (appended it, or matched it by its key 0), and that DTO names no stored image.
  */
  lemma {:induction false} MergedImagesAppended(images: seq<Image>, ds: seq<ImageDto>, toolLanguageId: int, k: nat)
    requires ImagesHaveData(ds) && |images| <= k < |MergedImages(images, ds, toolLanguageId)|
    ensures var j := LastWriter(images, ds, toolLanguageId, k);
      && j.Some?
      && ds[j.value].id !in ImageIds(images)
      && MergedImages(images, ds, toolLanguageId)[k] == NewImage(ds[j.value], toolLanguageId)
    decreases |ds|
  {
    var front, d := ds[..|ds| - 1], ds[|ds| - 1];
    MergedImagesUnfold(images, ds, toolLanguageId);
    var cur := MergedImages(images, front, toolLanguageId);
    if TurnWrites(cur, d, k) {
      MergedImagesPrefix(images, front, toolLanguageId);
      WrittenNewImage(images, cur, d, toolLanguageId, k);
    } else {
      MergeImageLength(cur, d, toolLanguageId);
      MergeImageAt(cur, d, toolLanguageId, k);
      MergedImagesAppended(images, front, toolLanguageId, k);
    }
  }
}
