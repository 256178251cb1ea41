/**
  The tool-language level of PutEmployee's reconciliation: the add/update loop over a position's
  tool-language DTOs (each one running the image loop below it), and the delete loop over the
  position's stored tool languages (each survivor running the image delete loop).
*/
module ToolLanguageLevel {
  import opened Common
  import opened Lookup
  import opened Models
  import opened Dtos
  import opened ImageLevel

  /** Every image DTO under these tool-language DTOs carries an upload. */
  predicate ToolLanguagesHaveData(ds: seq<ToolLanguageDto>)
  {
    forall j :: 0 <= j < |ds| ==> ImagesHaveData(ds[j].images)
  }

  function ToolLanguageDtoIds(ds: seq<ToolLanguageDto>): (r: seq<int>)
    ensures |r| == |ds| && forall j :: 0 <= j < |ds| ==> r[j] == ds[j].id
  {
    seq(|ds|, j requires 0 <= j < |ds| => ds[j].id)
  }

  /** The keys of a DTO list are the keys of all but its last DTO, then the last one's. */
  lemma ToolLanguageDtoIdsSnoc(ds: seq<ToolLanguageDto>)
    requires ds != []
    ensures ToolLanguageDtoIds(ds) == ToolLanguageDtoIds(ds[..|ds| - 1]) + [ds[|ds| - 1].id]
    ensures ToolLanguageDtoIds(ds)[..|ds| - 1] == ToolLanguageDtoIds(ds[..|ds| - 1])
  {
  }

  /** The fields `_mapper.Map(toolLanguageDTO, toolLanguage)` writes; the profile ignores Images. */
  function WithScalars(t: ToolLanguage, d: ToolLanguageDto): ToolLanguage
  {
    t.(toolLanguageResourceId := d.toolLanguageResourceId, displayOrder := d.displayOrder,
       from := d.from, to := d.to, description := d.description)
  }

  /**
    A tool language the mapper builds from a DTO: the DTO's key and fields, owned by this position,
    and no image list (the profile ignores Images, so the list is null).
  */
  function NewToolLanguage(d: ToolLanguageDto, positionId: int): ToolLanguage
  {
    ToolLanguage(d.id, d.toolLanguageResourceId, d.displayOrder, d.from, d.to, d.description, [], false, positionId)
  }

  /** What the mapper builds for a new position's tool-language DTOs: one tool language per DTO, in order. */
  function MappedToolLanguages(ds: seq<ToolLanguageDto>, positionId: int): (r: seq<ToolLanguage>)
    ensures |r| == |ds| && ToolLanguageIds(r) == ToolLanguageDtoIds(ds)
  {
    seq(|ds|, j requires 0 <= j < |ds| => NewToolLanguage(ds[j], positionId))
  }

  /** The image loop run on a tool language with the DTO's images, after `??=` gives a null list an empty one. */
  function WithImages(t: ToolLanguage, d: ToolLanguageDto): ToolLanguage
    requires ImagesHaveData(d.images)
  {
    t.(images := MergedImages(if t.imagesLoaded then t.images else [], d.images, t.toolLanguageId), imagesLoaded := true)
  }

  /** The fields a DTO writes over, as one value (to say "these came from that DTO"). */
  function Scalars(t: ToolLanguage): (int, int, int, int, string)
  {
    (t.toolLanguageResourceId, t.displayOrder, t.from, t.to, t.description)
  }

  function DtoScalars(d: ToolLanguageDto): (int, int, int, int, string)
  {
    (d.toolLanguageResourceId, d.displayOrder, d.from, d.to, d.description)
  }

  /** One turn of the add/update loop: update the first tool language with the DTO's key, or append one. */
  function MergeToolLanguage(tls: seq<ToolLanguage>, d: ToolLanguageDto, positionId: int): seq<ToolLanguage>
    requires ImagesHaveData(d.images)
  {
    match FirstIndex(ToolLanguageIds(tls), d.id)
    case None => tls + [WithImages(NewToolLanguage(d, positionId), d)]
    case Some(k) => tls[k := WithImages(WithScalars(tls[k], d), d)]
  }

  /**
    The tool languages of a position after the add/update loop over `ds`. Stored ones keep their
    place, key and owner; the rest are new, owned by this position and keyed by some DTO; every
    DTO's key is now present.
  */
  function MergedToolLanguages(tls: seq<ToolLanguage>, ds: seq<ToolLanguageDto>, positionId: int): (r: seq<ToolLanguage>)
    requires ToolLanguagesHaveData(ds)
    ensures |tls| <= |r|
    ensures forall k :: 0 <= k < |tls| ==>
      r[k].toolLanguageId == tls[k].toolLanguageId && r[k].positionId == tls[k].positionId
    ensures forall k :: |tls| <= k < |r| ==> r[k].positionId == positionId && r[k].toolLanguageId in ToolLanguageDtoIds(ds)
    ensures forall x :: x in ToolLanguageDtoIds(ds) ==> x in ToolLanguageIds(r)
    decreases |ds|
  {
    if ds == [] then tls
    else
      var front, d := ds[..|ds| - 1], ds[|ds| - 1];
      assert ToolLanguagesHaveData(front) && ToolLanguageDtoIds(ds) == ToolLanguageDtoIds(front) + [d.id] by {
        assert forall j :: 0 <= j < |front| ==> front[j] == ds[j];
      }
      var cur := MergedToolLanguages(tls, front, positionId);
      MergeToolLanguageShape(cur, d, positionId);
      MergeToolLanguage(cur, d, positionId)
  }

  /** The add/update loop over `ds` is the loop over all but the last DTO, then one more turn. */
  lemma MergedToolLanguagesUnfold(tls: seq<ToolLanguage>, ds: seq<ToolLanguageDto>, positionId: int)
    requires ToolLanguagesHaveData(ds) && ds != []
    ensures ToolLanguagesHaveData(ds[..|ds| - 1])
    ensures MergedToolLanguages(tls, ds, positionId)
         == MergeToolLanguage(MergedToolLanguages(tls, ds[..|ds| - 1], positionId), ds[|ds| - 1], positionId)
  {
    assert forall j :: 0 <= j < |ds| - 1 ==> ds[..|ds| - 1][j] == ds[j];
  }

  /** The loop leaves the stored tool languages' keys where they were. */
  lemma MergedToolLanguagesPrefix(tls: seq<ToolLanguage>, ds: seq<ToolLanguageDto>, positionId: int)
    requires ToolLanguagesHaveData(ds)
    ensures var r := MergedToolLanguages(tls, ds, positionId);
      |tls| <= |r| && ToolLanguageIds(r)[..|tls|] == ToolLanguageIds(tls)
  {
  }

  /** One turn of the add/update loop keeps every key in place and adds at most the DTO's key, at the end. */
  lemma MergeToolLanguageShape(tls: seq<ToolLanguage>, d: ToolLanguageDto, positionId: int)
    requires ImagesHaveData(d.images)
    ensures var r := MergeToolLanguage(tls, d, positionId);
      && |tls| <= |r| <= |tls| + 1
      && (forall k :: 0 <= k < |tls| ==> r[k].toolLanguageId == tls[k].toolLanguageId && r[k].positionId == tls[k].positionId)
      && (|r| == |tls| + 1 ==> r[|tls|].toolLanguageId == d.id && r[|tls|].positionId == positionId)
      && d.id in ToolLanguageIds(r)
      && (forall x :: x in ToolLanguageIds(tls) ==> x in ToolLanguageIds(r))
  {
    var r := MergeToolLanguage(tls, d, positionId);
    match FirstIndex(ToolLanguageIds(tls), d.id)
    case None => assert ToolLanguageIds(r)[|tls|] == d.id;
    case Some(k) => assert ToolLanguageIds(r)[k] == d.id;
    forall x | x in ToolLanguageIds(tls) ensures x in ToolLanguageIds(r) {
      var k :| 0 <= k < |tls| && ToolLanguageIds(tls)[k] == x;
      assert ToolLanguageIds(r)[k] == x;
    }
  }

  /** A surviving tool language after the delete loop: its images pruned against the DTO that matched it. */
  function Kept(t: ToolLanguage, d: ToolLanguageDto): ToolLanguage
  {
    t.(images := PrunedImages(t.images, d.images))
  }

  /**
    The tool languages of a surviving position after the delete loop: each one is kept, with its
    images pruned, when some DTO has its key (the first such DTO decides), and removed with its
    images otherwise.
  */
  function PrunedToolLanguages(tls: seq<ToolLanguage>, ds: seq<ToolLanguageDto>): (r: seq<ToolLanguage>)
    ensures |r| <= |tls|
    ensures forall x :: x in ToolLanguageIds(r) <==> x in ToolLanguageIds(tls) && x in ToolLanguageDtoIds(ds)
    decreases |tls|
  {
    if tls == [] then []
    else
      var front, last := tls[..|tls| - 1], tls[|tls| - 1];
      assert ToolLanguageIds(tls) == ToolLanguageIds(front) + [last.toolLanguageId];
      var kept := PrunedToolLanguages(front, ds);
      match FirstIndex(ToolLanguageDtoIds(ds), last.toolLanguageId)
      case None => kept
      case Some(j) =>
        var r := kept + [Kept(last, ds[j])];
        assert ToolLanguageIds(r) == ToolLanguageIds(kept) + [last.toolLanguageId];
        r
  }

  /**
    The body of the add/update loop for one tool-language DTO: find the first tool language with
    its key and overwrite its fields, or append a new one; then run the image loop on it.
  */
  method MergeOneToolLanguage(tls: seq<ToolLanguage>, d: ToolLanguageDto, positionId: int)
    returns (ok: bool, r: seq<ToolLanguage>)
    ensures ok <==> ImagesHaveData(d.images)
    ensures ok ==> r == MergeToolLanguage(tls, d, positionId)
  {
    var k: nat;
    match FirstIndex(ToolLanguageIds(tls), d.id) {
      case None =>
        r := tls + [ToolLanguage(d.id, d.toolLanguageResourceId, d.displayOrder, d.from, d.to, d.description, [], false, positionId)];
        k := |tls|;
      case Some(j) =>
        r := tls[j := tls[j].(toolLanguageResourceId := d.toolLanguageResourceId, displayOrder := d.displayOrder,
                              from := d.from, to := d.to, description := d.description)];
        k := j;
    }
    if !r[k].imagesLoaded {
      r := r[k := r[k].(images := [], imagesLoaded := true)];
    }
    var images;
    ok, images := MergeImages(r[k].images, d.images, r[k].toolLanguageId);
    if ok {
      r := r[k := r[k].(images := images)];
    }
  }

  /** The add/update loop over tool-language DTOs; `ok` is false when an upload is missing. */
  method MergeToolLanguages(tls: seq<ToolLanguage>, ds: seq<ToolLanguageDto>, positionId: int)
    returns (ok: bool, r: seq<ToolLanguage>)
    ensures ok <==> ToolLanguagesHaveData(ds)
    ensures ok ==> r == MergedToolLanguages(tls, ds, positionId)
  {
    r := tls;
    var i := 0;
    while i < |ds|
      invariant 0 <= i <= |ds|
      invariant ToolLanguagesHaveData(ds[..i])
      invariant r == MergedToolLanguages(tls, ds[..i], positionId)
    {
      ok, r := MergeOneToolLanguage(r, ds[i], positionId);
      if !ok {
        return;
      }
      MergedToolLanguagesStep(tls, ds, i, positionId);
      i := i + 1;
    }
    assert ds[..i] == ds;
    ok := true;
  }

  lemma MergedToolLanguagesStep(tls: seq<ToolLanguage>, ds: seq<ToolLanguageDto>, i: nat, positionId: int)
    requires i < |ds| && ToolLanguagesHaveData(ds[..i]) && ImagesHaveData(ds[i].images)
    ensures ToolLanguagesHaveData(ds[..i + 1])
    ensures MergedToolLanguages(tls, ds[..i + 1], positionId)
         == MergeToolLanguage(MergedToolLanguages(tls, ds[..i], positionId), ds[i], positionId)
  {
    assert ds[..i + 1][..i] == ds[..i] && ds[..i + 1][i] == ds[i];
  }

  /**
    The delete loop reads the image list of every tool language some DTO names (`Images.ToList()`),
    which throws on a null list.
  */
  predicate ImagesReadable(tls: seq<ToolLanguage>, ds: seq<ToolLanguageDto>)
  {
    forall k :: 0 <= k < |tls| && tls[k].toolLanguageId in ToolLanguageDtoIds(ds) ==> tls[k].imagesLoaded
  }

  /** The delete loop over a surviving position's tool languages; `ok` is false when it meets a null image list. */
  method PruneToolLanguages(tls: seq<ToolLanguage>, ds: seq<ToolLanguageDto>) returns (ok: bool, r: seq<ToolLanguage>)
    ensures ok <==> ImagesReadable(tls, ds)
    ensures ok ==> r == PrunedToolLanguages(tls, ds)
  {
    r := [];
    var i := 0;
    while i < |tls|
      invariant 0 <= i <= |tls|
      invariant ImagesReadable(tls[..i], ds)
      invariant r == PrunedToolLanguages(tls[..i], ds)
    {
      var t := tls[i];
      PrunedToolLanguagesStep(tls, ds, i);
      match FirstIndex(ToolLanguageDtoIds(ds), t.toolLanguageId) {
        case None =>
        case Some(j) =>
          if !t.imagesLoaded {
            return false, r;
          }
          var images := PruneImages(t.images, ds[j].images);
          r := r + [t.(images := images)];
      }
      i := i + 1;
    }
    assert tls[..i] == tls;
    ok := true;
  }

  lemma PrunedToolLanguagesStep(tls: seq<ToolLanguage>, ds: seq<ToolLanguageDto>, i: nat)
    requires i < |tls|
    ensures var found := FirstIndex(ToolLanguageDtoIds(ds), tls[i].toolLanguageId);
      && (ImagesReadable(tls[..i + 1], ds) <==> ImagesReadable(tls[..i], ds) && (found.Some? ==> tls[i].imagesLoaded))
      && PrunedToolLanguages(tls[..i + 1], ds)
         == if found.None? then PrunedToolLanguages(tls[..i], ds)
            else PrunedToolLanguages(tls[..i], ds) + [Kept(tls[i], ds[found.value])]
  {
    assert tls[..i + 1][..i] == tls[..i] && tls[..i + 1][i] == tls[i];
  }

  /** By key, the add/update loop yields exactly the stored keys and the DTOs' keys. */
  lemma MergedToolLanguageIds(tls: seq<ToolLanguage>, ds: seq<ToolLanguageDto>, positionId: int, x: int)
    requires ToolLanguagesHaveData(ds)
    ensures x in ToolLanguageIds(MergedToolLanguages(tls, ds, positionId))
            <==> x in ToolLanguageIds(tls) || x in ToolLanguageDtoIds(ds)
  {
    var r := MergedToolLanguages(tls, ds, positionId);
    if x in ToolLanguageIds(r) {
      var k :| 0 <= k < |r| && r[k].toolLanguageId == x;
      if k < |tls| {
        assert ToolLanguageIds(tls)[k] == x;
      }
    }
    if x in ToolLanguageIds(tls) {
      var k :| 0 <= k < |tls| && tls[k].toolLanguageId == x;
      assert ToolLanguageIds(r)[k] == x;
    }
  }

  /** Both loops together, by key: a position handled by one DTO ends up with exactly that DTO's tool-language keys. */
  lemma ReconciledToolLanguageIds(tls: seq<ToolLanguage>, ds: seq<ToolLanguageDto>, positionId: int, x: int)
    requires ToolLanguagesHaveData(ds)
    ensures x in ToolLanguageIds(PrunedToolLanguages(MergedToolLanguages(tls, ds, positionId), ds))
            <==> x in ToolLanguageDtoIds(ds)
  {
    MergedToolLanguageIds(tls, ds, positionId, x);
  }

  /** The add/update loop never gives two tool languages of a position the same key, if they had distinct keys before. */
  lemma {:induction false} MergedToolLanguagesDistinct(tls: seq<ToolLanguage>, ds: seq<ToolLanguageDto>, positionId: int)
    requires ToolLanguagesHaveData(ds) && Distinct(ToolLanguageIds(tls))
    ensures Distinct(ToolLanguageIds(MergedToolLanguages(tls, ds, positionId)))
    decreases |ds|
  {
    if ds != [] {
      var front, d := ds[..|ds| - 1], ds[|ds| - 1];
      MergedToolLanguagesUnfold(tls, ds, positionId);
      var cur := MergedToolLanguages(tls, front, positionId);
      MergedToolLanguagesDistinct(tls, front, positionId);
      MergeToolLanguageIds(cur, d, positionId);
      if d.id !in ToolLanguageIds(cur) {
        DistinctSnoc(ToolLanguageIds(cur), d.id);
      }
    }
  }

  /** One turn of the add/update loop appends the DTO's key exactly when it is not stored yet, and otherwise leaves the keys alone. */
  lemma MergeToolLanguageIds(tls: seq<ToolLanguage>, d: ToolLanguageDto, positionId: int)
    requires ImagesHaveData(d.images)
    ensures ToolLanguageIds(MergeToolLanguage(tls, d, positionId))
         == if d.id in ToolLanguageIds(tls) then ToolLanguageIds(tls) else ToolLanguageIds(tls) + [d.id]
  {
    var r := MergeToolLanguage(tls, d, positionId);
    match FirstIndex(ToolLanguageIds(tls), d.id)
    case None =>
      assert ToolLanguageIds(r) == ToolLanguageIds(tls) + [d.id];
    case Some(k) =>
      assert ToolLanguageIds(r) == ToolLanguageIds(tls);
  }

  /** One turn of the loop writes the fields of a stored tool language only when it is the first one with the DTO's key. */
  lemma MergeToolLanguageAt(tls: seq<ToolLanguage>, d: ToolLanguageDto, positionId: int, k: nat)
    requires ImagesHaveData(d.images) && k < |tls|
    ensures Scalars(MergeToolLanguage(tls, d, positionId)[k])
            == if FirstIndex(ToolLanguageIds(tls), d.id) == Some(k) then DtoScalars(d) else Scalars(tls[k])
  {
  }

  /**
    The fields the stored tool language at index k should end up with once the DTOs `ds` have
    been applied: those of the last DTO with its key, if it is the first with that key and some
    DTO names it, and its own otherwise.
  */
  function LastWritten(tls: seq<ToolLanguage>, ds: seq<ToolLanguageDto>, k: nat): (int, int, int, int, string)
    requires k < |tls|
  {
    var x := tls[k].toolLanguageId;
    match LastIndex(ToolLanguageDtoIds(ds), x)
    case Some(j) => if FirstIndex(ToolLanguageIds(tls), x) == Some(k) then DtoScalars(ds[j]) else Scalars(tls[k])
    case None => Scalars(tls[k])
  }

  /** One more turn of the loop, on any list that keeps the stored keys in place, keeps `LastWritten` true. */
  lemma LastWrittenTurn(tls: seq<ToolLanguage>, cur: seq<ToolLanguage>, ds: seq<ToolLanguageDto>, positionId: int, k: nat)
    requires ds != [] && ImagesHaveData(ds[|ds| - 1].images)
    requires k < |tls| <= |cur| && ToolLanguageIds(cur)[..|tls|] == ToolLanguageIds(tls)
    requires Scalars(cur[k]) == LastWritten(tls, ds[..|ds| - 1], k)
    ensures Scalars(MergeToolLanguage(cur, ds[|ds| - 1], positionId)[k]) == LastWritten(tls, ds, k)
  {
    var x := tls[k].toolLanguageId;
    var n := |ds| - 1;
    var d := ds[n];
    MergeToolLanguageAt(cur, d, positionId, k);
    var dtoIds := ToolLanguageDtoIds(ds);
    ToolLanguageDtoIdsSnoc(ds);
    assert ToolLanguageIds(cur)[k] == ToolLanguageIds(tls)[k] == x;
    if d.id == x {
      FirstIndexStable(ToolLanguageIds(tls), ToolLanguageIds(cur), x);
      assert LastIndex(dtoIds, x) == Some(n);
    } else {
      assert FirstIndex(ToolLanguageIds(cur), d.id) != Some(k);
      LastIndexDropLast(dtoIds, x);
    }
  }

  /** The step of the induction below: one more DTO at the end keeps `LastWritten` true. */
  lemma MergedLastWritten(tls: seq<ToolLanguage>, ds: seq<ToolLanguageDto>, positionId: int, k: nat)
    requires ds != [] && ToolLanguagesHaveData(ds) && k < |tls|
    requires ToolLanguagesHaveData(ds[..|ds| - 1])
    requires Scalars(MergedToolLanguages(tls, ds[..|ds| - 1], positionId)[k]) == LastWritten(tls, ds[..|ds| - 1], k)
    ensures Scalars(MergedToolLanguages(tls, ds, positionId)[k]) == LastWritten(tls, ds, k)
  {
    MergedToolLanguagesUnfold(tls, ds, positionId);
    MergedToolLanguagesPrefix(tls, ds[..|ds| - 1], positionId);
    LastWrittenTurn(tls, MergedToolLanguages(tls, ds[..|ds| - 1], positionId), ds, positionId, k);
  }

  /**
    Last write wins for the fields a DTO writes: a stored tool language ends up with the fields of
    the last DTO carrying its key (only the first one with that key is matched); one no DTO names
    keeps its fields.
  */
  lemma {:induction false} MergedToolLanguagesLastWins(tls: seq<ToolLanguage>, ds: seq<ToolLanguageDto>, positionId: int, k: nat)
    requires ToolLanguagesHaveData(ds) && k < |tls|
    ensures Scalars(MergedToolLanguages(tls, ds, positionId)[k]) == LastWritten(tls, ds, k)
    decreases |ds|
  {
    if ds != [] {
      MergedToolLanguagesUnfold(tls, ds, positionId);
      MergedToolLanguagesLastWins(tls, ds[..|ds| - 1], positionId, k);
      MergedLastWritten(tls, ds, positionId, k);
    }
  }

  /** The add/update loop keeps the tree parent-keyed: every tool language owned by this position, every image by its tool language. */
  lemma {:induction false} MergedToolLanguagesKeyed(tls: seq<ToolLanguage>, ds: seq<ToolLanguageDto>, positionId: int)
    requires ToolLanguagesHaveData(ds) && ToolLanguagesKeyed(tls, positionId)
    ensures ToolLanguagesKeyed(MergedToolLanguages(tls, ds, positionId), positionId)
    decreases |ds|
  {
    if ds != [] {
      var front, d := ds[..|ds| - 1], ds[|ds| - 1];
      MergedToolLanguagesUnfold(tls, ds, positionId);
      var cur := MergedToolLanguages(tls, front, positionId);
      MergedToolLanguagesKeyed(tls, front, positionId);
      assert MergedToolLanguages(tls, ds, positionId) == MergeToolLanguage(cur, d, positionId);
      match FirstIndex(ToolLanguageIds(cur), d.id)
      case None =>
        ReconciledImagesKeyed([], d.images, d.id);
      case Some(k) =>
        var t := WithScalars(cur[k], d);
        ReconciledImagesKeyed(if t.imagesLoaded then t.images else [], d.images, t.toolLanguageId);
    }
  }

  /** The delete loop keeps the tree parent-keyed. */
  lemma {:induction false} PrunedToolLanguagesKeyed(tls: seq<ToolLanguage>, ds: seq<ToolLanguageDto>, positionId: int)
    requires ToolLanguagesKeyed(tls, positionId)
    ensures ToolLanguagesKeyed(PrunedToolLanguages(tls, ds), positionId)
    decreases |tls|
  {
    if tls != [] {
      var front, last := tls[..|tls| - 1], tls[|tls| - 1];
      PrunedToolLanguagesKeyed(front, ds, positionId);
      match FirstIndex(ToolLanguageDtoIds(ds), last.toolLanguageId)
      case None =>
      case Some(j) =>
        var kept := Kept(last, ds[j]);
        forall m | 0 <= m < |kept.images| ensures kept.images[m].toolLanguageId == last.toolLanguageId {
          assert kept.images[m] in last.images;
        }
    }
  }

  /** With every DTO's years in order (the validator's From <= To), both loops keep every stored range ordered. */
  lemma {:induction false} MergedToolLanguagesRanges(tls: seq<ToolLanguage>, ds: seq<ToolLanguageDto>, positionId: int)
    requires ToolLanguagesHaveData(ds) && RangesOrdered(tls)
    requires forall j :: 0 <= j < |ds| ==> ds[j].from <= ds[j].to
    ensures RangesOrdered(MergedToolLanguages(tls, ds, positionId))
    decreases |ds|
  {
    if ds != [] {
      var front, d := ds[..|ds| - 1], ds[|ds| - 1];
      MergedToolLanguagesUnfold(tls, ds, positionId);
      assert forall j :: 0 <= j < |front| ==> front[j].from <= front[j].to;
      MergedToolLanguagesRanges(tls, front, positionId);
      MergeToolLanguageRanges(MergedToolLanguages(tls, front, positionId), d, positionId);
    }
  }

  /** One turn of the loop with a DTO whose years are in order keeps every range ordered. */
  lemma MergeToolLanguageRanges(tls: seq<ToolLanguage>, d: ToolLanguageDto, positionId: int)
    requires ImagesHaveData(d.images) && RangesOrdered(tls) && d.from <= d.to
    ensures RangesOrdered(MergeToolLanguage(tls, d, positionId))
  {
  }

  lemma {:induction false} PrunedToolLanguagesRanges(tls: seq<ToolLanguage>, ds: seq<ToolLanguageDto>)
    requires RangesOrdered(tls)
    ensures RangesOrdered(PrunedToolLanguages(tls, ds))
    decreases |tls|
  {
    if tls != [] {
      PrunedToolLanguagesRanges(tls[..|tls| - 1], ds);
    }
  }

  /** Every survivor of the delete loop is a stored tool language whose key some DTO has, pruned against the first such DTO. */
  lemma {:induction false} PrunedToolLanguageFrom(tls: seq<ToolLanguage>, ds: seq<ToolLanguageDto>, k: nat)
    requires k < |PrunedToolLanguages(tls, ds)|
    ensures exists j :: (0 <= j < |tls| && tls[j].toolLanguageId in ToolLanguageDtoIds(ds)
                         && PrunedToolLanguages(tls, ds)[k]
                            == Kept(tls[j], ds[FirstIndex(ToolLanguageDtoIds(ds), tls[j].toolLanguageId).value]))
    decreases |tls|
  {
    var front, last := tls[..|tls| - 1], tls[|tls| - 1];
    var kept := PrunedToolLanguages(front, ds);
    var r := PrunedToolLanguages(tls, ds);
    var found := FirstIndex(ToolLanguageDtoIds(ds), last.toolLanguageId);
    assert r == if found.None? then kept else kept + [Kept(last, ds[found.value])];
    if k < |kept| {
      assert r[k] == kept[k];
      PrunedToolLanguageFrom(front, ds, k);
      var j :| (0 <= j < |front| && front[j].toolLanguageId in ToolLanguageDtoIds(ds)
                && kept[k] == Kept(front[j], ds[FirstIndex(ToolLanguageDtoIds(ds), front[j].toolLanguageId).value]));
      assert tls[j] == front[j];
    } else {
      assert r[k] == Kept(tls[|tls| - 1], ds[found.value]);
    }
  }

  // Which image lists the add/update loop leaves null, and whether the delete loop can read them.

  /** One turn of the loop gives an image list to the tool language it writes or appends, and to no other. */
  lemma MergeToolLanguageLoaded(tls: seq<ToolLanguage>, d: ToolLanguageDto, positionId: int, k: nat)
    requires ImagesHaveData(d.images) && k < |MergeToolLanguage(tls, d, positionId)|
    ensures MergeToolLanguage(tls, d, positionId)[k].imagesLoaded
            <==> k >= |tls| || tls[k].imagesLoaded || FirstIndex(ToolLanguageIds(tls), d.id) == Some(k)
  {
  }

  /**
    After the loop, a tool language has an image list when it is new, or had one, or is the first
    one with the key of some DTO (the one the loop matched); every other one keeps a null list.
  */
  lemma {:induction false} MergedToolLanguagesLoaded(tls: seq<ToolLanguage>, ds: seq<ToolLanguageDto>, positionId: int, k: nat)
    requires ToolLanguagesHaveData(ds) && k < |MergedToolLanguages(tls, ds, positionId)|
    ensures MergedToolLanguages(tls, ds, positionId)[k].imagesLoaded
            <==> || k >= |tls| || tls[k].imagesLoaded
                 || (tls[k].toolLanguageId in ToolLanguageDtoIds(ds)
                     && FirstIndex(ToolLanguageIds(tls), tls[k].toolLanguageId) == Some(k))
    decreases |ds|
  {
    if ds != [] {
      var front := ds[..|ds| - 1];
      MergedToolLanguagesUnfold(tls, ds, positionId);
      var cur := MergedToolLanguages(tls, front, positionId);
      MergedToolLanguagesPrefix(tls, front, positionId);
      if k < |cur| {
        MergedToolLanguagesLoaded(tls, front, positionId, k);
      }
      LoadedTurn(tls, cur, ds, positionId, k);
    }
  }

  /** The right-hand side of `MergedToolLanguagesLoaded`: which tool languages the loop over `ds` leaves with an image list. */
  predicate LoadedAfter(tls: seq<ToolLanguage>, ds: seq<ToolLanguageDto>, k: nat)
  {
    || k >= |tls| || tls[k].imagesLoaded
    || (tls[k].toolLanguageId in ToolLanguageDtoIds(ds)
        && FirstIndex(ToolLanguageIds(tls), tls[k].toolLanguageId) == Some(k))
  }

  /** One more turn of the loop, on any list that keeps the stored keys in place, keeps `LoadedAfter` exact. */
  lemma LoadedTurn(tls: seq<ToolLanguage>, cur: seq<ToolLanguage>, ds: seq<ToolLanguageDto>, positionId: int, k: nat)
    requires ds != [] && ImagesHaveData(ds[|ds| - 1].images)
    requires |tls| <= |cur| && ToolLanguageIds(cur)[..|tls|] == ToolLanguageIds(tls)
    requires k < |MergeToolLanguage(cur, ds[|ds| - 1], positionId)|
    requires k < |cur| ==> (cur[k].imagesLoaded <==> LoadedAfter(tls, ds[..|ds| - 1], k))
    ensures MergeToolLanguage(cur, ds[|ds| - 1], positionId)[k].imagesLoaded <==> LoadedAfter(tls, ds, k)
  {
    var n := |ds| - 1;
    var d := ds[n];
    MergeToolLanguageShape(cur, d, positionId);
    MergeToolLanguageLoaded(cur, d, positionId, k);
    if k < |tls| {
      var x := tls[k].toolLanguageId;
      ToolLanguageDtoIdsSnoc(ds);
      assert ToolLanguageIds(cur)[k] == ToolLanguageIds(tls)[k] == x;
      if d.id == x {
        FirstIndexStable(ToolLanguageIds(tls), ToolLanguageIds(cur), x);
      }
    }
  }

  /** A position whose tool languages all had image lists still has them all after the loop. */
  lemma MergedToolLanguagesAllLoaded(tls: seq<ToolLanguage>, ds: seq<ToolLanguageDto>, positionId: int)
    requires ToolLanguagesHaveData(ds) && forall k :: 0 <= k < |tls| ==> tls[k].imagesLoaded
    ensures var r := MergedToolLanguages(tls, ds, positionId);
      forall k :: 0 <= k < |r| ==> r[k].imagesLoaded
  {
    var r := MergedToolLanguages(tls, ds, positionId);
    forall k | 0 <= k < |r| ensures r[k].imagesLoaded {
      MergedToolLanguagesLoaded(tls, ds, positionId, k);
    }
  }

  /**
    For a new position the loop runs over the mapper's copy of its own DTOs. The delete loop can
    then read every image list exactly when those DTOs have distinct keys: a second DTO with a
    key finds the first copy, and the second copy keeps its null list.
  */
  lemma MappedToolLanguagesReadable(ds: seq<ToolLanguageDto>, positionId: int)
    requires ToolLanguagesHaveData(ds)
    ensures ImagesReadable(MergedToolLanguages(MappedToolLanguages(ds, positionId), ds, positionId), ds)
            <==> Distinct(ToolLanguageDtoIds(ds))
    ensures var r := MergedToolLanguages(MappedToolLanguages(ds, positionId), ds, positionId);
      Distinct(ToolLanguageDtoIds(ds)) ==> forall k :: 0 <= k < |r| ==> r[k].imagesLoaded
  {
    var m := MappedToolLanguages(ds, positionId);
    var r := MergedToolLanguages(m, ds, positionId);
    var ids := ToolLanguageDtoIds(ds);
    DistinctIffFirst(ids);
    forall k | 0 <= k < |m|
      ensures r[k].toolLanguageId == ids[k] && (r[k].imagesLoaded <==> FirstIndex(ids, ids[k]) == Some(k))
    {
      MergedToolLanguagesLoaded(m, ds, positionId, k);
    }
    if Distinct(ids) {
      forall k | 0 <= k < |r| ensures r[k].imagesLoaded {
        MergedToolLanguagesLoaded(m, ds, positionId, k);
      }
    }
  }

  /**
    A tool language with a null list that is not the first with its key keeps its null list
    through any later run of the loop, and stays not the first with its key.
  */
  lemma StaysUnloaded(tls: seq<ToolLanguage>, ds: seq<ToolLanguageDto>, positionId: int, l: nat)
    requires ToolLanguagesHaveData(ds) && l < |tls| && !tls[l].imagesLoaded
    requires FirstIndex(ToolLanguageIds(tls), tls[l].toolLanguageId) != Some(l)
    ensures var r := MergedToolLanguages(tls, ds, positionId);
      && l < |r| && r[l].toolLanguageId == tls[l].toolLanguageId && !r[l].imagesLoaded
      && FirstIndex(ToolLanguageIds(r), r[l].toolLanguageId) != Some(l)
  {
    var r := MergedToolLanguages(tls, ds, positionId);
    MergedToolLanguagesLoaded(tls, ds, positionId, l);
    MergedToolLanguagesPrefix(tls, ds, positionId);
    assert ToolLanguageIds(tls)[l] == tls[l].toolLanguageId;
    FirstIndexStable(ToolLanguageIds(tls), ToolLanguageIds(r), tls[l].toolLanguageId);
  }

  /**
    The tool language at k (one the loop added) is the only one with its key, which is not a
    stored key, and it carries the fields of the last DTO with that key.
  */
  predicate AddedFrom(tls: seq<ToolLanguage>, r: seq<ToolLanguage>, ds: seq<ToolLanguageDto>, k: nat)
    requires k < |r|
  {
    var x := r[k].toolLanguageId;
    && x !in ToolLanguageIds(tls)
    && FirstIndex(ToolLanguageIds(r), x) == Some(k)
    && LastIndex(ToolLanguageDtoIds(ds), x).Some?
    && Scalars(r[k]) == DtoScalars(ds[LastIndex(ToolLanguageDtoIds(ds), x).value])
  }

  /** The turn that appends a tool language makes it `AddedFrom` its DTO. */
  lemma AddedTurnAppend(tls: seq<ToolLanguage>, cur: seq<ToolLanguage>, ds: seq<ToolLanguageDto>, positionId: int)
    requires ds != [] && ImagesHaveData(ds[|ds| - 1].images)
    requires |tls| <= |cur| && ToolLanguageIds(cur)[..|tls|] == ToolLanguageIds(tls)
    requires ds[|ds| - 1].id !in ToolLanguageIds(cur)
    ensures |MergeToolLanguage(cur, ds[|ds| - 1], positionId)| == |cur| + 1
    ensures AddedFrom(tls, MergeToolLanguage(cur, ds[|ds| - 1], positionId), ds, |cur|)
  {
    var n := |ds| - 1;
    var d := ds[n];
    var r := MergeToolLanguage(cur, d, positionId);
    MergeToolLanguageIds(cur, d, positionId);
    FirstIndexIsFirst(ToolLanguageIds(r), |cur|);
    assert LastIndex(ToolLanguageDtoIds(ds), d.id) == Some(n);
  }

  /** One turn of the loop leaves the first tool language with a key in place and still first with that key. */
  lemma MergeToolLanguageKeepsFirst(cur: seq<ToolLanguage>, d: ToolLanguageDto, positionId: int, k: nat)
    requires ImagesHaveData(d.images) && k < |cur|
    requires FirstIndex(ToolLanguageIds(cur), cur[k].toolLanguageId) == Some(k)
    ensures var r := MergeToolLanguage(cur, d, positionId);
      && k < |r| && r[k].toolLanguageId == cur[k].toolLanguageId
      && FirstIndex(ToolLanguageIds(r), cur[k].toolLanguageId) == Some(k)
  {
    var r := MergeToolLanguage(cur, d, positionId);
    MergeToolLanguageShape(cur, d, positionId);
    MergeToolLanguageIds(cur, d, positionId);
    assert ToolLanguageIds(cur)[k] == cur[k].toolLanguageId;
    FirstIndexStable(ToolLanguageIds(cur), ToolLanguageIds(r), cur[k].toolLanguageId);
  }

  /** A later turn keeps a tool language the loop added `AddedFrom` the last DTO with its key. */
  lemma AddedTurnKeep(tls: seq<ToolLanguage>, cur: seq<ToolLanguage>, ds: seq<ToolLanguageDto>, positionId: int, k: nat)
    requires ds != [] && ImagesHaveData(ds[|ds| - 1].images)
    requires k < |cur| && AddedFrom(tls, cur, ds[..|ds| - 1], k)
    ensures k < |MergeToolLanguage(cur, ds[|ds| - 1], positionId)|
    ensures AddedFrom(tls, MergeToolLanguage(cur, ds[|ds| - 1], positionId), ds, k)
  {
    var d := ds[|ds| - 1];
    MergeToolLanguageKeepsFirst(cur, d, positionId, k);
    MergeToolLanguageAt(cur, d, positionId, k);
    AddedKept(tls, cur, MergeToolLanguage(cur, d, positionId), ds, k);
  }

  /**
    The bookkeeping of `AddedTurnKeep`, over any list `r` that a turn for the last DTO could leave:
    the tool language stays first with its key and takes the DTO's fields only when it was matched.
  */
  lemma AddedKept(tls: seq<ToolLanguage>, cur: seq<ToolLanguage>, r: seq<ToolLanguage>, ds: seq<ToolLanguageDto>, k: nat)
    requires ds != [] && k < |cur| && k < |r| && AddedFrom(tls, cur, ds[..|ds| - 1], k)
    requires r[k].toolLanguageId == cur[k].toolLanguageId && FirstIndex(ToolLanguageIds(r), cur[k].toolLanguageId) == Some(k)
    requires Scalars(r[k])
             == if FirstIndex(ToolLanguageIds(cur), ds[|ds| - 1].id) == Some(k) then DtoScalars(ds[|ds| - 1])
                else Scalars(cur[k])
    ensures AddedFrom(tls, r, ds, k)
  {
    var n := |ds| - 1;
    var x := cur[k].toolLanguageId;
    ToolLanguageDtoIdsSnoc(ds);
    LastIndexSnoc(ToolLanguageDtoIds(ds[..n]), ds[n].id, x);
    if ds[n].id != x {
      var j := LastIndex(ToolLanguageDtoIds(ds[..n]), x).value;
      assert ds[..n][j] == ds[j];
    }
  }

  /**
    A tool language the loop added is the only one with its key, which is not a stored key, and it
    carries the fields of the last DTO with that key.
  */
  lemma {:induction false} MergedToolLanguagesAppended(tls: seq<ToolLanguage>, ds: seq<ToolLanguageDto>, positionId: int, k: nat)
    requires ToolLanguagesHaveData(ds) && |tls| <= k < |MergedToolLanguages(tls, ds, positionId)|
    ensures AddedFrom(tls, MergedToolLanguages(tls, ds, positionId), ds, k)
    decreases |ds|
  {
    var front, d := ds[..|ds| - 1], ds[|ds| - 1];
    MergedToolLanguagesUnfold(tls, ds, positionId);
    var cur := MergedToolLanguages(tls, front, positionId);
    MergeToolLanguageShape(cur, d, positionId);
    if k < |cur| {
      MergedToolLanguagesAppended(tls, front, positionId, k);
      AddedTurnKeep(tls, cur, ds, positionId, k);
    } else {
      MergedToolLanguagesPrefix(tls, front, positionId);
      AddedTurnAppend(tls, cur, ds, positionId);
    }
  }
}
