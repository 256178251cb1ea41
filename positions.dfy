/**
  The position level of PutEmployee's reconciliation, and the whole of it for one employee:
  the Name copy, the add/update pass over the position DTOs and the delete pass over the
  employee's positions.
*/
module PositionLevel {
  import opened Common
  import opened Lookup
  import opened Models
  import opened Dtos
  import opened ImageLevel
  import opened ToolLanguageLevel

  /** Every image DTO anywhere under these position DTOs carries an upload. */
  predicate PositionsHaveData(ds: seq<PositionDto>)
  {
    forall i :: 0 <= i < |ds| ==> ToolLanguagesHaveData(ds[i].toolLanguages)
  }

  function PositionDtoIds(ds: seq<PositionDto>): (r: seq<int>)
    ensures |r| == |ds| && forall i :: 0 <= i < |ds| ==> r[i] == ds[i].id
  {
    seq(|ds|, i requires 0 <= i < |ds| => ds[i].id)
  }

  /** The keys of a DTO list are the keys of all but its last DTO, then the last one's. */
  lemma PositionDtoIdsSnoc(ds: seq<PositionDto>)
    requires ds != []
    ensures PositionDtoIds(ds) == PositionDtoIds(ds[..|ds| - 1]) + [ds[|ds| - 1].id]
    ensures PositionDtoIds(ds)[..|ds| - 1] == PositionDtoIds(ds[..|ds| - 1])
  {
  }

  /** The fields `_mapper.Map(positionDTO, position)` writes (the tool languages are handled by the loop below it). */
  function PositionWithScalars(p: Position, d: PositionDto): Position
  {
    p.(positionResourceId := d.positionResourceId, displayOrder := d.displayOrder)
  }

  /**
    A position the mapper builds from a DTO that matched nothing: the DTO's key and fields, owned
    by this employee, and a deep copy of its tool-language DTOs, each with a null image list.
  */
  function NewPosition(d: PositionDto, employeeId: int): Position
  {
    Position(d.id, d.positionResourceId, d.displayOrder, MappedToolLanguages(d.toolLanguages, d.id), employeeId)
  }

  /** The tool-language loop run on a position with the DTO's tool languages. */
  function WithToolLanguages(p: Position, d: PositionDto): Position
    requires ToolLanguagesHaveData(d.toolLanguages)
  {
    p.(toolLanguages := MergedToolLanguages(p.toolLanguages, d.toolLanguages, p.positionId))
  }

  /** One turn of the add/update pass: update the first position with the DTO's key, or append one. */
  function MergePosition(ps: seq<Position>, d: PositionDto, employeeId: int): seq<Position>
    requires ToolLanguagesHaveData(d.toolLanguages)
  {
    match FirstIndex(PositionIds(ps), d.id)
    case None => ps + [WithToolLanguages(NewPosition(d, employeeId), d)]
    case Some(k) => ps[k := WithToolLanguages(PositionWithScalars(ps[k], d), d)]
  }

  /**
    The positions of an employee after the add/update pass over `ds`. Stored ones keep their
    place, key and owner; the rest are new, owned by this employee and keyed by some DTO; every
    DTO's key is now present.
  */
  function MergedPositions(ps: seq<Position>, ds: seq<PositionDto>, employeeId: int): (r: seq<Position>)
    requires PositionsHaveData(ds)
    ensures |ps| <= |r|
    ensures forall k :: 0 <= k < |ps| ==> r[k].positionId == ps[k].positionId && r[k].employeeId == ps[k].employeeId
    ensures forall k :: |ps| <= k < |r| ==> r[k].employeeId == employeeId && r[k].positionId in PositionDtoIds(ds)
    ensures forall x :: x in PositionDtoIds(ds) ==> x in PositionIds(r)
    decreases |ds|
  {
    if ds == [] then ps
    else
      var front, d := ds[..|ds| - 1], ds[|ds| - 1];
      assert PositionsHaveData(front) && PositionDtoIds(ds) == PositionDtoIds(front) + [d.id] by {
        assert forall i :: 0 <= i < |front| ==> front[i] == ds[i];
      }
      var cur := MergedPositions(ps, front, employeeId);
      MergePositionShape(cur, d, employeeId);
      MergePosition(cur, d, employeeId)
  }

  /** The add/update pass over `ds` is the pass over all but the last DTO, then one more turn. */
  lemma MergedPositionsUnfold(ps: seq<Position>, ds: seq<PositionDto>, employeeId: int)
    requires PositionsHaveData(ds) && ds != []
    ensures PositionsHaveData(ds[..|ds| - 1])
    ensures MergedPositions(ps, ds, employeeId)
         == MergePosition(MergedPositions(ps, ds[..|ds| - 1], employeeId), ds[|ds| - 1], employeeId)
  {
    assert forall i :: 0 <= i < |ds| - 1 ==> ds[..|ds| - 1][i] == ds[i];
  }

  /** One turn of the add/update pass keeps every key in place and adds at most the DTO's key, at the end. */
  lemma MergePositionShape(ps: seq<Position>, d: PositionDto, employeeId: int)
    requires ToolLanguagesHaveData(d.toolLanguages)
    ensures var r := MergePosition(ps, d, employeeId);
      && |ps| <= |r| <= |ps| + 1
      && (forall k :: 0 <= k < |ps| ==> r[k].positionId == ps[k].positionId && r[k].employeeId == ps[k].employeeId)
      && (|r| == |ps| + 1 ==> r[|ps|].positionId == d.id && r[|ps|].employeeId == employeeId)
      && d.id in PositionIds(r)
      && (forall x :: x in PositionIds(ps) ==> x in PositionIds(r))
  {
    var r := MergePosition(ps, d, employeeId);
    match FirstIndex(PositionIds(ps), d.id)
    case None => assert PositionIds(r)[|ps|] == d.id;
    case Some(k) => assert PositionIds(r)[k] == d.id;
    forall x | x in PositionIds(ps) ensures x in PositionIds(r) {
      var k :| 0 <= k < |ps| && PositionIds(ps)[k] == x;
      assert PositionIds(r)[k] == x;
    }
  }

  /** One turn of the add/update pass appends the DTO's key exactly when it is not stored yet, and otherwise leaves the keys alone. */
  lemma MergePositionIds(ps: seq<Position>, d: PositionDto, employeeId: int)
    requires ToolLanguagesHaveData(d.toolLanguages)
    ensures PositionIds(MergePosition(ps, d, employeeId))
         == if d.id in PositionIds(ps) then PositionIds(ps) else PositionIds(ps) + [d.id]
  {
    var r := MergePosition(ps, d, employeeId);
    match FirstIndex(PositionIds(ps), d.id)
    case None =>
      assert PositionIds(r) == PositionIds(ps) + [d.id];
    case Some(k) =>
      assert PositionIds(r) == PositionIds(ps);
  }

  /** A surviving position after the delete pass: its tool languages pruned against the DTO that matched it. */
  function KeptPosition(p: Position, d: PositionDto): Position
  {
    p.(toolLanguages := PrunedToolLanguages(p.toolLanguages, d.toolLanguages))
  }

  /**
    The positions after the delete pass: each one is kept, its tool languages pruned, when some
    DTO has its key (the first such DTO decides), and removed with its subtree otherwise.
  */
  function PrunedPositions(ps: seq<Position>, ds: seq<PositionDto>): (r: seq<Position>)
    ensures |r| <= |ps|
    ensures forall x :: x in PositionIds(r) <==> x in PositionIds(ps) && x in PositionDtoIds(ds)
    decreases |ps|
  {
    if ps == [] then []
    else
      var front, last := ps[..|ps| - 1], ps[|ps| - 1];
      assert PositionIds(ps) == PositionIds(front) + [last.positionId];
      var kept := PrunedPositions(front, ds);
      match FirstIndex(PositionDtoIds(ds), last.positionId)
      case None => kept
      case Some(j) =>
        var r := kept + [KeptPosition(last, ds[j])];
        assert PositionIds(r) == PositionIds(kept) + [last.positionId];
        r
  }

  /**
    PutEmployee's reconciliation of one employee: Name is copied from the DTO, then the
    add/update pass and the delete pass run over its positions.
  */
  function Reconciled(e: Employee, dto: EmployeeDto): Employee
    requires PositionsHaveData(dto.positions)
  {
    e.(name := dto.name,
       positions := PrunedPositions(MergedPositions(e.positions, dto.positions, e.employeeId), dto.positions))
  }

  /** The body of the add/update pass for one position DTO. */
  method MergeOnePosition(ps: seq<Position>, d: PositionDto, employeeId: int) returns (ok: bool, r: seq<Position>)
    ensures ok <==> ToolLanguagesHaveData(d.toolLanguages)
    ensures ok ==> r == MergePosition(ps, d, employeeId)
  {
    var k: nat;
    match FirstIndex(PositionIds(ps), d.id) {
      case None =>
        r := ps + [Position(d.id, d.positionResourceId, d.displayOrder, MappedToolLanguages(d.toolLanguages, d.id), employeeId)];
        k := |ps|;
      case Some(j) =>
        r := ps[j := ps[j].(positionResourceId := d.positionResourceId, displayOrder := d.displayOrder)];
        k := j;
    }
    var tls;
    ok, tls := MergeToolLanguages(r[k].toolLanguages, d.toolLanguages, r[k].positionId);
    if ok {
      r := r[k := r[k].(toolLanguages := tls)];
    }
  }

  /** The add/update pass over the position DTOs; `ok` is false when an upload is missing. */
  method MergePositions(ps: seq<Position>, ds: seq<PositionDto>, employeeId: int) returns (ok: bool, r: seq<Position>)
    ensures ok <==> PositionsHaveData(ds)
    ensures ok ==> r == MergedPositions(ps, ds, employeeId)
  {
    r := ps;
    var i := 0;
    while i < |ds|
      invariant 0 <= i <= |ds|
      invariant PositionsHaveData(ds[..i])
      invariant r == MergedPositions(ps, ds[..i], employeeId)
    {
      ok, r := MergeOnePosition(r, ds[i], employeeId);
      if !ok {
        return;
      }
      MergedPositionsStep(ps, ds, i, employeeId);
      i := i + 1;
    }
    assert ds[..i] == ds;
    ok := true;
  }

  lemma MergedPositionsStep(ps: seq<Position>, ds: seq<PositionDto>, i: nat, employeeId: int)
    requires i < |ds| && PositionsHaveData(ds[..i]) && ToolLanguagesHaveData(ds[i].toolLanguages)
    ensures PositionsHaveData(ds[..i + 1])
    ensures MergedPositions(ps, ds[..i + 1], employeeId) == MergePosition(MergedPositions(ps, ds[..i], employeeId), ds[i], employeeId)
  {
    assert ds[..i + 1][..i] == ds[..i] && ds[..i + 1][i] == ds[i];
  }

  /**
    The delete pass reads the image list of every tool language it keeps under a position it
    keeps, each against the first DTO with the position's key.
  */
  predicate PositionsReadable(ps: seq<Position>, ds: seq<PositionDto>)
  {
    forall k :: 0 <= k < |ps| && ps[k].positionId in PositionDtoIds(ds) ==>
      ImagesReadable(ps[k].toolLanguages, ds[FirstIndex(PositionDtoIds(ds), ps[k].positionId).value].toolLanguages)
  }

  /**
    The delete pass over the employee's positions, descending into each survivor; `ok` is false
    when it meets a null image list.
  */
  method PrunePositions(ps: seq<Position>, ds: seq<PositionDto>) returns (ok: bool, r: seq<Position>)
    ensures ok <==> PositionsReadable(ps, ds)
    ensures ok ==> r == PrunedPositions(ps, ds)
  {
    r := [];
    var i := 0;
    while i < |ps|
      invariant 0 <= i <= |ps|
      invariant PositionsReadable(ps[..i], ds)
      invariant r == PrunedPositions(ps[..i], ds)
    {
      var p := ps[i];
      PrunedPositionsStep(ps, ds, i);
      match FirstIndex(PositionDtoIds(ds), p.positionId) {
        case None =>
        case Some(j) =>
          var tls;
          ok, tls := PruneToolLanguages(p.toolLanguages, ds[j].toolLanguages);
          if !ok {
            assert !PositionsReadable(ps, ds) by {
              assert PositionDtoIds(ds)[j] == p.positionId;
            }
            return;
          }
          r := r + [p.(toolLanguages := tls)];
      }
      i := i + 1;
    }
    assert ps[..i] == ps;
    ok := true;
  }

  lemma PrunedPositionsStep(ps: seq<Position>, ds: seq<PositionDto>, i: nat)
    requires i < |ps|
    ensures var found := FirstIndex(PositionDtoIds(ds), ps[i].positionId);
      && (PositionsReadable(ps[..i + 1], ds) <==>
            PositionsReadable(ps[..i], ds)
            && (found.Some? ==> ImagesReadable(ps[i].toolLanguages, ds[found.value].toolLanguages)))
      && PrunedPositions(ps[..i + 1], ds)
         == if found.None? then PrunedPositions(ps[..i], ds)
            else PrunedPositions(ps[..i], ds) + [KeptPosition(ps[i], ds[found.value])]
  {
    assert ps[..i + 1][..i] == ps[..i] && ps[..i + 1][i] == ps[i];
  }

  /** By key, the add/update pass yields exactly the stored keys and the DTOs' keys. */
  lemma MergedPositionIds(ps: seq<Position>, ds: seq<PositionDto>, employeeId: int, x: int)
    requires PositionsHaveData(ds)
    ensures x in PositionIds(MergedPositions(ps, ds, employeeId)) <==> x in PositionIds(ps) || x in PositionDtoIds(ds)
  {
    var r := MergedPositions(ps, ds, employeeId);
    if x in PositionIds(r) {
      var k :| 0 <= k < |r| && r[k].positionId == x;
      if k < |ps| {
        assert PositionIds(ps)[k] == x;
      }
    }
    if x in PositionIds(ps) {
      var k :| 0 <= k < |ps| && ps[k].positionId == x;
      assert PositionIds(r)[k] == x;
    }
  }

  /** The add/update pass never gives two positions the same key, if they had distinct keys before. */
  lemma {:induction false} MergedPositionsDistinct(ps: seq<Position>, ds: seq<PositionDto>, employeeId: int)
    requires PositionsHaveData(ds) && Distinct(PositionIds(ps))
    ensures Distinct(PositionIds(MergedPositions(ps, ds, employeeId)))
    decreases |ds|
  {
    if ds != [] {
      var front, d := ds[..|ds| - 1], ds[|ds| - 1];
      MergedPositionsUnfold(ps, ds, employeeId);
      var cur := MergedPositions(ps, front, employeeId);
      MergedPositionsDistinct(ps, front, employeeId);
      MergePositionIds(cur, d, employeeId);
      if d.id !in PositionIds(cur) {
        DistinctSnoc(PositionIds(cur), d.id);
      }
    }
  }

  /**
    Every tool-language key that a position DTO lists is present, after the add/update pass,
    under the position the pass matched for that DTO's key (the first one with it).
  */
  lemma {:induction false} MergedPositionsCover(ps: seq<Position>, ds: seq<PositionDto>, employeeId: int, i: nat, y: int)
    requires PositionsHaveData(ds) && i < |ds|
    requires y in ToolLanguageDtoIds(ds[i].toolLanguages)
    ensures var r := MergedPositions(ps, ds, employeeId);
      var k := FirstIndex(PositionIds(r), ds[i].id);
      k.Some? && y in ToolLanguageIds(r[k.value].toolLanguages)
    decreases |ds|
  {
    var n := |ds| - 1;
    var front, d := ds[..n], ds[n];
    MergedPositionsUnfold(ps, ds, employeeId);
    var cur := MergedPositions(ps, front, employeeId);
    var r := MergePosition(cur, d, employeeId);
    MergePositionShape(cur, d, employeeId);
    assert PositionIds(r)[..|cur|] == PositionIds(cur);
    if i == n {
      match FirstIndex(PositionIds(cur), d.id)
      case None =>
        assert PositionIds(r)[..|cur|] == PositionIds(cur);
        FirstIndexIsFirst(PositionIds(r), |cur|);
        MergedToolLanguageIds(MappedToolLanguages(d.toolLanguages, d.id), d.toolLanguages, d.id, y);
      case Some(k) =>
        FirstIndexStable(PositionIds(cur), PositionIds(r), d.id);
        MergedToolLanguageIds(cur[k].toolLanguages, d.toolLanguages, cur[k].positionId, y);
    } else {
      assert ds[i] == front[i];
      MergedPositionsCover(ps, front, employeeId, i, y);
      var x := ds[i].id;
      var k := FirstIndex(PositionIds(cur), x).value;
      FirstIndexStable(PositionIds(cur), PositionIds(r), x);
      match FirstIndex(PositionIds(cur), d.id)
      case None =>
        assert r[k] == cur[k];
      case Some(m) =>
        if m == k {
          MergedToolLanguageIds(cur[k].toolLanguages, d.toolLanguages, cur[k].positionId, y);
        } else {
          assert r[k] == cur[k];
        }
    }
  }

  /** Every survivor of the delete pass is a stored position whose key some DTO has, pruned against the first such DTO. */
  lemma {:induction false} PrunedPositionFrom(ps: seq<Position>, ds: seq<PositionDto>, k: nat)
    requires k < |PrunedPositions(ps, ds)|
    ensures exists j :: (0 <= j < |ps| && ps[j].positionId in PositionDtoIds(ds)
                         && PrunedPositions(ps, ds)[k]
                            == KeptPosition(ps[j], ds[FirstIndex(PositionDtoIds(ds), ps[j].positionId).value]))
    decreases |ps|
  {
    var front, last := ps[..|ps| - 1], ps[|ps| - 1];
    var kept := PrunedPositions(front, ds);
    var r := PrunedPositions(ps, ds);
    var found := FirstIndex(PositionDtoIds(ds), last.positionId);
    assert r == if found.None? then kept else kept + [KeptPosition(last, ds[found.value])];
    if k < |kept| {
      assert r[k] == kept[k];
      PrunedPositionFrom(front, ds, k);
      var j :| (0 <= j < |front| && front[j].positionId in PositionDtoIds(ds)
                && kept[k] == KeptPosition(front[j], ds[FirstIndex(PositionDtoIds(ds), front[j].positionId).value]));
      assert ps[j] == front[j];
    } else {
      assert r[k] == KeptPosition(ps[|ps| - 1], ds[found.value]);
    }
  }

  /** The add/update pass keeps the tree parent-keyed. */
  lemma {:induction false} MergedPositionsKeyed(ps: seq<Position>, ds: seq<PositionDto>, employeeId: int)
    requires PositionsHaveData(ds) && PositionsKeyed(ps, employeeId)
    ensures PositionsKeyed(MergedPositions(ps, ds, employeeId), employeeId)
    decreases |ds|
  {
    if ds != [] {
      var front, d := ds[..|ds| - 1], ds[|ds| - 1];
      MergedPositionsUnfold(ps, ds, employeeId);
      var cur := MergedPositions(ps, front, employeeId);
      MergedPositionsKeyed(ps, front, employeeId);
      MergePositionKeyed(cur, d, employeeId);
    }
  }

  /** One turn of the add/update pass keeps the positions parent-keyed. */
  lemma MergePositionKeyed(ps: seq<Position>, d: PositionDto, employeeId: int)
    requires ToolLanguagesHaveData(d.toolLanguages) && PositionsKeyed(ps, employeeId)
    ensures PositionsKeyed(MergePosition(ps, d, employeeId), employeeId)
  {
    match FirstIndex(PositionIds(ps), d.id)
    case None =>
      MergedToolLanguagesKeyed(MappedToolLanguages(d.toolLanguages, d.id), d.toolLanguages, d.id);
    case Some(k) =>
      MergedToolLanguagesKeyed(ps[k].toolLanguages, d.toolLanguages, ps[k].positionId);
  }

  /** The delete pass keeps the tree parent-keyed. */
  lemma {:induction false} PrunedPositionsKeyed(ps: seq<Position>, ds: seq<PositionDto>, employeeId: int)
    requires PositionsKeyed(ps, employeeId)
    ensures PositionsKeyed(PrunedPositions(ps, ds), employeeId)
    decreases |ps|
  {
    if ps != [] {
      var front, last := ps[..|ps| - 1], ps[|ps| - 1];
      PrunedPositionsKeyed(front, ds, employeeId);
      match FirstIndex(PositionDtoIds(ds), last.positionId)
      case None =>
      case Some(j) =>
        PrunedToolLanguagesKeyed(last.toolLanguages, ds[j].toolLanguages, last.positionId);
    }
  }

  /** Every tool-language DTO under these position DTOs has its years in order. */
  predicate DtoRangesOrdered(ds: seq<PositionDto>)
  {
    forall i :: 0 <= i < |ds| ==> ToolLanguageDtoRangesOrdered(ds[i].toolLanguages)
  }

  predicate ToolLanguageDtoRangesOrdered(ds: seq<ToolLanguageDto>)
  {
    forall j :: 0 <= j < |ds| ==> ds[j].from <= ds[j].to
  }

  /** One turn of the add/update pass keeps every range ordered when the DTO's ranges are. */
  lemma MergePositionRanges(ps: seq<Position>, d: PositionDto, employeeId: int)
    requires ToolLanguagesHaveData(d.toolLanguages) && ToolLanguageDtoRangesOrdered(d.toolLanguages)
    requires PositionsRangesOrdered(ps)
    ensures PositionsRangesOrdered(MergePosition(ps, d, employeeId))
  {
    var r := MergePosition(ps, d, employeeId);
    match FirstIndex(PositionIds(ps), d.id)
    case None =>
      MergedToolLanguagesRanges(MappedToolLanguages(d.toolLanguages, d.id), d.toolLanguages, d.id);
      assert r == ps + [r[|ps|]];
    case Some(k) =>
      MergedToolLanguagesRanges(ps[k].toolLanguages, d.toolLanguages, ps[k].positionId);
      assert forall m :: 0 <= m < |r| && m != k ==> r[m] == ps[m];
  }

  lemma {:induction false} MergedPositionsRanges(ps: seq<Position>, ds: seq<PositionDto>, employeeId: int)
    requires PositionsHaveData(ds) && DtoRangesOrdered(ds) && PositionsRangesOrdered(ps)
    ensures PositionsRangesOrdered(MergedPositions(ps, ds, employeeId))
    decreases |ds|
  {
    if ds != [] {
      var front, d := ds[..|ds| - 1], ds[|ds| - 1];
      MergedPositionsUnfold(ps, ds, employeeId);
      assert DtoRangesOrdered(front) by {
        assert forall i :: 0 <= i < |front| ==> front[i] == ds[i];
      }
      MergedPositionsRanges(ps, front, employeeId);
      MergePositionRanges(MergedPositions(ps, front, employeeId), d, employeeId);
    }
  }

  lemma {:induction false} PrunedPositionsRanges(ps: seq<Position>, ds: seq<PositionDto>)
    requires PositionsRangesOrdered(ps)
    ensures PositionsRangesOrdered(PrunedPositions(ps, ds))
    decreases |ps|
  {
    if ps != [] {
      var front, last := ps[..|ps| - 1], ps[|ps| - 1];
      assert forall k :: 0 <= k < |front| ==> front[k] == ps[k];
      PrunedPositionsRanges(front, ds);
      var kept := PrunedPositions(front, ds);
      match FirstIndex(PositionDtoIds(ds), last.positionId)
      case None =>
        assert PrunedPositions(ps, ds) == kept;
      case Some(j) =>
        PrunedToolLanguagesRanges(last.toolLanguages, ds[j].toolLanguages);
        assert PrunedPositions(ps, ds) == kept + [KeptPosition(last, ds[j])];
    }
  }

  // What one PUT does to one employee.

  /** After a PUT the employee has the DTO's Name, keeps its key, and has exactly the positions the DTO lists, by key. */
  lemma ReconciledPositionIds(e: Employee, dto: EmployeeDto, x: int)
    requires PositionsHaveData(dto.positions)
    ensures Reconciled(e, dto).name == dto.name && Reconciled(e, dto).employeeId == e.employeeId
    ensures x in PositionIds(Reconciled(e, dto).positions) <==> x in PositionDtoIds(dto.positions)
  {
    MergedPositionIds(e.positions, dto.positions, e.employeeId, x);
  }

  /**
    Under each position left after a PUT, the tool languages are exactly, by key, those of the
    first position DTO with the position's key (when the stored positions had distinct keys).
  */
  lemma ReconciledPositionToolLanguageIds(e: Employee, dto: EmployeeDto, k: nat, y: int)
    requires PositionsHaveData(dto.positions) && Distinct(PositionIds(e.positions))
    requires k < |Reconciled(e, dto).positions|
    ensures var p := Reconciled(e, dto).positions[k];
      var first := FirstIndex(PositionDtoIds(dto.positions), p.positionId);
      first.Some?
      && (y in ToolLanguageIds(p.toolLanguages)
          <==> y in ToolLanguageDtoIds(dto.positions[first.value].toolLanguages))
  {
    var ds := dto.positions;
    var merged := MergedPositions(e.positions, ds, e.employeeId);
    PrunedPositionFrom(merged, ds, k);
    var j :| (0 <= j < |merged| && merged[j].positionId in PositionDtoIds(ds)
              && PrunedPositions(merged, ds)[k]
                 == KeptPosition(merged[j], ds[FirstIndex(PositionDtoIds(ds), merged[j].positionId).value]));
    var x := merged[j].positionId;
    var f := FirstIndex(PositionDtoIds(ds), x).value;
    MergedPositionsDistinct(e.positions, ds, e.employeeId);
    FirstIndexIsFirst(PositionIds(merged), j);
    if y in ToolLanguageDtoIds(ds[f].toolLanguages) {
      MergedPositionsCover(e.positions, ds, e.employeeId, f, y);
    }
  }

  /**
    Every image left after a PUT is named by an image DTO of the first tool-language DTO with its
    tool language's key, under the first position DTO with its position's key.
  */
  lemma ReconciledImagesNamed(e: Employee, dto: EmployeeDto, k: nat, l: nat, m: nat)
    requires PositionsHaveData(dto.positions)
    requires k < |Reconciled(e, dto).positions|
    requires l < |Reconciled(e, dto).positions[k].toolLanguages|
    requires m < |Reconciled(e, dto).positions[k].toolLanguages[l].images|
    ensures var p := Reconciled(e, dto).positions[k];
      var t := p.toolLanguages[l];
      var pd := FirstIndex(PositionDtoIds(dto.positions), p.positionId);
      && pd.Some?
      && var td := FirstIndex(ToolLanguageDtoIds(dto.positions[pd.value].toolLanguages), t.toolLanguageId);
      && td.Some?
      && t.images[m].imageId in ImageDtoIds(dto.positions[pd.value].toolLanguages[td.value].images)
  {
    var ds := dto.positions;
    var merged := MergedPositions(e.positions, ds, e.employeeId);
    PrunedPositionFrom(merged, ds, k);
    var j :| (0 <= j < |merged| && merged[j].positionId in PositionDtoIds(ds)
              && PrunedPositions(merged, ds)[k]
                 == KeptPosition(merged[j], ds[FirstIndex(PositionDtoIds(ds), merged[j].positionId).value]));
    var pd := ds[FirstIndex(PositionDtoIds(ds), merged[j].positionId).value];
    PrunedToolLanguageFrom(merged[j].toolLanguages, pd.toolLanguages, l);
    var tls := merged[j].toolLanguages;
    var i :| (0 <= i < |tls| && tls[i].toolLanguageId in ToolLanguageDtoIds(pd.toolLanguages)
              && PrunedToolLanguages(tls, pd.toolLanguages)[l]
                 == Kept(tls[i], pd.toolLanguages[FirstIndex(ToolLanguageDtoIds(pd.toolLanguages), tls[i].toolLanguageId).value]));
    var t := Reconciled(e, dto).positions[k].toolLanguages[l];
    assert t.images[m] in t.images;
  }

  /** A PUT keeps the employee's tree parent-keyed. */
  lemma ReconciledParentKeyed(e: Employee, dto: EmployeeDto)
    requires PositionsHaveData(dto.positions) && ParentKeyed(e)
    ensures ParentKeyed(Reconciled(e, dto))
  {
    MergedPositionsKeyed(e.positions, dto.positions, e.employeeId);
    PrunedPositionsKeyed(MergedPositions(e.positions, dto.positions, e.employeeId), dto.positions, e.employeeId);
  }

  /** A PUT whose DTO passed validation keeps every year range of the employee ordered. */
  lemma ReconciledRangesOrdered(e: Employee, dto: EmployeeDto)
    requires PositionsHaveData(dto.positions) && EmployeeRangesOrdered(e) && EmployeeDtoValid(dto)
    ensures EmployeeRangesOrdered(Reconciled(e, dto))
  {
    var ds := dto.positions;
    assert DtoRangesOrdered(ds) by {
      forall i | 0 <= i < |ds| ensures ToolLanguageDtoRangesOrdered(ds[i].toolLanguages) {
        assert PositionDtoValid(ds[i]);
        forall j | 0 <= j < |ds[i].toolLanguages| ensures ds[i].toolLanguages[j].from <= ds[i].toolLanguages[j].to {
          assert ToolLanguageDtoValid(ds[i].toolLanguages[j]);
        }
      }
    }
    MergedPositionsRanges(e.positions, ds, e.employeeId);
    PrunedPositionsRanges(MergedPositions(e.positions, ds, e.employeeId), ds);
  }

  // When the delete pass can read every image list it needs.

  /**
    Every position DTO that creates a position (the first one with a key no stored position has)
    lists its tool languages under distinct keys.
  */
  predicate NewToolLanguageKeysDistinct(ps: seq<Position>, ds: seq<PositionDto>)
  {
    forall j :: 0 <= j < |ds| && ds[j].id !in PositionIds(ps) && FirstIndex(PositionDtoIds(ds), ds[j].id) == Some(j)
      ==> Distinct(ToolLanguageDtoIds(ds[j].toolLanguages))
  }

  /** Both passes of a PUT run to the end: every upload is there and every image list the delete pass reads exists. */
  predicate ReconcileSucceeds(e: Employee, dto: EmployeeDto)
  {
    PositionsHaveData(dto.positions)
    && PositionsReadable(MergedPositions(e.positions, dto.positions, e.employeeId), dto.positions)
  }

  /** One turn of the add/update pass keeps every image list present, unless it creates a position from a DTO with a repeated key. */
  lemma MergePositionLoaded(ps: seq<Position>, d: PositionDto, employeeId: int)
    requires ToolLanguagesHaveData(d.toolLanguages) && ImagesLoaded(ps)
    requires d.id !in PositionIds(ps) ==> Distinct(ToolLanguageDtoIds(d.toolLanguages))
    ensures ImagesLoaded(MergePosition(ps, d, employeeId))
  {
    var r := MergePosition(ps, d, employeeId);
    match FirstIndex(PositionIds(ps), d.id)
    case None =>
      MappedToolLanguagesReadable(d.toolLanguages, d.id);
      assert forall i :: 0 <= i < |ps| ==> r[i] == ps[i];
    case Some(k) =>
      assert forall m :: 0 <= m < |ps[k].toolLanguages| ==> ps[k].toolLanguages[m].imagesLoaded;
      MergedToolLanguagesAllLoaded(ps[k].toolLanguages, d.toolLanguages, ps[k].positionId);
      assert r[k].toolLanguages == MergedToolLanguages(ps[k].toolLanguages, d.toolLanguages, ps[k].positionId);
      assert forall i :: 0 <= i < |r| && i != k ==> r[i] == ps[i];
  }

  /** The condition on creating DTOs holds of every prefix of the DTO list when it holds of the list. */
  lemma NewToolLanguageKeysDistinctPrefix(ps: seq<Position>, ds: seq<PositionDto>, n: nat)
    requires n <= |ds| && NewToolLanguageKeysDistinct(ps, ds)
    ensures NewToolLanguageKeysDistinct(ps, ds[..n])
  {
    forall j | 0 <= j < n && ds[..n][j].id !in PositionIds(ps) && FirstIndex(PositionDtoIds(ds[..n]), ds[..n][j].id) == Some(j)
      ensures Distinct(ToolLanguageDtoIds(ds[..n][j].toolLanguages))
    {
      assert PositionDtoIds(ds)[..n] == PositionDtoIds(ds[..n]);
      FirstIndexStable(PositionDtoIds(ds[..n]), PositionDtoIds(ds), ds[j].id);
    }
  }

  /**
    With every stored image list present, and every creating DTO's tool-language keys distinct,
    the add/update pass leaves every image list present.
  */
  lemma {:induction false} MergedPositionsLoaded(ps: seq<Position>, ds: seq<PositionDto>, employeeId: int)
    requires PositionsHaveData(ds) && ImagesLoaded(ps) && NewToolLanguageKeysDistinct(ps, ds)
    ensures ImagesLoaded(MergedPositions(ps, ds, employeeId))
    decreases |ds|
  {
    if ds != [] {
      var n := |ds| - 1;
      var front, d := ds[..n], ds[n];
      MergedPositionsUnfold(ps, ds, employeeId);
      NewToolLanguageKeysDistinctPrefix(ps, ds, n);
      MergedPositionsLoaded(ps, front, employeeId);
      var cur := MergedPositions(ps, front, employeeId);
      if d.id !in PositionIds(cur) {
        MergedPositionIds(ps, front, employeeId, d.id);
        assert PositionDtoIds(ds)[..n] == PositionDtoIds(front);
        FirstIndexIsFirst(PositionDtoIds(ds), n);
      }
      MergePositionLoaded(cur, d, employeeId);
    }
  }

  /**
    The tool language at (q, l) has a null image list that no later turn can give it: q is the
    first position with its key, and l is not the first tool language with its key there.
  */
  predicate NullListAt(ps: seq<Position>, q: nat, l: nat)
  {
    && q < |ps| && FirstIndex(PositionIds(ps), ps[q].positionId) == Some(q)
    && l < |ps[q].toolLanguages| && !ps[q].toolLanguages[l].imagesLoaded
    && FirstIndex(ToolLanguageIds(ps[q].toolLanguages), ps[q].toolLanguages[l].toolLanguageId) != Some(l)
  }

  lemma NullListTurn(ps: seq<Position>, d: PositionDto, employeeId: int, q: nat, l: nat)
    requires ToolLanguagesHaveData(d.toolLanguages) && NullListAt(ps, q, l)
    ensures var r := MergePosition(ps, d, employeeId);
      && NullListAt(r, q, l) && r[q].positionId == ps[q].positionId
      && r[q].toolLanguages[l].toolLanguageId == ps[q].toolLanguages[l].toolLanguageId
  {
    var r := MergePosition(ps, d, employeeId);
    MergePositionIds(ps, d, employeeId);
    assert PositionIds(ps)[q] == ps[q].positionId;
    FirstIndexStable(PositionIds(ps), PositionIds(r), ps[q].positionId);
    match FirstIndex(PositionIds(ps), d.id)
    case None =>
      assert r[q] == ps[q];
    case Some(m) =>
      if m == q {
        StaysUnloaded(ps[q].toolLanguages, d.toolLanguages, ps[q].positionId, l);
      } else {
        assert r[q] == ps[q];
      }
  }

  lemma {:induction false} NullListPersists(ps: seq<Position>, ds: seq<PositionDto>, employeeId: int, n: nat, q: nat, l: nat)
    requires PositionsHaveData(ds) && n <= |ds|
    requires PositionsHaveData(ds[..n]) && NullListAt(MergedPositions(ps, ds[..n], employeeId), q, l)
    ensures var before, after := MergedPositions(ps, ds[..n], employeeId), MergedPositions(ps, ds, employeeId);
      && NullListAt(after, q, l) && after[q].positionId == before[q].positionId
      && after[q].toolLanguages[l].toolLanguageId == before[q].toolLanguages[l].toolLanguageId
    decreases |ds| - n
  {
    if n == |ds| {
      assert ds[..n] == ds;
    } else {
      MergedPositionsStep(ps, ds, n, employeeId);
      NullListTurn(MergedPositions(ps, ds[..n], employeeId), ds[n], employeeId, q, l);
      NullListPersists(ps, ds, employeeId, n + 1, q, l);
    }
  }

  /**
    The turn of a creating DTO whose tool languages repeat a key leaves a null image list in the
    new position, under one of that DTO's keys.
  */
  lemma NullListCreated(ps: seq<Position>, d: PositionDto, employeeId: int) returns (l: nat)
    requires ToolLanguagesHaveData(d.toolLanguages) && d.id !in PositionIds(ps)
    requires !Distinct(ToolLanguageDtoIds(d.toolLanguages))
    ensures var r := MergePosition(ps, d, employeeId);
      && |r| == |ps| + 1 && r[|ps|].positionId == d.id
      && NullListAt(r, |ps|, l) && r[|ps|].toolLanguages[l].toolLanguageId in ToolLanguageDtoIds(d.toolLanguages)
  {
    var r := MergePosition(ps, d, employeeId);
    MergePositionIds(ps, d, employeeId);
    FirstIndexIsFirst(PositionIds(r), |ps|);
    var m := MappedToolLanguages(d.toolLanguages, d.id);
    var tls := r[|ps|].toolLanguages;
    assert tls == MergedToolLanguages(m, d.toolLanguages, d.id);
    MappedToolLanguagesReadable(d.toolLanguages, d.id);
    l :| 0 <= l < |tls| && tls[l].toolLanguageId in ToolLanguageDtoIds(d.toolLanguages) && !tls[l].imagesLoaded;
    MergedToolLanguagesLoaded(m, d.toolLanguages, d.id, l);
    MergedToolLanguagesPrefix(m, d.toolLanguages, d.id);
    assert ToolLanguageIds(m)[l] == tls[l].toolLanguageId;
    FirstIndexStable(ToolLanguageIds(m), ToolLanguageIds(tls), tls[l].toolLanguageId);
    assert NullListAt(r, |ps|, l);
  }

  /**
    A creating DTO whose tool languages repeat a key makes the delete pass fail: the new position
    keeps a null image list under a key that DTO lists, and that DTO is the one the delete pass
    reads for the position.
  */
  lemma MergedPositionsUnreadable(ps: seq<Position>, ds: seq<PositionDto>, employeeId: int, j: nat)
    requires PositionsHaveData(ds) && j < |ds|
    requires ds[j].id !in PositionIds(ps) && FirstIndex(PositionDtoIds(ds), ds[j].id) == Some(j)
    requires !Distinct(ToolLanguageDtoIds(ds[j].toolLanguages))
    ensures !PositionsReadable(MergedPositions(ps, ds, employeeId), ds)
  {
    var d := ds[j];
    MergedPositionsStep(ps, ds, j, employeeId);
    var cur := MergedPositions(ps, ds[..j], employeeId);
    assert PositionDtoIds(ds)[..j] == PositionDtoIds(ds[..j]);
    MergedPositionIds(ps, ds[..j], employeeId, d.id);
    var l := NullListCreated(cur, d, employeeId);
    var q := |cur|;
    NullListPersists(ps, ds, employeeId, j + 1, q, l);
    var r := MergedPositions(ps, ds, employeeId);
    assert PositionDtoIds(ds)[j] == r[q].positionId;
    assert !ImagesReadable(r[q].toolLanguages, ds[j].toolLanguages);
  }

  /**
    For a stored employee (every image list present), both passes of a PUT run to the end exactly
    when every upload is there and every creating DTO lists its tool languages under distinct keys.
  */
  lemma ReconcileSucceedsIff(e: Employee, dto: EmployeeDto)
    requires ImagesLoaded(e.positions)
    ensures ReconcileSucceeds(e, dto)
            <==> PositionsHaveData(dto.positions) && NewToolLanguageKeysDistinct(e.positions, dto.positions)
  {
    var ds := dto.positions;
    if PositionsHaveData(ds) {
      if NewToolLanguageKeysDistinct(e.positions, ds) {
        MergedPositionsLoaded(e.positions, ds, e.employeeId);
      } else {
        var j :| 0 <= j < |ds| && ds[j].id !in PositionIds(e.positions) && FirstIndex(PositionDtoIds(ds), ds[j].id) == Some(j)
                 && !Distinct(ToolLanguageDtoIds(ds[j].toolLanguages));
        MergedPositionsUnreadable(e.positions, ds, e.employeeId, j);
      }
    }
  }

  /** After a PUT that ran to the end, every tool language of the employee has its image list. */
  lemma ReconciledImagesLoaded(e: Employee, dto: EmployeeDto)
    requires ReconcileSucceeds(e, dto)
    ensures ImagesLoaded(Reconciled(e, dto).positions)
  {
    var ds := dto.positions;
    var merged := MergedPositions(e.positions, ds, e.employeeId);
    var ps := Reconciled(e, dto).positions;
    forall k, l | 0 <= k < |ps| && 0 <= l < |ps[k].toolLanguages| ensures ps[k].toolLanguages[l].imagesLoaded {
      PrunedPositionFrom(merged, ds, k);
      var j :| (0 <= j < |merged| && merged[j].positionId in PositionDtoIds(ds)
                && ps[k] == KeptPosition(merged[j], ds[FirstIndex(PositionDtoIds(ds), merged[j].positionId).value]));
      var pd := ds[FirstIndex(PositionDtoIds(ds), merged[j].positionId).value];
      var tls := merged[j].toolLanguages;
      PrunedToolLanguageFrom(tls, pd.toolLanguages, l);
      var i :| (0 <= i < |tls| && tls[i].toolLanguageId in ToolLanguageDtoIds(pd.toolLanguages)
                && PrunedToolLanguages(tls, pd.toolLanguages)[l]
                   == Kept(tls[i], pd.toolLanguages[FirstIndex(ToolLanguageDtoIds(pd.toolLanguages), tls[i].toolLanguageId).value]));
    }
  }

  // The fields the add/update pass writes into each position.

  /** The fields a position DTO writes over, as one value. */
  function PositionScalars(p: Position): (int, int)
  {
    (p.positionResourceId, p.displayOrder)
  }

  function PositionDtoScalars(d: PositionDto): (int, int)
  {
    (d.positionResourceId, d.displayOrder)
  }

  /** The pass leaves the stored positions' keys where they were. */
  lemma MergedPositionsPrefix(ps: seq<Position>, ds: seq<PositionDto>, employeeId: int)
    requires PositionsHaveData(ds)
    ensures var r := MergedPositions(ps, ds, employeeId);
      |ps| <= |r| && PositionIds(r)[..|ps|] == PositionIds(ps)
  {
  }

  /** One turn of the pass writes the fields of a stored position only when it is the first one with the DTO's key. */
  lemma MergePositionAt(ps: seq<Position>, d: PositionDto, employeeId: int, k: nat)
    requires ToolLanguagesHaveData(d.toolLanguages) && k < |ps|
    ensures PositionScalars(MergePosition(ps, d, employeeId)[k])
            == if FirstIndex(PositionIds(ps), d.id) == Some(k) then PositionDtoScalars(d) else PositionScalars(ps[k])
  {
  }

  /**
    The fields the stored position at index k should end up with once the DTOs `ds` have been
    applied: those of the last DTO with its key, if it is the first with that key and some DTO
    names it, and its own otherwise.
  */
  function LastWrittenPosition(ps: seq<Position>, ds: seq<PositionDto>, k: nat): (int, int)
    requires k < |ps|
  {
    var x := ps[k].positionId;
    match LastIndex(PositionDtoIds(ds), x)
    case Some(j) => if FirstIndex(PositionIds(ps), x) == Some(k) then PositionDtoScalars(ds[j]) else PositionScalars(ps[k])
    case None => PositionScalars(ps[k])
  }

  /** One more turn of the pass, on any list that keeps the stored keys in place, keeps `LastWrittenPosition` true. */
  lemma LastWrittenPositionTurn(ps: seq<Position>, cur: seq<Position>, ds: seq<PositionDto>, employeeId: int, k: nat)
    requires ds != [] && ToolLanguagesHaveData(ds[|ds| - 1].toolLanguages)
    requires k < |ps| <= |cur| && PositionIds(cur)[..|ps|] == PositionIds(ps)
    requires PositionScalars(cur[k]) == LastWrittenPosition(ps, ds[..|ds| - 1], k)
    ensures PositionScalars(MergePosition(cur, ds[|ds| - 1], employeeId)[k]) == LastWrittenPosition(ps, ds, k)
  {
    var x := ps[k].positionId;
    var n := |ds| - 1;
    var d := ds[n];
    MergePositionAt(cur, d, employeeId, k);
    var dtoIds := PositionDtoIds(ds);
    PositionDtoIdsSnoc(ds);
    assert PositionIds(cur)[k] == PositionIds(ps)[k] == x;
    if d.id == x {
      FirstIndexStable(PositionIds(ps), PositionIds(cur), x);
      assert LastIndex(dtoIds, x) == Some(n);
    } else {
      assert FirstIndex(PositionIds(cur), d.id) != Some(k);
      LastIndexDropLast(dtoIds, x);
    }
  }

  /**
    Last write wins for the fields `_mapper.Map(positionDTO, position)` writes: a stored position
    ends up with the role and display order of the last DTO carrying its key (only the first
    position with that key is matched); one no DTO names keeps its fields.
  */
  lemma {:induction false} MergedPositionsLastWins(ps: seq<Position>, ds: seq<PositionDto>, employeeId: int, k: nat)
    requires PositionsHaveData(ds) && k < |ps|
    ensures PositionScalars(MergedPositions(ps, ds, employeeId)[k]) == LastWrittenPosition(ps, ds, k)
    decreases |ds|
  {
    if ds != [] {
      var front := ds[..|ds| - 1];
      MergedPositionsUnfold(ps, ds, employeeId);
      MergedPositionsLastWins(ps, front, employeeId, k);
      MergedPositionsPrefix(ps, front, employeeId);
      LastWrittenPositionTurn(ps, MergedPositions(ps, front, employeeId), ds, employeeId, k);
    }
  }

  /**
    The position at k (one the pass added) is the only one with its key, which is not a stored
    key, and it carries the fields of the last DTO with that key.
  */
  predicate AddedPositionFrom(ps: seq<Position>, r: seq<Position>, ds: seq<PositionDto>, k: nat)
    requires k < |r|
  {
    var x := r[k].positionId;
    && x !in PositionIds(ps)
    && FirstIndex(PositionIds(r), x) == Some(k)
    && LastIndex(PositionDtoIds(ds), x).Some?
    && PositionScalars(r[k]) == PositionDtoScalars(ds[LastIndex(PositionDtoIds(ds), x).value])
  }

  /** The turn that appends a position makes it `AddedPositionFrom` its DTO. */
  lemma AddedPositionTurnAppend(ps: seq<Position>, cur: seq<Position>, ds: seq<PositionDto>, employeeId: int)
    requires ds != [] && ToolLanguagesHaveData(ds[|ds| - 1].toolLanguages)
    requires |ps| <= |cur| && PositionIds(cur)[..|ps|] == PositionIds(ps)
    requires ds[|ds| - 1].id !in PositionIds(cur)
    ensures |MergePosition(cur, ds[|ds| - 1], employeeId)| == |cur| + 1
    ensures AddedPositionFrom(ps, MergePosition(cur, ds[|ds| - 1], employeeId), ds, |cur|)
  {
    var n := |ds| - 1;
    var d := ds[n];
    var r := MergePosition(cur, d, employeeId);
    MergePositionIds(cur, d, employeeId);
    FirstIndexIsFirst(PositionIds(r), |cur|);
    assert LastIndex(PositionDtoIds(ds), d.id) == Some(n);
  }

  /** One turn of the pass leaves the first position with a key in place and still first with that key. */
  lemma MergePositionKeepsFirst(cur: seq<Position>, d: PositionDto, employeeId: int, k: nat)
    requires ToolLanguagesHaveData(d.toolLanguages) && k < |cur|
    requires FirstIndex(PositionIds(cur), cur[k].positionId) == Some(k)
    ensures var r := MergePosition(cur, d, employeeId);
      && k < |r| && r[k].positionId == cur[k].positionId
      && FirstIndex(PositionIds(r), cur[k].positionId) == Some(k)
  {
    var r := MergePosition(cur, d, employeeId);
    MergePositionShape(cur, d, employeeId);
    MergePositionIds(cur, d, employeeId);
    assert PositionIds(cur)[k] == cur[k].positionId;
    FirstIndexStable(PositionIds(cur), PositionIds(r), cur[k].positionId);
  }

  /** A later turn keeps a position the pass added `AddedPositionFrom` the last DTO with its key. */
  lemma AddedPositionTurnKeep(ps: seq<Position>, cur: seq<Position>, ds: seq<PositionDto>, employeeId: int, k: nat)
    requires ds != [] && ToolLanguagesHaveData(ds[|ds| - 1].toolLanguages)
    requires k < |cur| && AddedPositionFrom(ps, cur, ds[..|ds| - 1], k)
    ensures k < |MergePosition(cur, ds[|ds| - 1], employeeId)|
    ensures AddedPositionFrom(ps, MergePosition(cur, ds[|ds| - 1], employeeId), ds, k)
  {
    var d := ds[|ds| - 1];
    MergePositionKeepsFirst(cur, d, employeeId, k);
    MergePositionAt(cur, d, employeeId, k);
    AddedPositionKept(ps, cur, MergePosition(cur, d, employeeId), ds, k);
  }

  /**
    The bookkeeping of `AddedPositionTurnKeep`, over any list `r` that a turn for the last DTO could
    leave: the position stays first with its key and takes the DTO's fields only when it was matched.
  */
  lemma AddedPositionKept(ps: seq<Position>, cur: seq<Position>, r: seq<Position>, ds: seq<PositionDto>, k: nat)
    requires ds != [] && k < |cur| && k < |r| && AddedPositionFrom(ps, cur, ds[..|ds| - 1], k)
    requires r[k].positionId == cur[k].positionId && FirstIndex(PositionIds(r), cur[k].positionId) == Some(k)
    requires PositionScalars(r[k])
             == if FirstIndex(PositionIds(cur), ds[|ds| - 1].id) == Some(k) then PositionDtoScalars(ds[|ds| - 1])
                else PositionScalars(cur[k])
    ensures AddedPositionFrom(ps, r, ds, k)
  {
    var n := |ds| - 1;
    var x := cur[k].positionId;
    PositionDtoIdsSnoc(ds);
    LastIndexSnoc(PositionDtoIds(ds[..n]), ds[n].id, x);
    if ds[n].id != x {
      var j := LastIndex(PositionDtoIds(ds[..n]), x).value;
      assert ds[..n][j] == ds[j];
    }
  }

  /**
    A position the pass added (`_mapper.Map<Position>`) is the only one with its key, which is not
    a stored key, and it carries the role and display order of the last DTO with that key.
  */
  lemma {:induction false} MergedPositionsAppended(ps: seq<Position>, ds: seq<PositionDto>, employeeId: int, k: nat)
    requires PositionsHaveData(ds) && |ps| <= k < |MergedPositions(ps, ds, employeeId)|
    ensures AddedPositionFrom(ps, MergedPositions(ps, ds, employeeId), ds, k)
    decreases |ds|
  {
    var front, d := ds[..|ds| - 1], ds[|ds| - 1];
    MergedPositionsUnfold(ps, ds, employeeId);
    var cur := MergedPositions(ps, front, employeeId);
    MergePositionShape(cur, d, employeeId);
    if k < |cur| {
      MergedPositionsAppended(ps, front, employeeId, k);
      AddedPositionTurnKeep(ps, cur, ds, employeeId, k);
    } else {
      MergedPositionsPrefix(ps, front, employeeId);
      AddedPositionTurnAppend(ps, cur, ds, employeeId);
    }
  }
}
