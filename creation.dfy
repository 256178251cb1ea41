/**
  PostEmployee's construction of a new employee tree from a DTO: the mapper copies the scalars
  and the keys of every position and tool language, and each tool language then gets a fresh
  image list, built from image DTOs the controller looks up in the request by key.
*/
module Creation {
  import opened Common
  import opened Lookup
  import opened Models
  import opened Dtos
  import opened ImageLevel
  import opened ToolLanguageLevel
  import opened PositionLevel

  /** The images PostEmployee builds for one tool language: one new image per image DTO, in order. */
  function CreatedImages(ds: seq<ImageDto>, toolLanguageId: int): (r: seq<Image>)
    requires ImagesHaveData(ds)
    ensures |r| == |ds|
  {
    seq(|ds|, i requires 0 <= i < |ds| => NewImage(ds[i], toolLanguageId))
  }

  function CreatedToolLanguage(d: ToolLanguageDto, positionId: int): ToolLanguage
    requires ImagesHaveData(d.images)
  {
    NewToolLanguage(d, positionId).(images := CreatedImages(d.images, d.id), imagesLoaded := true)
  }

  function CreatedToolLanguages(ds: seq<ToolLanguageDto>, positionId: int): (r: seq<ToolLanguage>)
    requires ToolLanguagesHaveData(ds)
    ensures |r| == |ds|
  {
    seq(|ds|, j requires 0 <= j < |ds| => CreatedToolLanguage(ds[j], positionId))
  }

  function CreatedPosition(d: PositionDto, employeeId: int): Position
    requires ToolLanguagesHaveData(d.toolLanguages)
  {
    NewPosition(d, employeeId).(toolLanguages := CreatedToolLanguages(d.toolLanguages, d.id))
  }

  function CreatedPositions(ds: seq<PositionDto>, employeeId: int): (r: seq<Position>)
    requires PositionsHaveData(ds)
    ensures |r| == |ds|
  {
    seq(|ds|, i requires 0 <= i < |ds| => CreatedPosition(ds[i], employeeId))
  }

  /**
    The employee PostEmployee is meant to add, under the key `employeeId` the identity column
    gives it: each tool language's images come from the DTO at the same place in the tree.
  */
  function CreatedEmployee(dto: EmployeeDto, employeeId: int): Employee
    requires PositionsHaveData(dto.positions)
  {
    Employee(employeeId, dto.name, CreatedPositions(dto.positions, employeeId))
  }

  /**
    The image DTOs PostEmployee reads for the tool language at (i, j), as the code is written:
    it goes back into the DTO by key, taking the first position DTO with the position's key and,
    in it, the first tool-language DTO with the tool language's key. None is the exception
    `First` throws when that position DTO has no such tool language.
  */
  function ImageSourceAsWritten(dto: EmployeeDto, i: nat, j: nat): Option<seq<ImageDto>>
    requires i < |dto.positions| && j < |dto.positions[i].toolLanguages|
  {
    var ds := dto.positions;
    assert PositionDtoIds(ds)[i] == ds[i].id;
    var pd := ds[FirstIndex(PositionDtoIds(ds), ds[i].id).value];
    match FirstIndex(ToolLanguageDtoIds(pd.toolLanguages), ds[i].toolLanguages[j].id)
    case None => None
    case Some(m) => Some(pd.toolLanguages[m].images)
  }

  /** The image DTOs meant for the tool language at (i, j): those of the DTO it was mapped from. */
  function ImageSource(dto: EmployeeDto, i: nat, j: nat): seq<ImageDto>
    requires i < |dto.positions| && j < |dto.positions[i].toolLanguages|
  {
    dto.positions[i].toolLanguages[j].images
  }

  /** When keys are distinct among sibling DTOs, the lookup by key finds the DTO the node came from. */
  lemma ImageSourceAgrees(dto: EmployeeDto, i: nat, j: nat)
    requires i < |dto.positions| && j < |dto.positions[i].toolLanguages|
    requires Distinct(PositionDtoIds(dto.positions))
    requires Distinct(ToolLanguageDtoIds(dto.positions[i].toolLanguages))
    ensures ImageSourceAsWritten(dto, i, j) == Some(ImageSource(dto, i, j))
  {
    var ds := dto.positions;
    FirstIndexIsFirst(PositionDtoIds(ds), i);
    FirstIndexIsFirst(ToolLanguageDtoIds(ds[i].toolLanguages), j);
  }

  /** The lookup for the tool language at (i, j) finds a DTO, and every image DTO it lists has an upload. */
  predicate SourceReadable(dto: EmployeeDto, i: nat, j: nat)
    requires i < |dto.positions| && j < |dto.positions[i].toolLanguages|
  {
    var source := ImageSourceAsWritten(dto, i, j);
    source.Some? && ImagesHaveData(source.value)
  }

  predicate PositionSourcesReadable(dto: EmployeeDto, i: nat)
    requires i < |dto.positions|
  {
    forall j :: 0 <= j < |dto.positions[i].toolLanguages| ==> SourceReadable(dto, i, j)
  }

  /** PostEmployee's loops run to the end: no lookup throws and no image DTO it reads lacks an upload. */
  predicate PostSourcesReadable(dto: EmployeeDto)
  {
    forall i :: 0 <= i < |dto.positions| ==> PositionSourcesReadable(dto, i)
  }

  /** The tool language at (i, j) as PostEmployee builds it: mapped from its DTO, images from the lookup. */
  function PostedToolLanguage(dto: EmployeeDto, i: nat, j: nat): ToolLanguage
    requires i < |dto.positions| && j < |dto.positions[i].toolLanguages| && SourceReadable(dto, i, j)
  {
    var td := dto.positions[i].toolLanguages[j];
    NewToolLanguage(td, dto.positions[i].id).(images := CreatedImages(ImageSourceAsWritten(dto, i, j).value, td.id),
                                              imagesLoaded := true)
  }

  function PostedToolLanguages(dto: EmployeeDto, i: nat): (r: seq<ToolLanguage>)
    requires i < |dto.positions| && PositionSourcesReadable(dto, i)
    ensures |r| == |dto.positions[i].toolLanguages|
  {
    seq(|dto.positions[i].toolLanguages|, j requires 0 <= j < |dto.positions[i].toolLanguages| => PostedToolLanguage(dto, i, j))
  }

  function PostedPosition(dto: EmployeeDto, i: nat, employeeId: int): Position
    requires i < |dto.positions| && PositionSourcesReadable(dto, i)
  {
    NewPosition(dto.positions[i], employeeId).(toolLanguages := PostedToolLanguages(dto, i))
  }

  /** The employee PostEmployee adds, as the code is written: the images of each tool language come from the lookup. */
  function PostedEmployee(dto: EmployeeDto, employeeId: int): (e: Employee)
    requires PostSourcesReadable(dto)
    ensures |e.positions| == |dto.positions|
  {
    Employee(employeeId, dto.name,
             seq(|dto.positions|, i requires 0 <= i < |dto.positions| => PostedPosition(dto, i, employeeId)))
  }

  /**
    With distinct keys among sibling DTOs, PostEmployee as written does what it is meant to: its
    loops run to the end exactly when every image DTO has an upload, and the tree it adds is the
    one that mirrors the DTO.
  */
  lemma PostedAgrees(dto: EmployeeDto, employeeId: int)
    requires Distinct(PositionDtoIds(dto.positions))
    requires forall i :: 0 <= i < |dto.positions| ==> Distinct(ToolLanguageDtoIds(dto.positions[i].toolLanguages))
    ensures PostSourcesReadable(dto) <==> PositionsHaveData(dto.positions)
    ensures PostSourcesReadable(dto) ==> PostedEmployee(dto, employeeId) == CreatedEmployee(dto, employeeId)
  {
    var ds := dto.positions;
    forall i, j | 0 <= i < |ds| && 0 <= j < |ds[i].toolLanguages|
      ensures ImageSourceAsWritten(dto, i, j) == Some(ds[i].toolLanguages[j].images)
    {
      ImageSourceAgrees(dto, i, j);
    }
    if PostSourcesReadable(dto) {
      forall i | 0 <= i < |ds| ensures ToolLanguagesHaveData(ds[i].toolLanguages) {
        assert PositionSourcesReadable(dto, i);
        forall j | 0 <= j < |ds[i].toolLanguages| ensures ImagesHaveData(ds[i].toolLanguages[j].images) {
          assert SourceReadable(dto, i, j);
        }
      }
      var posted, created := PostedEmployee(dto, employeeId), CreatedEmployee(dto, employeeId);
      forall i | 0 <= i < |ds| ensures posted.positions[i] == created.positions[i] {
        assert posted.positions[i].toolLanguages == created.positions[i].toolLanguages;
      }
    }
  }

  /** A well-formed request with two new positions, both keyed 0 as a client posting new rows sends them. */
  function TwoNewPositions(first: seq<ImageDto>, second: seq<ImageDto>, secondToolKey: int): EmployeeDto
  {
    EmployeeDto("Ann", [
      PositionDto(0, 1, 0, [ToolLanguageDto(0, 1, 0, 2019, 2021, "React", first)]),
      PositionDto(0, 2, 1, [ToolLanguageDto(secondToolKey, 6, 0, 2015, 2020, "PHP", second)])
    ])
  }

  const SampleFile: FormFile := FormFile([1, 2, 3], "image/png", "Data", "a.png")
  const OtherFile: FormFile := FormFile([4, 5], "image/jpeg", "Data", "b.jpg")

  /**
    As written, the second new position's tool language gets the images of the first position's:
    both positions have key 0, so the lookup lands on the first position DTO every time. The
    request goes through, and the tree added differs from the one that mirrors the DTO.
  */
  lemma ImageSourceMisdirected()
    ensures var dto := TwoNewPositions([ImageDto(0, Some(SampleFile), None, 0)], [ImageDto(0, Some(OtherFile), None, 0)], 0);
      && EmployeeDtoValid(dto) && PositionsHaveData(dto.positions) && PostSourcesReadable(dto)
      && PostedEmployee(dto, 1).positions[1].toolLanguages[0].images
         == CreatedEmployee(dto, 1).positions[0].toolLanguages[0].images
      && PostedEmployee(dto, 1).positions[1].toolLanguages[0].images
         != CreatedEmployee(dto, 1).positions[1].toolLanguages[0].images
  {
    var dto := TwoNewPositions([ImageDto(0, Some(SampleFile), None, 0)], [ImageDto(0, Some(OtherFile), None, 0)], 0);
    AcceptedSample(0);
    assert ImageSourceAsWritten(dto, 0, 0) == Some(dto.positions[0].toolLanguages[0].images);
    assert ImageSourceAsWritten(dto, 1, 0) == Some(dto.positions[0].toolLanguages[0].images);
    assert PositionSourcesReadable(dto, 0) && PositionSourcesReadable(dto, 1);
    assert PostedEmployee(dto, 1).positions[1].toolLanguages[0].images[0].payload != CreatedEmployee(dto, 1).positions[1].toolLanguages[0].images[0].payload;
  }

  /**
    As written, when the second new position's tool language has a key the first position DTO
    does not list, the lookup throws: a valid request, every upload present, ends in a server error.
  */
  lemma ImageSourceMissing()
    ensures var dto := TwoNewPositions([ImageDto(0, Some(SampleFile), None, 0)], [ImageDto(0, Some(OtherFile), None, 0)], 7);
      EmployeeDtoValid(dto) && PositionsHaveData(dto.positions) && !PostSourcesReadable(dto)
  {
    var dto := TwoNewPositions([ImageDto(0, Some(SampleFile), None, 0)], [ImageDto(0, Some(OtherFile), None, 0)], 7);
    AcceptedSample(7);
    assert ToolLanguageDtoIds(dto.positions[0].toolLanguages) == [0];
    assert !SourceReadable(dto, 1, 0);
    assert !PositionSourcesReadable(dto, 1);
  }

  /** The requests of the two counterexamples pass validation, whatever the second tool language's key. */
  lemma AcceptedSample(secondToolKey: int)
    ensures EmployeeDtoValid(TwoNewPositions([ImageDto(0, Some(SampleFile), None, 0)], [ImageDto(0, Some(OtherFile), None, 0)], secondToolKey))
  {
    var dto := TwoNewPositions([ImageDto(0, Some(SampleFile), None, 0)], [ImageDto(0, Some(OtherFile), None, 0)], secondToolKey);
    var ps := dto.positions;
    assert ImageDtoValid(ps[0].toolLanguages[0].images[0]) && ImageIdentified(ps[0].toolLanguages[0].images[0]);
    assert ImageDtoValid(ps[1].toolLanguages[0].images[0]) && ImageIdentified(ps[1].toolLanguages[0].images[0]);
    assert !IsWhiteSpace(ps[0].toolLanguages[0].description[0]) && !IsWhiteSpace(ps[1].toolLanguages[0].description[0]);
    assert ToolLanguageDtoValid(ps[0].toolLanguages[0]);
    assert ToolLanguageDtoValid(ps[1].toolLanguages[0]);
    assert PositionDtoValid(ps[0]) && PositionDtoValid(ps[1]);
    assert !IsWhiteSpace(dto.name[0]);
    assert Distinct(PositionResourceIdsOf(ps));
  }

  /**
    The tree PostEmployee adds: the DTO's name under the new key, one position per position DTO
    and one tool language per tool-language DTO, in order and with the DTOs' keys and fields, and
    under each tool language one new image per image DTO, with its upload and display order.
  */
  lemma CreatedEmployeeMirrorsDto(dto: EmployeeDto, employeeId: int, i: nat, j: nat, m: nat)
    requires PositionsHaveData(dto.positions)
    requires i < |dto.positions| && j < |dto.positions[i].toolLanguages| && m < |dto.positions[i].toolLanguages[j].images|
    ensures var e := CreatedEmployee(dto, employeeId);
      && e.employeeId == employeeId && e.name == dto.name
      && |e.positions| == |dto.positions|
      && var p, pd := e.positions[i], dto.positions[i];
      && p.positionId == pd.id && p.positionResourceId == pd.positionResourceId && p.displayOrder == pd.displayOrder
      && |p.toolLanguages| == |pd.toolLanguages|
      && var t, td := p.toolLanguages[j], pd.toolLanguages[j];
      && t.toolLanguageId == td.id && Scalars(t) == DtoScalars(td)
      && |t.images| == |td.images|
      && t.images[m].payload == td.images[m].data.value.content
      && t.images[m].displayOrder == td.images[m].displayOrder
  {
    var td := dto.positions[i].toolLanguages[j];
    assert ImagesHaveData(td.images);
    assert td.images[m].data.Some?;
  }

  /** The added tree is parent-keyed: every node carries the key of the node above it. */
  lemma PostedParentKeyed(dto: EmployeeDto, employeeId: int)
    requires PostSourcesReadable(dto)
    ensures ParentKeyed(PostedEmployee(dto, employeeId))
  {
    var ps := PostedEmployee(dto, employeeId).positions;
    forall i | 0 <= i < |ps| ensures ps[i].employeeId == employeeId && PositionKeyed(ps[i]) {
      var tls := ps[i].toolLanguages;
      assert ToolLanguagesKeyed(tls, ps[i].positionId) by {
        forall j | 0 <= j < |tls| ensures tls[j].positionId == ps[i].positionId && ToolLanguageKeyed(tls[j]) {
          assert ImagesKeyed(tls[j].images, tls[j].toolLanguageId);
        }
      }
    }
  }

  /** An added tree whose DTO passed validation has every year range ordered and every image list present. */
  lemma PostedRangesOrdered(dto: EmployeeDto, employeeId: int)
    requires PostSourcesReadable(dto) && EmployeeDtoValid(dto)
    ensures EmployeeRangesOrdered(PostedEmployee(dto, employeeId))
    ensures ImagesLoaded(PostedEmployee(dto, employeeId).positions)
  {
    var ps := PostedEmployee(dto, employeeId).positions;
    forall i | 0 <= i < |ps| ensures RangesOrdered(ps[i].toolLanguages) {
      assert PositionDtoValid(dto.positions[i]);
      forall j | 0 <= j < |ps[i].toolLanguages| ensures ps[i].toolLanguages[j].from <= ps[i].toolLanguages[j].to {
        assert ToolLanguageDtoValid(dto.positions[i].toolLanguages[j]);
      }
    }
  }

  /** The image loop of PostEmployee; `ok` is false when an image DTO has no upload. */
  method BuildImages(ds: seq<ImageDto>, toolLanguageId: int) returns (ok: bool, r: seq<Image>)
    ensures ok <==> ImagesHaveData(ds)
    ensures ok ==> r == CreatedImages(ds, toolLanguageId)
  {
    r := [];
    var i := 0;
    while i < |ds|
      invariant 0 <= i <= |ds| && |r| == i
      invariant ImagesHaveData(ds[..i])
      invariant forall k :: 0 <= k < i ==> r[k] == Image(0, FromFormFile(ds[k].data).value, ds[k].displayOrder, toolLanguageId)
    {
      if ds[i].data.None? {
        return false, r;
      }
      r := r + [Image(0, FromFormFile(ds[i].data).value, ds[i].displayOrder, toolLanguageId)];
      assert ds[..i + 1][..i] == ds[..i] && ds[..i + 1][i] == ds[i];
      i := i + 1;
    }
    assert ds[..i] == ds;
    ok := true;
  }

  /**
    The tool-language loop of PostEmployee for the position at i: each tool language gets a new
    image list, filled from the image DTOs the lookup by key finds; `ok` is false when the lookup
    throws or an image DTO it reads has no upload.
  */
  method BuildToolLanguages(dto: EmployeeDto, i: nat) returns (ok: bool, r: seq<ToolLanguage>)
    requires i < |dto.positions|
    ensures ok <==> PositionSourcesReadable(dto, i)
    ensures ok ==> r == PostedToolLanguages(dto, i)
  {
    var ds := dto.positions;
    var p := ds[i];
    assert PositionDtoIds(ds)[i] == p.id;
    var pd := ds[FirstIndex(PositionDtoIds(ds), p.id).value];
    r := [];
    var j := 0;
    while j < |p.toolLanguages|
      invariant 0 <= j <= |p.toolLanguages| && |r| == j
      invariant forall k :: 0 <= k < j ==> SourceReadable(dto, i, k) && r[k] == PostedToolLanguage(dto, i, k)
    {
      var d := p.toolLanguages[j];
      var images;
      match FirstIndex(ToolLanguageDtoIds(pd.toolLanguages), d.id) {
        case None =>
          assert !SourceReadable(dto, i, j);
          return false, r;
        case Some(m) =>
          ok, images := BuildImages(pd.toolLanguages[m].images, d.id);
      }
      if !ok {
        assert !SourceReadable(dto, i, j);
        return;
      }
      r := r + [ToolLanguage(d.id, d.toolLanguageResourceId, d.displayOrder, d.from, d.to, d.description, images, true, p.id)];
      j := j + 1;
    }
    ok := true;
  }

  /**
    PostEmployee's construction, as written; `ok` is false when some lookup throws or some image
    DTO it reads has no upload.
  */
  method BuildEmployee(dto: EmployeeDto, employeeId: int) returns (ok: bool, e: Employee)
    ensures ok <==> PostSourcesReadable(dto)
    ensures ok ==> e == PostedEmployee(dto, employeeId)
  {
    var ds := dto.positions;
    var ps: seq<Position> := [];
    var i := 0;
    while i < |ds|
      invariant 0 <= i <= |ds| && |ps| == i
      invariant forall k :: 0 <= k < i ==> PositionSourcesReadable(dto, k) && ps[k] == PostedPosition(dto, k, employeeId)
    {
      var d := ds[i];
      var tls;
      ok, tls := BuildToolLanguages(dto, i);
      if !ok {
        e := Employee(employeeId, dto.name, ps);
        return;
      }
      ps := ps + [Position(d.id, d.positionResourceId, d.displayOrder, tls, employeeId)];
      i := i + 1;
    }
    e := Employee(employeeId, dto.name, ps);
    ok := true;
  }
}
