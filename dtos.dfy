/**
  The request shapes of the employee API (EmployeeDTO -> PositionDTO -> ToolLanguageDTO ->
  ImageDTO), the FluentValidation rules run on them before an action executes, and the
  FileConverter helpers between byte arrays and uploaded files.
*/
module Dtos {
  import opened Common
  import opened Lookup

  /** An uploaded file (IFormFile): its bytes, its declared MIME type and its form names. */
  datatype FormFile = FormFile(content: seq<byte>, contentType: string, name: string, fileName: string)

  /** One id per DTO node: the controller reads it as ImageId / ToolLanguageId / PositionId. */
  datatype ImageDto = ImageDto(id: int, data: Option<FormFile>, cdnUrl: Option<string>, displayOrder: int)

  datatype ToolLanguageDto = ToolLanguageDto(
    id: int,
    toolLanguageResourceId: int,
    displayOrder: int,
    from: int,
    to: int,
    description: string,
    images: seq<ImageDto>)

  datatype PositionDto = PositionDto(id: int, positionResourceId: int, displayOrder: int, toolLanguages: seq<ToolLanguageDto>)

  /** A null list binds as the empty list, a null string as the empty string. */
  datatype EmployeeDto = EmployeeDto(name: string, positions: seq<PositionDto>)

  /** Largest accepted upload: 2 MB. */
  const MaxImageBytes: int := 2 * 1024 * 1024

  const NameRequired := "Name is required."
  const PositionRequired := "At least one position is required."
  const PositionDuplicated := "Position cannot be duplicated."
  const PositionResourceRequired := "PositionResourceId is required."
  const ToolLanguageRequired := "At least one Tool/Language is required."
  const ToolLanguageDuplicated := "Tool/Language cannot be duplicated."
  const ToolLanguageResourceRequired := "ToolLanguageResourceId is required."
  const YearsOutOfOrder := "From year must be less than or equal to To year."
  const DescriptionRequired := "Description is required."
  const ImagesRequired := "Images is required."
  const ImageIdOrData := "Please provide either 'ImageId' or 'Data' for each image."
  const ImageTooLarge := "Image size must be less than or equal to 2MB."
  const ImageNotAnImage := "Invalid image format. Only image files are allowed."

  // String rules.

  /** The characters .NET's char.IsWhiteSpace accepts (Unicode separators and the C0/C1 spacing controls). */
  predicate IsWhiteSpace(c: char)
  {
    var n := c as int;
    (0x09 <= n <= 0x0D) || n == 0x20 || n == 0x85 || n == 0xA0 || n == 0x1680
    || (0x2000 <= n <= 0x200A) || n == 0x2028 || n == 0x2029 || n == 0x202F || n == 0x205F || n == 0x3000
  }

  /** FluentValidation's NotEmpty on a string: not null, not empty and not all white space. */
  predicate NotBlank(s: string)
  {
    exists i :: 0 <= i < |s| && !IsWhiteSpace(s[i])
  }

  predicate StartsWith(s: string, prefix: string)
  {
    |prefix| <= |s| && s[..|prefix|] == prefix
  }

  // Keys the duplicate rules compare.

  function PositionResourceIdsOf(ps: seq<PositionDto>): (r: seq<int>)
    ensures |r| == |ps| && forall i :: 0 <= i < |ps| ==> r[i] == ps[i].positionResourceId
  {
    seq(|ps|, i requires 0 <= i < |ps| => ps[i].positionResourceId)
  }

  function ToolLanguageResourceIdsOf(ts: seq<ToolLanguageDto>): (r: seq<int>)
    ensures |r| == |ts| && forall i :: 0 <= i < |ts| ==> r[i] == ts[i].toolLanguageResourceId
  {
    seq(|ts|, i requires 0 <= i < |ts| => ts[i].toolLanguageResourceId)
  }

  /** `ids.Distinct().Count() == ids.Count`, as the validators compute it. */
  function DistinctCount(ids: seq<int>): bool
  {
    |Elems(ids)| == |ids|
  }

  // What a valid request is, rule by rule.

  /** ImageValidator: an image that carries a file is at most 2 MB and of an image/ type; one without a file passes. */
  predicate ImageDtoValid(d: ImageDto)
  {
    d.data.Some? ==> |d.data.value.content| <= MaxImageBytes && StartsWith(d.data.value.contentType, "image/")
  }

  /** The per-image rule of ToolLanguageValidator: an existing image (id >= 0) or a non-empty upload. */
  predicate ImageIdentified(d: ImageDto)
  {
    d.id >= 0 || (d.data.Some? && |d.data.value.content| > 0)
  }

  predicate ToolLanguageDtoValid(t: ToolLanguageDto)
  {
    && t.toolLanguageResourceId != 0
    && t.from <= t.to
    && NotBlank(t.description)
    && |t.images| > 0
    && (forall i :: 0 <= i < |t.images| ==> ImageIdentified(t.images[i]) && ImageDtoValid(t.images[i]))
  }

  predicate PositionDtoValid(p: PositionDto)
  {
    && p.positionResourceId != 0
    && |p.toolLanguages| > 0
    && Distinct(ToolLanguageResourceIdsOf(p.toolLanguages))
    && (forall j :: 0 <= j < |p.toolLanguages| ==> ToolLanguageDtoValid(p.toolLanguages[j]))
  }

  predicate EmployeeDtoValid(e: EmployeeDto)
  {
    && NotBlank(e.name)
    && |e.positions| > 0
    && Distinct(PositionResourceIdsOf(e.positions))
    && (forall i :: 0 <= i < |e.positions| ==> PositionDtoValid(e.positions[i]))
  }

  // The validators as FluentValidation runs them: every rule in declaration order, each failing
  // rule contributing its message, child validators' messages after the parent's own rules.

  function ImageErrors(d: ImageDto): (errs: seq<string>)
    ensures errs == [] <==> ImageDtoValid(d)
  {
    match d.data
    case None => []
    case Some(f) =>
      (if |f.content| <= MaxImageBytes then [] else [ImageTooLarge])
      + (if StartsWith(f.contentType, "image/") then [] else [ImageNotAnImage])
  }

  /** The messages of a rule run over each element of a list, element by element. */
  function Concat(errss: seq<seq<string>>): (errs: seq<string>)
    ensures errs == [] <==> forall i :: 0 <= i < |errss| ==> errss[i] == []
    decreases |errss|
  {
    if errss == [] then []
    else
      var front := errss[..|errss| - 1];
      assert forall i :: 0 <= i < |front| ==> front[i] == errss[i];
      Concat(front) + errss[|errss| - 1]
  }

  /** The Images.ForEach(Must(...)) rule, one message per image that fails it. */
  function ImageIdOrDataErrors(ds: seq<ImageDto>): (errs: seq<string>)
    ensures errs == [] <==> forall i :: 0 <= i < |ds| ==> ImageIdentified(ds[i])
  {
    var errss := seq(|ds|, i requires 0 <= i < |ds| => if ImageIdentified(ds[i]) then [] else [ImageIdOrData]);
    assert forall i :: 0 <= i < |ds| ==> errss[i] == if ImageIdentified(ds[i]) then [] else [ImageIdOrData];
    Concat(errss)
  }

  /** RuleForEach(Images).SetValidator(ImageValidator). */
  function ImagesErrors(ds: seq<ImageDto>): (errs: seq<string>)
    ensures errs == [] <==> forall i :: 0 <= i < |ds| ==> ImageDtoValid(ds[i])
  {
    var errss := seq(|ds|, i requires 0 <= i < |ds| => ImageErrors(ds[i]));
    assert forall i :: 0 <= i < |ds| ==> errss[i] == ImageErrors(ds[i]);
    Concat(errss)
  }

  function ToolLanguageErrors(t: ToolLanguageDto): (errs: seq<string>)
    ensures errs == [] <==> ToolLanguageDtoValid(t)
  {
    (if t.toolLanguageResourceId != 0 then [] else [ToolLanguageResourceRequired])
    + (if t.from <= t.to then [] else [YearsOutOfOrder])
    + (if NotBlank(t.description) then [] else [DescriptionRequired])
    + (if |t.images| > 0 then [] else [ImagesRequired])
    + ImageIdOrDataErrors(t.images)
    + ImagesErrors(t.images)
  }

  /** RuleForEach(ToolLanguages).SetValidator(ToolLanguageValidator). */
  function ToolLanguagesErrors(ts: seq<ToolLanguageDto>): (errs: seq<string>)
    ensures errs == [] <==> forall j :: 0 <= j < |ts| ==> ToolLanguageDtoValid(ts[j])
  {
    var errss := seq(|ts|, j requires 0 <= j < |ts| => ToolLanguageErrors(ts[j]));
    assert forall j :: 0 <= j < |ts| ==> errss[j] == ToolLanguageErrors(ts[j]);
    Concat(errss)
  }

  function PositionErrors(p: PositionDto): (errs: seq<string>)
    ensures errs == [] <==> PositionDtoValid(p)
  {
    DistinctCountIffDistinct(ToolLanguageResourceIdsOf(p.toolLanguages));
    (if p.positionResourceId != 0 then [] else [PositionResourceRequired])
    + (if |p.toolLanguages| > 0 then [] else [ToolLanguageRequired])
    + (if DistinctCount(ToolLanguageResourceIdsOf(p.toolLanguages)) then [] else [ToolLanguageDuplicated])
    + ToolLanguagesErrors(p.toolLanguages)
  }

  /** RuleForEach(Positions).SetValidator(PositionValidator). */
  function PositionsErrors(ps: seq<PositionDto>): (errs: seq<string>)
    ensures errs == [] <==> forall i :: 0 <= i < |ps| ==> PositionDtoValid(ps[i])
  {
    var errss := seq(|ps|, i requires 0 <= i < |ps| => PositionErrors(ps[i]));
    assert forall i :: 0 <= i < |ps| ==> errss[i] == PositionErrors(ps[i]);
    Concat(errss)
  }

  /**
    EmployeeValidator, with the nested validators it installs. The request is accepted exactly
    when no rule anywhere in the tree fails.
  */
  function EmployeeErrors(e: EmployeeDto): (errs: seq<string>)
    ensures errs == [] <==> EmployeeDtoValid(e)
  {
    DistinctCountIffDistinct(PositionResourceIdsOf(e.positions));
    (if NotBlank(e.name) then [] else [NameRequired])
    + (if |e.positions| > 0 then [] else [PositionRequired])
    + (if DistinctCount(PositionResourceIdsOf(e.positions)) then [] else [PositionDuplicated])
    + PositionsErrors(e.positions)
  }

  /**
    Validity is hierarchical: an accepted employee has only valid positions, tool languages and
    images below it, and every year range in it is ordered.
  */
  lemma AcceptedTreeIsValid(e: EmployeeDto, i: nat, j: nat, k: nat)
    requires EmployeeErrors(e) == []
    requires i < |e.positions| && j < |e.positions[i].toolLanguages| && k < |e.positions[i].toolLanguages[j].images|
    ensures PositionErrors(e.positions[i]) == []
    ensures ToolLanguageErrors(e.positions[i].toolLanguages[j]) == []
    ensures e.positions[i].toolLanguages[j].from <= e.positions[i].toolLanguages[j].to
    ensures ImageErrors(e.positions[i].toolLanguages[j].images[k]) == []
  {
  }

  // FileConverter.

  /** ToFormFile: no file for a null or empty array; otherwise a file over exactly those bytes (no content type set). */
  function ToFormFile(bytes: Option<seq<byte>>, name: string, fileName: string): (f: Option<FormFile>)
    ensures f.None? <==> bytes.None? || bytes.value == []
    ensures f.Some? ==> f.value.content == bytes.value && f.value.name == name && f.value.fileName == fileName
  {
    if bytes.None? || bytes.value == [] then None
    else Some(FormFile(bytes.value, "", name, fileName))
  }

  /** FromFormFile: null for no file, otherwise the file's bytes copied out. */
  function FromFormFile(file: Option<FormFile>): (bytes: Option<seq<byte>>)
    ensures bytes.None? <==> file.None?
    ensures bytes.Some? ==> bytes.value == file.value.content
  {
    match file
    case None => None
    case Some(f) => Some(f.content)
  }

  /** Wrapping a non-empty array and reading it back gives the same bytes; an empty array does not survive. */
  lemma FormFileRoundTrip(bytes: seq<byte>, name: string, fileName: string)
    ensures FromFormFile(ToFormFile(Some(bytes), name, fileName)) == if bytes == [] then None else Some(bytes)
  {
  }

  /** Reading a non-empty upload and wrapping it again keeps its bytes and names. */
  lemma FormFileRoundTripBack(f: FormFile)
    requires f.content != []
    ensures var g := ToFormFile(FromFormFile(Some(f)), f.name, f.fileName);
      g.Some? && g.value.content == f.content && g.value.name == f.name && g.value.fileName == f.fileName
  {
  }
}
