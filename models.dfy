/**
  The persisted entities (Employee -> Positions -> ToolLanguages -> Images, and the two
  lookup tables), the database context that holds them, and the seeding of the lookup tables.
*/
module Models {
  import opened Common
  import opened Lookup

  /**
    A stored image. `payload` stands for the image content: the controller writes the uploaded
    bytes into it, where the entity class declares a CDN URL.
  */
  datatype Image = Image(imageId: int, payload: seq<byte>, displayOrder: int, toolLanguageId: int)

  /**
    A tool language. `imagesLoaded` is false for one the mapper built from a DTO: its Images
    list is then null (the mapping profile ignores it), and `images` is empty.
  */
  datatype ToolLanguage = ToolLanguage(
    toolLanguageId: int,
    toolLanguageResourceId: int,
    displayOrder: int,
    from: int,
    to: int,
    description: string,
    images: seq<Image>,
    imagesLoaded: bool,
    positionId: int)

  datatype Position = Position(
    positionId: int,
    positionResourceId: int,
    displayOrder: int,
    toolLanguages: seq<ToolLanguage>,
    employeeId: int)

  datatype Employee = Employee(employeeId: int, name: string, positions: seq<Position>)

  /** Lookup row for a role ("Frontend", ...); positions point at it, it is not part of their tree. */
  datatype PositionResource = PositionResource(positionResourceId: int, name: string)

  /** Lookup row for a tool or language, filed under one position resource. */
  datatype ToolLanguageResource = ToolLanguageResource(toolLanguageResourceId: int, name: string, positionResourceId: int)

  // Keys of each level of the tree, in order.

  function ImageIds(s: seq<Image>): (r: seq<int>)
    ensures |r| == |s| && forall i :: 0 <= i < |s| ==> r[i] == s[i].imageId
  {
    seq(|s|, i requires 0 <= i < |s| => s[i].imageId)
  }

  function ToolLanguageIds(s: seq<ToolLanguage>): (r: seq<int>)
    ensures |r| == |s| && forall i :: 0 <= i < |s| ==> r[i] == s[i].toolLanguageId
  {
    seq(|s|, i requires 0 <= i < |s| => s[i].toolLanguageId)
  }

  function PositionIds(s: seq<Position>): (r: seq<int>)
    ensures |r| == |s| && forall i :: 0 <= i < |s| ==> r[i] == s[i].positionId
  {
    seq(|s|, i requires 0 <= i < |s| => s[i].positionId)
  }

  function EmployeeIds(s: seq<Employee>): (r: seq<int>)
    ensures |r| == |s| && forall i :: 0 <= i < |s| ==> r[i] == s[i].employeeId
  {
    seq(|s|, i requires 0 <= i < |s| => s[i].employeeId)
  }

  function PositionResourceIds(s: seq<PositionResource>): (r: seq<int>)
    ensures |r| == |s| && forall i :: 0 <= i < |s| ==> r[i] == s[i].positionResourceId
  {
    seq(|s|, i requires 0 <= i < |s| => s[i].positionResourceId)
  }

  function ToolLanguageResourceIds(s: seq<ToolLanguageResource>): (r: seq<int>)
    ensures |r| == |s| && forall i :: 0 <= i < |s| ==> r[i] == s[i].toolLanguageResourceId
  {
    seq(|s|, i requires 0 <= i < |s| => s[i].toolLanguageResourceId)
  }

  // The tree is parent-keyed: every child row carries the key of the row that owns it.

  predicate ImagesKeyed(images: seq<Image>, toolLanguageId: int)
  {
    forall k :: 0 <= k < |images| ==> images[k].toolLanguageId == toolLanguageId
  }

  predicate ToolLanguageKeyed(t: ToolLanguage)
  {
    ImagesKeyed(t.images, t.toolLanguageId)
  }

  predicate ToolLanguagesKeyed(tls: seq<ToolLanguage>, positionId: int)
  {
    forall j :: 0 <= j < |tls| ==> tls[j].positionId == positionId && ToolLanguageKeyed(tls[j])
  }

  predicate PositionKeyed(p: Position)
  {
    ToolLanguagesKeyed(p.toolLanguages, p.positionId)
  }

  predicate PositionsKeyed(ps: seq<Position>, employeeId: int)
  {
    forall i :: 0 <= i < |ps| ==> ps[i].employeeId == employeeId && PositionKeyed(ps[i])
  }

  predicate ParentKeyed(e: Employee)
  {
    PositionsKeyed(e.positions, e.employeeId)
  }

  /** Every stored year range is ordered (the validator admits no other). */
  predicate RangesOrdered(tls: seq<ToolLanguage>)
  {
    forall j :: 0 <= j < |tls| ==> tls[j].from <= tls[j].to
  }

  predicate PositionsRangesOrdered(ps: seq<Position>)
  {
    forall i :: 0 <= i < |ps| ==> RangesOrdered(ps[i].toolLanguages)
  }

  predicate EmployeeRangesOrdered(e: Employee)
  {
    PositionsRangesOrdered(e.positions)
  }

  /** Every tool language under these positions has its image list. */
  predicate ImagesLoaded(ps: seq<Position>)
  {
    forall i, j :: 0 <= i < |ps| && 0 <= j < |ps[i].toolLanguages| ==> ps[i].toolLanguages[j].imagesLoaded
  }

  /**
    The foreign keys from the tree into the lookup tables resolve: Position.PositionResourceId
    and ToolLanguage.ToolLanguageResourceId name existing lookup rows.
  */
  predicate ReferencesResolve(e: Employee, positionResourceIds: seq<int>, toolLanguageResourceIds: seq<int>)
  {
    forall i :: 0 <= i < |e.positions| ==>
      && e.positions[i].positionResourceId in positionResourceIds
      && forall j :: 0 <= j < |e.positions[i].toolLanguages| ==>
           e.positions[i].toolLanguages[j].toolLanguageResourceId in toolLanguageResourceIds
  }

  lemma ReferencesResolveGrow(e: Employee, a: seq<int>, b: seq<int>, a': seq<int>, b': seq<int>)
    requires ReferencesResolve(e, a, b)
    requires forall x :: x in a ==> x in a'
    requires forall x :: x in b ==> x in b'
    ensures ReferencesResolve(e, a', b')
  {
  }

  /** What every committed state of the database satisfies. */
  ghost predicate StoreValid(
    employees: seq<Employee>, positionResources: seq<PositionResource>,
    toolLanguageResources: seq<ToolLanguageResource>,
    nextEmployeeId: int, nextPositionResourceId: int, nextToolLanguageResourceId: int)
  {
    && 0 < nextEmployeeId
    && Distinct(EmployeeIds(employees))
    && (forall i :: 0 <= i < |employees| ==>
          && 0 < employees[i].employeeId < nextEmployeeId
          && EmployeeValid(employees[i], PositionResourceIds(positionResources),
                           ToolLanguageResourceIds(toolLanguageResources)))
    && LookupTablesValid(positionResources, toolLanguageResources, nextPositionResourceId, nextToolLanguageResourceId)
  }

  /**
    A stored employee: parent-keyed, year ranges ordered, lookup references resolving, and every
    image list present (reading an employee includes them).
  */
  ghost predicate EmployeeValid(e: Employee, positionResourceIds: seq<int>, toolLanguageResourceIds: seq<int>)
  {
    && ParentKeyed(e) && EmployeeRangesOrdered(e) && ImagesLoaded(e.positions)
    && ReferencesResolve(e, positionResourceIds, toolLanguageResourceIds)
  }

  /**
    The lookup tables: keys distinct and below their identity sequence, every tool filed under
    an existing role (so no tool row exists while the role table is empty).
  */
  ghost predicate LookupTablesValid(
    positionResources: seq<PositionResource>, toolLanguageResources: seq<ToolLanguageResource>,
    nextPositionResourceId: int, nextToolLanguageResourceId: int)
  {
    && 0 < nextPositionResourceId && 0 < nextToolLanguageResourceId
    && (positionResources == [] ==> toolLanguageResources == [])
    && Distinct(PositionResourceIds(positionResources))
    && (forall i :: 0 <= i < |positionResources| ==>
          0 < positionResources[i].positionResourceId < nextPositionResourceId)
    && Distinct(ToolLanguageResourceIds(toolLanguageResources))
    && (forall i :: 0 <= i < |toolLanguageResources| ==>
          && 0 < toolLanguageResources[i].toolLanguageResourceId < nextToolLanguageResourceId
          && toolLanguageResources[i].positionResourceId in PositionResourceIds(positionResources))
  }

  // How the controller's commits keep the store valid.

  /** Writing back a stored employee under its own key, once the new tree is valid, keeps the store valid. */
  lemma StoreValidReplace(
    employees: seq<Employee>, positionResources: seq<PositionResource>,
    toolLanguageResources: seq<ToolLanguageResource>,
    nextEmployeeId: int, nextPositionResourceId: int, nextToolLanguageResourceId: int, k: nat, e: Employee)
    requires StoreValid(employees, positionResources, toolLanguageResources,
                        nextEmployeeId, nextPositionResourceId, nextToolLanguageResourceId)
    requires k < |employees| && e.employeeId == employees[k].employeeId
    requires EmployeeValid(e, PositionResourceIds(positionResources), ToolLanguageResourceIds(toolLanguageResources))
    ensures StoreValid(employees[k := e], positionResources, toolLanguageResources,
                       nextEmployeeId, nextPositionResourceId, nextToolLanguageResourceId)
  {
    assert EmployeeIds(employees[k := e]) == EmployeeIds(employees);
  }

  /** Adding an employee under the next key of the identity sequence, and advancing it, keeps the store valid. */
  lemma StoreValidAppend(
    employees: seq<Employee>, positionResources: seq<PositionResource>,
    toolLanguageResources: seq<ToolLanguageResource>,
    nextEmployeeId: int, nextPositionResourceId: int, nextToolLanguageResourceId: int, e: Employee)
    requires StoreValid(employees, positionResources, toolLanguageResources,
                        nextEmployeeId, nextPositionResourceId, nextToolLanguageResourceId)
    requires e.employeeId == nextEmployeeId
    requires EmployeeValid(e, PositionResourceIds(positionResources), ToolLanguageResourceIds(toolLanguageResources))
    ensures StoreValid(employees + [e], positionResources, toolLanguageResources,
                       nextEmployeeId + 1, nextPositionResourceId, nextToolLanguageResourceId)
  {
    var ids := EmployeeIds(employees + [e]);
    forall i, j | 0 <= i < j < |ids| ensures ids[i] != ids[j] {
      if j == |employees| {
        assert ids[i] == employees[i].employeeId;
      } else {
        assert ids[i] == EmployeeIds(employees)[i] && ids[j] == EmployeeIds(employees)[j];
      }
    }
  }

  /** Advancing the identity sequence alone (an insert that failed after taking its key) keeps the store valid. */
  lemma StoreValidAdvance(
    employees: seq<Employee>, positionResources: seq<PositionResource>,
    toolLanguageResources: seq<ToolLanguageResource>,
    nextEmployeeId: int, nextPositionResourceId: int, nextToolLanguageResourceId: int)
    requires StoreValid(employees, positionResources, toolLanguageResources,
                        nextEmployeeId, nextPositionResourceId, nextToolLanguageResourceId)
    ensures StoreValid(employees, positionResources, toolLanguageResources,
                       nextEmployeeId + 1, nextPositionResourceId, nextToolLanguageResourceId)
  {
  }

  /** Deleting a stored employee with its whole tree keeps the store valid. */
  lemma StoreValidRemove(
    employees: seq<Employee>, positionResources: seq<PositionResource>,
    toolLanguageResources: seq<ToolLanguageResource>,
    nextEmployeeId: int, nextPositionResourceId: int, nextToolLanguageResourceId: int, k: nat)
    requires StoreValid(employees, positionResources, toolLanguageResources,
                        nextEmployeeId, nextPositionResourceId, nextToolLanguageResourceId)
    requires k < |employees|
    ensures StoreValid(employees[..k] + employees[k + 1..], positionResources, toolLanguageResources,
                       nextEmployeeId, nextPositionResourceId, nextToolLanguageResourceId)
  {
    var rest := employees[..k] + employees[k + 1..];
    var ids := EmployeeIds(rest);
    assert forall i :: 0 <= i < |rest| ==> rest[i] == employees[if i < k then i else i + 1];
    forall i, j | 0 <= i < j < |ids| ensures ids[i] != ids[j] {
      var i', j' := if i < k then i else i + 1, if j < k then j else j + 1;
      assert ids[i] == EmployeeIds(employees)[i'] && ids[j] == EmployeeIds(employees)[j'];
    }
  }

  /**
    The database, as the controller and the seeder see it. Employees hold their whole tree;
    the `next...` fields are the identity sequences that number new rows.
  */
  class EmployeeContext {
    var employees: seq<Employee>
    var positionResources: seq<PositionResource>
    var toolLanguageResources: seq<ToolLanguageResource>
    var nextEmployeeId: int
    var nextPositionResourceId: int
    var nextToolLanguageResourceId: int

    ghost predicate Valid()
      reads this
    {
      StoreValid(employees, positionResources, toolLanguageResources,
                 nextEmployeeId, nextPositionResourceId, nextToolLanguageResourceId)
    }

    /** A freshly created, empty database; identity columns start at 1. */
    constructor ()
      ensures Valid()
      ensures employees == [] && positionResources == [] && toolLanguageResources == []
      ensures nextEmployeeId == 1 && nextPositionResourceId == 1 && nextToolLanguageResourceId == 1
    {
      employees, positionResources, toolLanguageResources := [], [], [];
      nextEmployeeId, nextPositionResourceId, nextToolLanguageResourceId := 1, 1, 1;
    }
  }

  // Seeding (DbInitializer).

  const PositionNames: seq<string> := ["Frontend", "Backend", "Designer"]

  /** The seeded tools and languages of each role, in insertion order. */
  const FrontendTools: seq<string> := ["Javascript", "ReactJS", "VueJS", "AngularJS", "Jquery"]
  const BackendTools: seq<string> := ["PHP", "Python", "Ruby", "Java", "Nodejs", "C", "C++", ".NET"]
  const DesignerTools: seq<string> := ["Adobe XD", "Figma", "Illustrator", "InvisionStudio", "Photoshop", "Sketch"]

  /** A group of tool names, each with the index (into PositionNames) of the role they belong to. */
  function Tagged(names: seq<string>, role: nat): (r: seq<(string, nat)>)
    ensures |r| == |names| && forall i :: 0 <= i < |names| ==> r[i] == (names[i], role)
  {
    seq(|names|, i requires 0 <= i < |names| => (names[i], role))
  }

  /** Every seeded tool or language with its role's index, the three groups one after another. */
  const ToolLanguageSeed: seq<(string, nat)> := Tagged(FrontendTools, 0) + Tagged(BackendTools, 1) + Tagged(DesignerTools, 2)

  /** The role index of row `j` of the seed table: rows 0-4 are Frontend, 5-12 Backend, 13-18 Designer. */
  function RoleOfRow(j: int): nat
  {
    if j < 5 then 0 else if j < 13 then 1 else 2
  }

  /** A seed table laid out as the seeder writes it: nineteen rows in groups of 5, 8 and 6. */
  predicate SeedGrouped(seed: seq<(string, nat)>)
  {
    |seed| == 19 && forall j :: 0 <= j < |seed| ==> seed[j].1 == RoleOfRow(j)
  }

  lemma SeedRole(j: int)
    requires 0 <= j < |ToolLanguageSeed|
    ensures ToolLanguageSeed[j].1 == RoleOfRow(j)
  {
    var f, b, d := Tagged(FrontendTools, 0), Tagged(BackendTools, 1), Tagged(DesignerTools, 2);
    if j < |f| {
      assert ToolLanguageSeed[j] == f[j];
    } else if j < |f| + |b| {
      assert ToolLanguageSeed[j] == b[j - |f|];
    } else {
      assert ToolLanguageSeed[j] == d[j - |f| - |b|];
    }
  }

  /** The seeder's table is laid out in those groups. */
  lemma ToolLanguageSeedGrouped()
    ensures SeedGrouped(ToolLanguageSeed)
  {
    forall j | 0 <= j < |ToolLanguageSeed| ensures ToolLanguageSeed[j].1 == RoleOfRow(j) {
      SeedRole(j);
    }
  }

  /** The three role rows one seeding run inserts, numbered from `first` by the identity column. */
  function SeededPositionResources(first: int): (r: seq<PositionResource>)
    ensures |r| == |PositionNames|
    ensures forall i :: 0 <= i < |r| ==> r[i] == PositionResource(first + i, PositionNames[i])
  {
    seq(|PositionNames|, i requires 0 <= i < |PositionNames| => PositionResource(first + i, PositionNames[i]))
  }

  /**
    The tool rows one seeding run inserts for the table `seed`, numbered from `first`, each
    pointing at the role row of its group among the three numbered from `firstPosition`.
  */
  function SeededToolLanguageResources(seed: seq<(string, nat)>, first: int, firstPosition: int): (r: seq<ToolLanguageResource>)
    ensures |r| == |seed|
    ensures forall i :: 0 <= i < |r| ==>
      r[i] == ToolLanguageResource(first + i, seed[i].0, firstPosition + seed[i].1)
  {
    seq(|seed|, i requires 0 <= i < |seed| => ToolLanguageResource(first + i, seed[i].0, firstPosition + seed[i].1))
  }

  /** How many tool rows point at the role row `positionResourceId`. */
  function CountUnder(s: seq<ToolLanguageResource>, positionResourceId: int): (n: nat)
    ensures n <= |s|
    decreases |s|
  {
    if s == [] then 0
    else CountUnder(s[..|s| - 1], positionResourceId)
         + (if s[|s| - 1].positionResourceId == positionResourceId then 1 else 0)
  }

  lemma CountUnderAppend(a: seq<ToolLanguageResource>, b: seq<ToolLanguageResource>, id: int)
    ensures CountUnder(a + b, id) == CountUnder(a, id) + CountUnder(b, id)
    decreases |b|
  {
    if b != [] {
      assert (a + b)[..|a + b| - 1] == a + b[..|b| - 1];
      assert (a + b)[|a + b| - 1] == b[|b| - 1];
      CountUnderAppend(a, b[..|b| - 1], id);
    } else {
      assert a + b == a;
    }
  }

  /** A run of rows that all point at one role counts fully under it and not at all under another. */
  lemma CountUnderUniform(s: seq<ToolLanguageResource>, parent: int, id: int)
    requires forall i :: 0 <= i < |s| ==> s[i].positionResourceId == parent
    ensures CountUnder(s, id) == if parent == id then |s| else 0
    decreases |s|
  {
    if s != [] {
      CountUnderUniform(s[..|s| - 1], parent, id);
    }
  }

  /**
    One seeding run files 5 tools under Frontend, 8 under Backend and 6 under Designer, and
    every seeded tool points at one of the three roles seeded with it.
  */
  lemma SeededToolsPerRole(seed: seq<(string, nat)>, first: int, firstPosition: int)
    requires SeedGrouped(seed)
    ensures var s := SeededToolLanguageResources(seed, first, firstPosition);
      && CountUnder(s, firstPosition) == 5
      && CountUnder(s, firstPosition + 1) == 8
      && CountUnder(s, firstPosition + 2) == 6
      && forall i :: 0 <= i < |s| ==>
           s[i].positionResourceId in PositionResourceIds(SeededPositionResources(firstPosition))
  {
    var s := SeededToolLanguageResources(seed, first, firstPosition);
    assert forall i :: 0 <= i < |s| ==> s[i].positionResourceId == firstPosition + RoleOfRow(i);
    GroupedCounts(s, firstPosition);
    var roles := PositionResourceIds(SeededPositionResources(firstPosition));
    assert roles[0] == firstPosition && roles[1] == firstPosition + 1 && roles[2] == firstPosition + 2;
  }

  /** Nineteen rows in groups of 5, 8 and 6 under three consecutive roles count 5, 8 and 6 under them. */
  lemma GroupedCounts(s: seq<ToolLanguageResource>, firstPosition: int)
    requires |s| == 19
    requires forall i :: 0 <= i < |s| ==> s[i].positionResourceId == firstPosition + RoleOfRow(i)
    ensures CountUnder(s, firstPosition) == 5
    ensures CountUnder(s, firstPosition + 1) == 8
    ensures CountUnder(s, firstPosition + 2) == 6
  {
    var frontend, backend, designer := s[..5], s[5..13], s[13..];
    assert s == frontend + backend + designer;
    assert forall i :: 0 <= i < |frontend| ==> frontend[i] == s[i];
    assert forall i :: 0 <= i < |backend| ==> backend[i] == s[i + 5];
    assert forall i :: 0 <= i < |designer| ==> designer[i] == s[i + 13];
    CountPerRole(frontend, backend, designer, firstPosition, firstPosition);
    CountPerRole(frontend, backend, designer, firstPosition, firstPosition + 1);
    CountPerRole(frontend, backend, designer, firstPosition, firstPosition + 2);
  }

  /** How many rows of three role groups, one after another, count under one role. */
  lemma CountPerRole(
    frontend: seq<ToolLanguageResource>, backend: seq<ToolLanguageResource>, designer: seq<ToolLanguageResource>,
    firstPosition: int, id: int)
    requires forall i :: 0 <= i < |frontend| ==> frontend[i].positionResourceId == firstPosition
    requires forall i :: 0 <= i < |backend| ==> backend[i].positionResourceId == firstPosition + 1
    requires forall i :: 0 <= i < |designer| ==> designer[i].positionResourceId == firstPosition + 2
    ensures CountUnder(frontend + backend + designer, id)
         == (if id == firstPosition then |frontend| else 0)
            + (if id == firstPosition + 1 then |backend| else 0)
            + (if id == firstPosition + 2 then |designer| else 0)
  {
    CountUnderAppend(frontend + backend, designer, id);
    CountUnderAppend(frontend, backend, id);
    CountUnderUniform(frontend, firstPosition, id);
    CountUnderUniform(backend, firstPosition + 1, id);
    CountUnderUniform(designer, firstPosition + 2, id);
  }

  /** Seeding an empty role table (hence an empty tool table) keeps the database valid. */
  lemma SeedingKeepsStoreValid(
    employees: seq<Employee>, seed: seq<(string, nat)>, firstRole: int, firstTool: int, nextEmployeeId: int)
    requires SeedGrouped(seed)
    requires StoreValid(employees, [], [], nextEmployeeId, firstRole, firstTool)
    ensures StoreValid(employees, SeededPositionResources(firstRole), SeededToolLanguageResources(seed, firstTool, firstRole),
                       nextEmployeeId, firstRole + 3, firstTool + 19)
  {
    var roles := SeededPositionResources(firstRole);
    var tools := SeededToolLanguageResources(seed, firstTool, firstRole);
    forall k | 0 <= k < |employees|
      ensures EmployeeValid(employees[k], PositionResourceIds(roles), ToolLanguageResourceIds(tools))
    {
      ReferencesResolveGrow(employees[k], PositionResourceIds([]), ToolLanguageResourceIds([]),
        PositionResourceIds(roles), ToolLanguageResourceIds(tools));
    }
    SeededToolsPerRole(seed, firstTool, firstRole);
  }

  /** The first half of seeding: the three roles, numbered by the identity column and saved. */
  method AddPositionResources(context: EmployeeContext)
    modifies context
    ensures context.positionResources
         == old(context.positionResources) + SeededPositionResources(old(context.nextPositionResourceId))
    ensures context.nextPositionResourceId == old(context.nextPositionResourceId) + |PositionNames|
    ensures context.employees == old(context.employees)
    ensures context.toolLanguageResources == old(context.toolLanguageResources)
    ensures context.nextEmployeeId == old(context.nextEmployeeId)
    ensures context.nextToolLanguageResourceId == old(context.nextToolLanguageResourceId)
  {
    ghost var firstRole := context.nextPositionResourceId;
    var i := 0;
    while i < |PositionNames|
      invariant 0 <= i <= |PositionNames|
      invariant context.positionResources == old(context.positionResources) + SeededPositionResources(firstRole)[..i]
      invariant context.nextPositionResourceId == firstRole + i
      invariant context.employees == old(context.employees)
      invariant context.toolLanguageResources == old(context.toolLanguageResources)
      invariant context.nextEmployeeId == old(context.nextEmployeeId)
      invariant context.nextToolLanguageResourceId == old(context.nextToolLanguageResourceId)
    {
      assert SeededPositionResources(firstRole)[..i + 1]
          == SeededPositionResources(firstRole)[..i] + [PositionResource(firstRole + i, PositionNames[i])];
      context.positionResources := context.positionResources
        + [PositionResource(context.nextPositionResourceId, PositionNames[i])];
      context.nextPositionResourceId := context.nextPositionResourceId + 1;
      i := i + 1;
    }
    assert SeededPositionResources(firstRole)[..i] == SeededPositionResources(firstRole);
  }

  /**
    The second half of seeding: one tool row per entry of `seed`, each pointing at the saved key
    of its role among `roles`, numbered by the identity column and saved.
  */
  method AddToolLanguageResources(
    context: EmployeeContext, seed: seq<(string, nat)>, roles: seq<PositionResource>, ghost firstRole: int)
    requires SeedGrouped(seed) && roles == SeededPositionResources(firstRole)
    modifies context
    ensures context.toolLanguageResources
         == old(context.toolLanguageResources)
            + SeededToolLanguageResources(seed, old(context.nextToolLanguageResourceId), firstRole)
    ensures context.nextToolLanguageResourceId == old(context.nextToolLanguageResourceId) + |seed|
    ensures context.employees == old(context.employees)
    ensures context.positionResources == old(context.positionResources)
    ensures context.nextEmployeeId == old(context.nextEmployeeId)
    ensures context.nextPositionResourceId == old(context.nextPositionResourceId)
  {
    ghost var firstTool := context.nextToolLanguageResourceId;
    ghost var seeded := SeededToolLanguageResources(seed, firstTool, firstRole);
    var j := 0;
    while j < |seed|
      invariant 0 <= j <= |seed|
      invariant context.toolLanguageResources == old(context.toolLanguageResources) + seeded[..j]
      invariant context.nextToolLanguageResourceId == firstTool + j
      invariant context.employees == old(context.employees)
      invariant context.positionResources == old(context.positionResources)
      invariant context.nextEmployeeId == old(context.nextEmployeeId)
      invariant context.nextPositionResourceId == old(context.nextPositionResourceId)
    {
      var (name, role) := seed[j];
      assert seeded[..j + 1] == seeded[..j] + [ToolLanguageResource(firstTool + j, name, firstRole + role)];
      context.toolLanguageResources := context.toolLanguageResources
        + [ToolLanguageResource(context.nextToolLanguageResourceId, name, roles[role].positionResourceId)];
      context.nextToolLanguageResourceId := context.nextToolLanguageResourceId + 1;
      j := j + 1;
    }
    assert seeded[..j] == seeded;
  }

  /**
    DbInitializer.Initialize: when the role table is empty, insert the three roles, save (which
    numbers them), then insert the nineteen tools pointing at the saved roles' keys, and save.
    A second run finds the role table non-empty and changes nothing.
  */
  method Initialize(context: EmployeeContext)
    requires context.Valid()
    modifies context
    ensures context.Valid()
    ensures context.positionResources != []
    ensures old(context.positionResources) != [] ==> unchanged(context)
    ensures old(context.positionResources) == [] ==>
      && context.positionResources == SeededPositionResources(old(context.nextPositionResourceId))
      && context.toolLanguageResources
           == SeededToolLanguageResources(ToolLanguageSeed, old(context.nextToolLanguageResourceId),
                                          old(context.nextPositionResourceId))
      && context.employees == old(context.employees)
      && context.nextEmployeeId == old(context.nextEmployeeId)
      && context.nextPositionResourceId == old(context.nextPositionResourceId) + |PositionNames|
      && context.nextToolLanguageResourceId == old(context.nextToolLanguageResourceId) + |ToolLanguageSeed|
  {
    if context.positionResources != [] {
      return;
    }
    ghost var firstRole := context.nextPositionResourceId;
    ghost var firstTool := context.nextToolLanguageResourceId;
    ToolLanguageSeedGrouped();
    SeedingKeepsStoreValid(context.employees, ToolLanguageSeed, firstRole, firstTool, context.nextEmployeeId);
    AddPositionResources(context);
    assert [] + SeededPositionResources(firstRole) == SeededPositionResources(firstRole);
    AddToolLanguageResources(context, ToolLanguageSeed, context.positionResources, firstRole);
    assert [] + SeededToolLanguageResources(ToolLanguageSeed, firstTool, firstRole)
        == SeededToolLanguageResources(ToolLanguageSeed, firstTool, firstRole);
  }
}
