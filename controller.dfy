/**
  The employees controller: list, read, create, update and delete, each as one request against
  the database context. Model validation runs before every action that takes an EmployeeDto;
  commits are atomic, and an exception anywhere before or during one leaves the store as it was.
*/
module Controllers {
  import opened Common
  import opened Lookup
  import opened Models
  import opened Dtos
  import opened ToolLanguageLevel
  import opened PositionLevel
  import opened Creation
  import opened Listing

  /** The HTTP outcomes of the actions; BadRequest carries the validation messages (none for a bad id). */
  datatype Status = Ok | Created | NoContent | BadRequest(errors: seq<string>) | NotFound | InternalServerError

  /** The list without the stored employee at `k`. */
  function Without(employees: seq<Employee>, k: nat): (r: seq<Employee>)
    requires k < |employees|
    ensures |r| == |employees| - 1
  {
    employees[..k] + employees[k + 1..]
  }

  /** Deleting the employee stored under a key, when keys are distinct, removes exactly the employee with that key. */
  lemma WithoutRemovesKey(employees: seq<Employee>, k: nat)
    requires k < |employees| && Distinct(EmployeeIds(employees))
    ensures forall e :: e in Without(employees, k) <==> e in employees && e.employeeId != employees[k].employeeId
  {
    var r := Without(employees, k);
    assert forall i :: 0 <= i < |r| ==> r[i] == employees[if i < k then i else i + 1];
    forall e | e in employees && e.employeeId != employees[k].employeeId ensures e in r {
      var i :| 0 <= i < |employees| && employees[i] == e;
      assert r[if i < k then i else i - 1] == e;
    }
    forall e | e in r ensures e.employeeId != employees[k].employeeId {
      var i :| 0 <= i < |r| && r[i] == e;
      var i' := if i < k then i else i + 1;
      assert EmployeeIds(employees)[i'] != EmployeeIds(employees)[k];
    }
  }

  /**
    PutEmployee's two passes over one employee: the name copied, positions merged, then pruned.
    `ok` is false when either pass throws (a missing upload, a null image list).
  */
  method ReconcileEmployee(employee: Employee, dto: EmployeeDto) returns (ok: bool, updated: Employee)
    ensures ok <==> ReconcileSucceeds(employee, dto)
    ensures ok ==> updated == Reconciled(employee, dto)
  {
    var merged;
    ok, merged := MergePositions(employee.positions, dto.positions, employee.employeeId);
    if !ok {
      return false, employee;
    }
    var positions;
    ok, positions := PrunePositions(merged, dto.positions);
    if !ok {
      return false, employee;
    }
    updated := employee.(name := dto.name, positions := positions);
  }

  /**
    What one PUT answers and what the employee list becomes: validation first, then the id
    check, the lookup, the reconciliation (which throws on a missing upload or a null image
    list), the database's foreign-key check at commit, and the concurrency outcome.
  */
  function PutOutcome(
    employees: seq<Employee>, positionResourceIds: seq<int>, toolLanguageResourceIds: seq<int>,
    id: int, dto: EmployeeDto, conflict: Option<bool>): (Status, seq<Employee>)
  {
    if EmployeeErrors(dto) != [] then (BadRequest(EmployeeErrors(dto)), employees)
    else if id <= 0 then (BadRequest([]), employees)
    else
      match FirstIndex(EmployeeIds(employees), id)
      case None => (NotFound, employees)
      case Some(k) =>
        if !ReconcileSucceeds(employees[k], dto) then (InternalServerError, employees)
        else
          var updated := Reconciled(employees[k], dto);
          if !ReferencesResolve(updated, positionResourceIds, toolLanguageResourceIds) then (InternalServerError, employees)
          else
            match conflict
            case Some(true) => (InternalServerError, employees)
            case Some(false) => (NotFound, Without(employees, k))
            case None => (NoContent, employees[k := updated])
  }

  /**
    The steps of PutEmployee on the employee list: validation, the id check, the lookup, the
    reconciliation, the foreign-key check at commit and the concurrency outcome.
  */
  method PutEmployees(
    employees: seq<Employee>, positionResourceIds: seq<int>, toolLanguageResourceIds: seq<int>,
    id: int, dto: EmployeeDto, conflict: Option<bool>) returns (status: Status, after: seq<Employee>)
    ensures (status, after) == PutOutcome(employees, positionResourceIds, toolLanguageResourceIds, id, dto, conflict)
  {
    after := employees;
    var errs := EmployeeErrors(dto);
    if errs != [] {
      return BadRequest(errs), after;
    }
    if id <= 0 {
      return BadRequest([]), after;
    }
    var found := FirstIndex(EmployeeIds(employees), id);
    if found.None? {
      return NotFound, after;
    }
    var k := found.value;
    var ok, updated := ReconcileEmployee(employees[k], dto);
    if !ok || !ReferencesResolve(updated, positionResourceIds, toolLanguageResourceIds) {
      return InternalServerError, after;
    }
    match conflict {
      case Some(stillExists) =>
        if stillExists {
          return InternalServerError, after;
        }
        return NotFound, Without(employees, k);
      case None =>
        return NoContent, employees[k := updated];
    }
  }

  /**
    A PUT changes the employee list only when it answers NoContent (the update) or NotFound
    after a concurrent delete; a rejected request, a missing employee and every error leave
    it as it was.
  */
  lemma PutChangesOnlyOnCommit(
    employees: seq<Employee>, positionResourceIds: seq<int>, toolLanguageResourceIds: seq<int>,
    id: int, dto: EmployeeDto, conflict: Option<bool>)
    ensures var (status, after) := PutOutcome(employees, positionResourceIds, toolLanguageResourceIds, id, dto, conflict);
      && (!EmployeeDtoValid(dto) ==> status.BadRequest? && status.errors != [])
      && (EmployeeDtoValid(dto) && id <= 0 ==> status == BadRequest([]))
      && (EmployeeDtoValid(dto) && 0 < id && id !in EmployeeIds(employees) ==> status == NotFound)
      && (after != employees ==> status == NoContent || (status == NotFound && conflict == Some(false)))
  {
  }

  /**
    A PUT answers NoContent exactly when the DTO is valid, the id is positive and stored, both
    passes run to the end, the reconciled tree's lookup references resolve and no conflict is
    reported.
  */
  lemma PutSucceedsIff(
    employees: seq<Employee>, positionResourceIds: seq<int>, toolLanguageResourceIds: seq<int>,
    id: int, dto: EmployeeDto, conflict: Option<bool>)
    ensures PutOutcome(employees, positionResourceIds, toolLanguageResourceIds, id, dto, conflict).0 == NoContent <==>
      && EmployeeDtoValid(dto) && 0 < id && id in EmployeeIds(employees)
      && ReconcileSucceeds(employees[FirstIndex(EmployeeIds(employees), id).value], dto)
      && conflict.None?
      && ReferencesResolve(Reconciled(employees[FirstIndex(EmployeeIds(employees), id).value], dto),
                           positionResourceIds, toolLanguageResourceIds)
  {
    var status := PutOutcome(employees, positionResourceIds, toolLanguageResourceIds, id, dto, conflict).0;
    var found := FirstIndex(EmployeeIds(employees), id);
    if EmployeeErrors(dto) != [] {
      assert status == BadRequest(EmployeeErrors(dto));
    } else if id <= 0 {
      assert status == BadRequest([]);
    } else if found.None? {
      assert status == NotFound;
    } else {
      var k := found.value;
      assert status == NoContent <==>
        ReconcileSucceeds(employees[k], dto) && conflict.None?
        && ReferencesResolve(Reconciled(employees[k], dto), positionResourceIds, toolLanguageResourceIds);
    }
  }

  /**
    For stored employees (every image list present), the condition on both passes in request
    terms: every upload is there and every position DTO that creates a position lists its tool
    languages under distinct keys.
  */
  lemma PutOnStoredSucceedsIff(
    employees: seq<Employee>, positionResourceIds: seq<int>, toolLanguageResourceIds: seq<int>,
    id: int, dto: EmployeeDto, conflict: Option<bool>)
    requires forall i :: 0 <= i < |employees| ==> ImagesLoaded(employees[i].positions)
    ensures PutOutcome(employees, positionResourceIds, toolLanguageResourceIds, id, dto, conflict).0 == NoContent <==>
      && EmployeeDtoValid(dto) && 0 < id && id in EmployeeIds(employees)
      && PositionsHaveData(dto.positions)
      && NewToolLanguageKeysDistinct(employees[FirstIndex(EmployeeIds(employees), id).value].positions, dto.positions)
      && conflict.None?
      && ReferencesResolve(Reconciled(employees[FirstIndex(EmployeeIds(employees), id).value], dto),
                           positionResourceIds, toolLanguageResourceIds)
  {
    PutSucceedsIff(employees, positionResourceIds, toolLanguageResourceIds, id, dto, conflict);
    if id in EmployeeIds(employees) {
      ReconcileSucceedsIff(employees[FirstIndex(EmployeeIds(employees), id).value], dto);
    }
  }

  /**
    When a PUT answers NoContent, the employee with that key, and only it, is replaced by its
    reconciliation: the DTO's name and, by key, exactly the DTO's positions.
  */
  lemma PutUpdatesOnlyTarget(
    employees: seq<Employee>, positionResourceIds: seq<int>, toolLanguageResourceIds: seq<int>,
    id: int, dto: EmployeeDto, conflict: Option<bool>)
    requires PutOutcome(employees, positionResourceIds, toolLanguageResourceIds, id, dto, conflict).0 == NoContent
    ensures var after := PutOutcome(employees, positionResourceIds, toolLanguageResourceIds, id, dto, conflict).1;
      var k := FirstIndex(EmployeeIds(employees), id).value;
      && id in EmployeeIds(employees)
      && |after| == |employees|
      && (forall j :: 0 <= j < |employees| && employees[j].employeeId != id ==> after[j] == employees[j])
      && after[k] == Reconciled(employees[k], dto)
      && after[k].employeeId == id && after[k].name == dto.name
      && forall x :: x in PositionIds(after[k].positions) <==> x in PositionDtoIds(dto.positions)
  {
    var k := FirstIndex(EmployeeIds(employees), id).value;
    var after := PutOutcome(employees, positionResourceIds, toolLanguageResourceIds, id, dto, conflict).1;
    assert after == employees[k := Reconciled(employees[k], dto)];
    forall j | 0 <= j < |employees| && employees[j].employeeId != id ensures after[j] == employees[j] {
      assert EmployeeIds(employees)[j] != id;
    }
    forall x ensures x in PositionIds(after[k].positions) <==> x in PositionDtoIds(dto.positions) {
      ReconciledPositionIds(employees[k], dto, x);
    }
  }

  /** Every outcome of a PUT leaves a valid store valid (the lookup tables and sequences are untouched). */
  lemma PutKeepsStoreValid(
    employees: seq<Employee>, positionResources: seq<PositionResource>,
    toolLanguageResources: seq<ToolLanguageResource>,
    nextEmployeeId: int, nextPositionResourceId: int, nextToolLanguageResourceId: int,
    id: int, dto: EmployeeDto, conflict: Option<bool>)
    requires StoreValid(employees, positionResources, toolLanguageResources,
                        nextEmployeeId, nextPositionResourceId, nextToolLanguageResourceId)
    ensures var after := PutOutcome(employees, PositionResourceIds(positionResources),
                                    ToolLanguageResourceIds(toolLanguageResources), id, dto, conflict).1;
      StoreValid(after, positionResources, toolLanguageResources,
                 nextEmployeeId, nextPositionResourceId, nextToolLanguageResourceId)
  {
    var (status, after) := PutOutcome(employees, PositionResourceIds(positionResources),
                                      ToolLanguageResourceIds(toolLanguageResources), id, dto, conflict);
    if after != employees {
      var k := FirstIndex(EmployeeIds(employees), id).value;
      if status == NoContent {
        assert after == employees[k := Reconciled(employees[k], dto)];
        ReconciledParentKeyed(employees[k], dto);
        ReconciledRangesOrdered(employees[k], dto);
        ReconciledImagesLoaded(employees[k], dto);
        StoreValidReplace(employees, positionResources, toolLanguageResources,
                          nextEmployeeId, nextPositionResourceId, nextToolLanguageResourceId,
                          k, Reconciled(employees[k], dto));
      } else {
        assert after == Without(employees, k);
        StoreValidRemove(employees, positionResources, toolLanguageResources,
                         nextEmployeeId, nextPositionResourceId, nextToolLanguageResourceId, k);
      }
    }
  }

  class EmployeesController {
    const context: EmployeeContext

    constructor (context: EmployeeContext)
      ensures this.context == context
    {
      this.context := context;
    }

    /**
      GET api/Employees without a search term: every employee, highest experience first, one
      page of them when both paging parameters are given. A negative Skip or Take argument is
      refused by the database: a server error.
    */
    method GetEmployees(pageNumber: Option<int>, pageSize: Option<int>) returns (status: Status, body: seq<Employee>)
      requires pageNumber.Some? ==> IsInt32(pageNumber.value)
      requires pageSize.Some? ==> IsInt32(pageSize.value)
      ensures status == Ok || status == InternalServerError
      ensures status == InternalServerError <==>
        pageNumber.Some? && pageSize.Some? && (SkipCount(pageNumber.value, pageSize.value) < 0 || pageSize.value < 0)
      ensures status == Ok ==> DescendingByExperience(body)
      ensures status == Ok && (pageNumber.None? || pageSize.None?) ==> multiset(body) == multiset(context.employees)
      ensures status == Ok && pageNumber.Some? && pageSize.Some? ==>
        var ordered := SortByExperience(context.employees);
        var skip := SkipCount(pageNumber.value, pageSize.value);
        && |body| <= pageSize.value
        && |body| == PageLength(|context.employees|, skip, pageSize.value)
        && (forall k :: 0 <= k < |body| ==> skip + k < |ordered| && body[k] == ordered[skip + k])
        && body == Page(ordered, skip, pageSize.value).value
    {
      var ordered := SortByExperience(context.employees);
      SortByExperienceOrdered(context.employees);
      assert |ordered| == |multiset(ordered)| == |multiset(context.employees)| == |context.employees|;
      if pageNumber.Some? && pageSize.Some? {
        var page := Page(ordered, SkipCount(pageNumber.value, pageSize.value), pageSize.value);
        if page.None? {
          return InternalServerError, [];
        }
        PageOrdered(ordered, SkipCount(pageNumber.value, pageSize.value), pageSize.value);
        body := page.value;
      } else {
        body := ordered;
      }
      status := Ok;
    }

    /** GET api/Employees/{id}: the employee with that key, with its whole tree, or NotFound. */
    method GetEmployee(id: int) returns (status: Status, body: Option<Employee>)
      ensures status == Ok || status == NotFound
      ensures status == Ok <==> id in EmployeeIds(context.employees)
      ensures status == Ok ==> body.Some? && body.value in context.employees && body.value.employeeId == id
      ensures status == NotFound ==> body.None?
    {
      match FirstIndex(EmployeeIds(context.employees), id) {
        case None =>
          return NotFound, None;
        case Some(k) =>
          return Ok, Some(context.employees[k]);
      }
    }

    /**
      POST api/Employees: a valid DTO becomes a new employee under the next key of the identity
      sequence. Each tool language's images are looked up in the request by key; a lookup that
      finds nothing, or an image DTO without an upload, throws before anything is saved. A tree
      naming a lookup row that does not exist is refused by the database after the key was drawn.
    */
    method PostEmployee(dto: EmployeeDto) returns (status: Status, created: Option<Employee>)
      requires context.Valid()
      modifies context
      ensures context.Valid()
      ensures EmployeeErrors(dto) != [] ==> status == BadRequest(EmployeeErrors(dto)) && unchanged(context)
      ensures status == Created <==>
        && EmployeeDtoValid(dto) && PostSourcesReadable(dto)
        && ReferencesResolve(PostedEmployee(dto, old(context.nextEmployeeId)),
                             PositionResourceIds(old(context.positionResources)),
                             ToolLanguageResourceIds(old(context.toolLanguageResources)))
      ensures status == Created ==>
        && created == Some(PostedEmployee(dto, old(context.nextEmployeeId)))
        && context.employees == old(context.employees) + [created.value]
        && context.nextEmployeeId == old(context.nextEmployeeId) + 1
      ensures EmployeeDtoValid(dto) && !PostSourcesReadable(dto) ==>
        status == InternalServerError && unchanged(context)
      ensures EmployeeDtoValid(dto) && PostSourcesReadable(dto)
              && !ReferencesResolve(PostedEmployee(dto, old(context.nextEmployeeId)),
                                    PositionResourceIds(old(context.positionResources)),
                                    ToolLanguageResourceIds(old(context.toolLanguageResources))) ==>
        status == InternalServerError && context.nextEmployeeId == old(context.nextEmployeeId) + 1
      ensures status != Created ==> context.employees == old(context.employees) && created.None?
      ensures context.positionResources == old(context.positionResources)
      ensures context.toolLanguageResources == old(context.toolLanguageResources)
      ensures context.nextPositionResourceId == old(context.nextPositionResourceId)
      ensures context.nextToolLanguageResourceId == old(context.nextToolLanguageResourceId)
    {
      var errs := EmployeeErrors(dto);
      if errs != [] {
        return BadRequest(errs), None;
      }
      var ok, e := BuildEmployee(dto, context.nextEmployeeId);
      if !ok {
        return InternalServerError, None;
      }
      var positionResourceIds := PositionResourceIds(context.positionResources);
      var toolLanguageResourceIds := ToolLanguageResourceIds(context.toolLanguageResources);
      if !ReferencesResolve(e, positionResourceIds, toolLanguageResourceIds) {
        StoreValidAdvance(context.employees, context.positionResources, context.toolLanguageResources,
                          context.nextEmployeeId, context.nextPositionResourceId, context.nextToolLanguageResourceId);
        context.nextEmployeeId := context.nextEmployeeId + 1;
        return InternalServerError, None;
      }
      PostedParentKeyed(dto, context.nextEmployeeId);
      PostedRangesOrdered(dto, context.nextEmployeeId);
      StoreValidAppend(context.employees, context.positionResources, context.toolLanguageResources,
                       context.nextEmployeeId, context.nextPositionResourceId, context.nextToolLanguageResourceId, e);
      context.employees := context.employees + [e];
      context.nextEmployeeId := context.nextEmployeeId + 1;
      return Created, Some(e);
    }

    /**
      PUT api/Employees/{id}: reconcile the stored employee with the DTO and commit.
      `conflict` is what the database reports at commit: None when the commit goes through,
      Some(stillExists) when another request changed rows under it, where `stillExists` is the
      answer of the follow-up query for the employee (a concurrent delete makes it false).
    */
    method PutEmployee(id: int, dto: EmployeeDto, conflict: Option<bool>) returns (status: Status)
      requires context.Valid()
      modifies context
      ensures context.Valid()
      ensures (status, context.employees)
              == PutOutcome(old(context.employees), PositionResourceIds(old(context.positionResources)),
                            ToolLanguageResourceIds(old(context.toolLanguageResources)), id, dto, conflict)
      ensures context.positionResources == old(context.positionResources)
      ensures context.toolLanguageResources == old(context.toolLanguageResources)
      ensures context.nextEmployeeId == old(context.nextEmployeeId)
      ensures context.nextPositionResourceId == old(context.nextPositionResourceId)
      ensures context.nextToolLanguageResourceId == old(context.nextToolLanguageResourceId)
    {
      var employees := context.employees;
      PutKeepsStoreValid(employees, context.positionResources, context.toolLanguageResources,
                         context.nextEmployeeId, context.nextPositionResourceId, context.nextToolLanguageResourceId,
                         id, dto, conflict);
      status, employees := PutEmployees(employees, PositionResourceIds(context.positionResources),
                                        ToolLanguageResourceIds(context.toolLanguageResources), id, dto, conflict);
      context.employees := employees;
    }

    /** DELETE api/Employees/{id}: remove the employee with that key and, by cascade, its whole tree. */
    method DeleteEmployee(id: int) returns (status: Status)
      requires context.Valid()
      modifies context
      ensures context.Valid()
      ensures status == NoContent || status == NotFound
      ensures status == NoContent <==> id in EmployeeIds(old(context.employees))
      ensures status == NotFound ==> unchanged(context)
      ensures status == NoContent ==>
        && context.employees == Without(old(context.employees), FirstIndex(EmployeeIds(old(context.employees)), id).value)
        && forall e :: e in context.employees <==> e in old(context.employees) && e.employeeId != id
      ensures context.positionResources == old(context.positionResources)
      ensures context.toolLanguageResources == old(context.toolLanguageResources)
      ensures context.nextEmployeeId == old(context.nextEmployeeId)
      ensures context.nextPositionResourceId == old(context.nextPositionResourceId)
      ensures context.nextToolLanguageResourceId == old(context.nextToolLanguageResourceId)
    {
      var found := FirstIndex(EmployeeIds(context.employees), id);
      if found.None? {
        return NotFound;
      }
      var k := found.value;
      WithoutRemovesKey(context.employees, k);
      StoreValidRemove(context.employees, context.positionResources, context.toolLanguageResources,
                       context.nextEmployeeId, context.nextPositionResourceId, context.nextToolLanguageResourceId, k);
      context.employees := Without(context.employees, k);
      return NoContent;
    }
  }
}
