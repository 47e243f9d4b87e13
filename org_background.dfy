/** OrgBulkUploadBackgroundJobActor: one background pass over the tasks of an
    organisation upload. Every task that is neither COMPLETED nor without status is
    processed once: its status word is normalised, an organisation is created (no id in
    the row) or updated (an id in the row), the location names of a completed task are
    merged into its success result, and the task gets a new iteration id and
    last-updated time. Every exception inside the processing of one task is caught and
    logged; the task keeps whatever state it had reached. The downstream services are
    oracles gathered in Services, and every call made to them is returned in order. */
module OrgBackground {
  import opened Wrappers
  import opened Text
  import opened BulkCommon
  import opened BulkStore

  // JsonKey constants
  const ID: string := "id"
  const CREATE: string := "create"
  const UPDATE: string := "update"

  /** A call made to a downstream service. */
  datatype Call =
    | CreateOrg(row: Record)
    | UpdateOrg(row: Record)
    | GetLocationByCode(code: string)

  /** The collaborators of the background pass, as functions of their arguments.
      - mandatoryColumns: the "csv.mandatoryColumns" system setting, or null; one answer
        for the whole pass, which never throws and is not recorded among the calls.
      - mandatoryFailure: validateMandatoryFields, which is not part of this model: the
        failure result it records when it marks the task FAILED, or None.
      - organisationRow: convertValue of the record into an Organisation and back into a
        map, with the organisation type translated through OrgTypeEnum; it may throw.
      - createOrg: the new organisation's id (possibly null or empty), or an exception.
      - updateOrg: None, or the exception the update throws.
      - locationName: the name of the location with a code; None for a null location.
      - failureRecord: the failure result setTaskStatus records for a row, a message and
        an action; setTaskStatus is not part of this model. */
  datatype Services = Services(
    mandatoryColumns: Option<seq<string>>,
    mandatoryFailure: (Record, seq<string>) -> Option<Record>,
    organisationRow: Record -> Attempt<Record>,
    createOrg: Record -> Attempt<Option<string>>,
    updateOrg: Record -> Option<Error>,
    locationName: string -> Attempt<Option<string>>,
    failureRecord: (Record, string, string) -> Record)

  /** A task after a step, with the downstream calls the step made. */
  datatype Outcome = Outcome(task: TaskRecord, calls: seq<Call>)

  /** Only the status, the data and the two results differ between the tasks. */
  predicate SameIdentity(a: TaskRecord, b: TaskRecord)
  {
    && a.processId == b.processId && a.sequenceId == b.sequenceId
    && a.iterationId == b.iterationId && a.lastUpdatedOn == b.lastUpdatedOn
  }

  /** setTaskStatus(task, FAILED, message, row, action). */
  function Failed(t: TaskRecord, failure: Record): TaskRecord
  {
    t.(status := Some(FAILED), failureResult := Some(failure))
  }

  /** setSuccessTaskStatus(task, COMPLETED, row, action): the row is the success result. */
  function Completed(t: TaskRecord, row: Record): TaskRecord
  {
    t.(status := Some(COMPLETED), successResult := Some(row))
  }

  // ---------------------------------------------------------------------------
  // getOrgStatus

  /** getOrgStatus: the org status the record's status word stands for, and the record
      with the status word removed when it was recognised. A status that is not a string
      makes the (String) cast throw. */
  function GetOrgStatus(orgMap: Record): (r: Attempt<(int, Record)>)
    ensures Get(orgMap, STATUS) == Null || Get(orgMap, STATUS) == Str("") ==> r == Ok((ACTIVE, orgMap))
    ensures Get(orgMap, STATUS).Str? && Get(orgMap, STATUS).s != "" ==>
      && r.Ok?
      && (EqualsIgnoreCase(Get(orgMap, STATUS).s, INACTIVE_WORD) ==> r.value == (INACTIVE, orgMap - {STATUS}))
      && (EqualsIgnoreCase(Get(orgMap, STATUS).s, ACTIVE_WORD) ==> r.value == (ACTIVE, orgMap - {STATUS}))
      && (!EqualsIgnoreCase(Get(orgMap, STATUS).s, INACTIVE_WORD) && !EqualsIgnoreCase(Get(orgMap, STATUS).s, ACTIVE_WORD) ==> r.value == (-1, orgMap))
    ensures r.Threw? <==> !(Get(orgMap, STATUS).Null? || Get(orgMap, STATUS).Str?)
  {
    match Get(orgMap, STATUS)
    case Null => Ok((ACTIVE, orgMap))
    case Str(s) =>
      if s == "" then Ok((ACTIVE, orgMap))
      else if EqualsIgnoreCase(s, INACTIVE_WORD) then Ok((INACTIVE, orgMap - {STATUS}))
      else if EqualsIgnoreCase(s, ACTIVE_WORD) then Ok((ACTIVE, orgMap - {STATUS}))
      else Ok((-1, orgMap))
    case _ => Threw(Unexpected(CLASS_CAST))
  }

  /** The status words are already lower-case. */
  lemma StatusWordsLowerCase()
    ensures Lower(INACTIVE_WORD) == INACTIVE_WORD && Lower(ACTIVE_WORD) == ACTIVE_WORD
  {
    LowerMeaning(INACTIVE_WORD);
    LowerMeaning(ACTIVE_WORD);
  }

  /** The status word is matched without regard to case: two words that lower-case alike
      give the same org status and leave the same record behind. */
  lemma OrgStatusIgnoresCase(orgMap: Record, s1: string, s2: string)
    requires Lower(s1) == Lower(s2)
    ensures var r1, r2 := GetOrgStatus(orgMap[STATUS := Str(s1)]), GetOrgStatus(orgMap[STATUS := Str(s2)]);
      && r1.Ok? && r2.Ok? && r1.value.0 == r2.value.0
      && (s1 == "" ==> r1 == r2)
      && (s1 != "" && r1.value.0 != -1 ==> r1.value.1 == r2.value.1 == orgMap - {STATUS})
  {
    assert |s1| == |Lower(s1)| == |s2|;
    var m1, m2 := orgMap[STATUS := Str(s1)], orgMap[STATUS := Str(s2)];
    assert Get(m1, STATUS) == Str(s1) && Get(m2, STATUS) == Str(s2);
    if s1 != "" {
      assert EqualsIgnoreCase(s1, INACTIVE_WORD) <==> EqualsIgnoreCase(s2, INACTIVE_WORD);
      assert EqualsIgnoreCase(s1, ACTIVE_WORD) <==> EqualsIgnoreCase(s2, ACTIVE_WORD);
      assert m1 - {STATUS} == orgMap - {STATUS} == m2 - {STATUS};
    }
  }

  /** A recognised status is ACTIVE or INACTIVE; -1 comes exactly from a non-empty status
      word that is neither "active" nor "inactive" in any case, and leaves the record
      as it was. */
  lemma OrgStatusValues(orgMap: Record)
    requires GetOrgStatus(orgMap).Ok?
    ensures var (status, rest) := GetOrgStatus(orgMap).value;
      && (status == ACTIVE || status == INACTIVE || status == -1)
      && (status == -1 <==>
            Get(orgMap, STATUS).Str? && Get(orgMap, STATUS).s != ""
            && Lower(Get(orgMap, STATUS).s) != INACTIVE_WORD && Lower(Get(orgMap, STATUS).s) != ACTIVE_WORD)
      && (status == -1 ==> rest == orgMap)
      && (status != -1 ==>
            rest == if Get(orgMap, STATUS).Str? && Get(orgMap, STATUS).s != "" then orgMap - {STATUS} else orgMap)
  {
    StatusWordsLowerCase();
    match Get(orgMap, STATUS)
    case Str(s) =>
      if s != "" {
        assert EqualsIgnoreCase(s, INACTIVE_WORD) <==> Lower(s) == INACTIVE_WORD;
        assert EqualsIgnoreCase(s, ACTIVE_WORD) <==> Lower(s) == ACTIVE_WORD;
      }
    case _ =>
  }

  // ---------------------------------------------------------------------------
  // The record as processOrg prepares it

  /** The location codes: a single string, a list, or null; anything else makes the
      (List) cast throw. */
  function LocationCodes(v: Value): Attempt<Option<seq<string>>>
  {
    match v
    case Str(s) => Ok(Some([s]))
    case Strs(items) => Ok(Some(items))
    case Null => Ok(None)
    case Num(_) => Threw(Unexpected(CLASS_CAST))
  }

  function CodesValue(codes: Option<seq<string>>): Value
  {
    if codes.Some? then Strs(codes.value) else Null
  }

  function IdValue(id: Option<string>): Value
  {
    if id.Some? then Str(id.value) else Null
  }

  /** StringUtils.isEmpty on the organisation id. */
  predicate IsEmptyId(id: Option<string>)
  {
    id.None? || id.value == ""
  }

  /** What processOrg has computed before it branches: the status word was not valid, or
      the location codes, the Organisation (as a map, with status and id set) and its id. */
  datatype Prepared =
    | InvalidStatus
    | Ready(codes: Option<seq<string>>, org: Record, id: Option<string>)

  /** The steps of processOrg before the branch, in their order; any of them may throw. */
  function Prepare(data: Record, svc: Services): Attempt<Prepared>
  {
    match GetOrgStatus(data)
    case Threw(e) => Threw(e)
    case Ok((status, orgMap)) =>
      if status == -1 then Ok(InvalidStatus)
      else match LocationCodes(Get(orgMap, LOCATION_CODE))
        case Threw(e) => Threw(e)
        case Ok(codes) => match svc.organisationRow(orgMap)
          case Threw(e) => Threw(e)
          case Ok(converted) => match StringField(orgMap, ORGANISATION_ID)
            case Threw(e) => Threw(e)
            case Ok(id) => Ok(Ready(codes, converted[STATUS := Num(status)][ID := IdValue(id)], id))
  }

  /** validateMandatoryFields, when the mandatory columns are configured. */
  function AfterMandatoryCheck(t: TaskRecord, svc: Services): (r: TaskRecord)
    ensures SameIdentity(r, t) && r.data == t.data && r.successResult == t.successResult
  {
    if svc.mandatoryColumns.None? then t
    else match svc.mandatoryFailure(t.data, svc.mandatoryColumns.value)
      case None => t
      case Some(failure) => Failed(t, failure)
  }

  // ---------------------------------------------------------------------------
  // callCreateOrg and callUpdateOrg

  /** callCreateOrg: the row is the organisation with its location codes; one create call. */
  function CreateOutcome(t: TaskRecord, org: Record, codes: Option<seq<string>>, svc: Services): (r: Outcome)
    ensures SameIdentity(r.task, t)
  {
    var row := org[LOCATION_CODE := CodesValue(codes)];
    var calls := [CreateOrg(row)];
    match svc.createOrg(row)
    case Threw(e) => Outcome(Failed(t, svc.failureRecord(row, MessageOf(e), CREATE)), calls)
    case Ok(orgId) =>
      if IsEmptyId(orgId) then Outcome(Failed(t, svc.failureRecord(row, INTERNAL_ERROR_MESSAGE, CREATE)), calls)
      else Outcome(Completed(t, row[ORGANISATION_ID := Str(orgId.value)]), calls)
  }

  /** callUpdateOrg: the row is the organisation with its location codes and its id; one
      update call. A failure puts its message into the row and fails the task; the row
      becomes the data and the success result only if the task is not FAILED by then. */
  function UpdateOutcome(t: TaskRecord, org: Record, id: string, codes: Option<seq<string>>, svc: Services): (r: Outcome)
    ensures SameIdentity(r.task, t)
  {
    var row := org[LOCATION_CODE := CodesValue(codes)][ORGANISATION_ID := Str(id)];
    var calls := [UpdateOrg(row)];
    match svc.updateOrg(row)
    case Some(e) =>
      Outcome(Failed(t, svc.failureRecord(row[ERROR_MSG := Str(MessageOf(e))], MessageOf(e), UPDATE)), calls)
    case None =>
      if t.status == Some(FAILED) then Outcome(t, calls)
      else Outcome(Completed(t, row).(data := row), calls)
  }

  /** The create path has three outcomes: an exception fails the task with its message, an
      empty id fails it with internalError, and otherwise the task is COMPLETED with the
      row and the new id as its success result. */
  lemma CreatePathOutcomes(t: TaskRecord, org: Record, codes: Option<seq<string>>, svc: Services)
    ensures var o, row := CreateOutcome(t, org, codes, svc), org[LOCATION_CODE := CodesValue(codes)];
      && o.calls == [CreateOrg(row)]
      && SameIdentity(o.task, t) && o.task.data == t.data
      && (o.task.status == Some(COMPLETED) <==> svc.createOrg(row).Ok? && !IsEmptyId(svc.createOrg(row).value))
      && (o.task.status != Some(COMPLETED) ==> o.task.status == Some(FAILED) && o.task.successResult == t.successResult)
      && (svc.createOrg(row).Threw? ==>
            o.task.failureResult == Some(svc.failureRecord(row, MessageOf(svc.createOrg(row).error), CREATE)))
      && (svc.createOrg(row).Ok? && IsEmptyId(svc.createOrg(row).value) ==>
            o.task.failureResult == Some(svc.failureRecord(row, INTERNAL_ERROR_MESSAGE, CREATE)))
      && (o.task.status == Some(COMPLETED) ==>
            o.task.successResult == Some(row[ORGANISATION_ID := Str(svc.createOrg(row).value.value)])
            && o.task.failureResult == t.failureResult)
  {
  }

  /** The update path: an exception fails the task with the message in the row; a
      successful update completes the task only when it was not FAILED already, so a task
      that is FAILED when the update succeeds stays FAILED with its data unchanged. */
  lemma UpdatePathOutcomes(t: TaskRecord, org: Record, id: string, codes: Option<seq<string>>, svc: Services)
    ensures var o, row := UpdateOutcome(t, org, id, codes, svc), org[LOCATION_CODE := CodesValue(codes)][ORGANISATION_ID := Str(id)];
      && o.calls == [UpdateOrg(row)]
      && SameIdentity(o.task, t)
      && row[ORGANISATION_ID] == Str(id)
      && (svc.updateOrg(row).Some? ==>
            var m := MessageOf(svc.updateOrg(row).value);
            o.task == Failed(t, svc.failureRecord(row[ERROR_MSG := Str(m)], m, UPDATE)))
      && (svc.updateOrg(row).None? && t.status == Some(FAILED) ==> o.task == t)
      && (svc.updateOrg(row).None? && t.status != Some(FAILED) ==>
            o.task.status == Some(COMPLETED) && o.task.data == row && o.task.successResult == Some(row))
      && (o.task.status == Some(COMPLETED) <==> svc.updateOrg(row).None? && t.status != Some(FAILED))
  {
  }

  // ---------------------------------------------------------------------------
  // setLocationInformation

  /** The names collected for some codes, or the exception that stopped the loop, with the
      lookups made so far. */
  datatype Lookup = Lookup(names: Attempt<seq<string>>, calls: seq<Call>)

  /** The loop of setLocationInformation: a code found in the cache gives the cached name;
      any other goes to the location client, whose exception or null location stops the
      loop. */
  function LookupNames(codes: seq<string>, cache: map<string, string>, locationName: string -> Attempt<Option<string>>): (r: Lookup)
    ensures r.names.Ok? ==> |r.names.value| == |codes|
    ensures |r.calls| <= |codes|
  {
    if codes == [] then Lookup(Ok([]), [])
    else
      var before := LookupNames(codes[..|codes| - 1], cache, locationName);
      var code := codes[|codes| - 1];
      if before.names.Threw? then before
      else if code in cache then Lookup(Ok(before.names.value + [cache[code]]), before.calls)
      else
        var calls := before.calls + [GetLocationByCode(code)];
        match locationName(code)
        case Threw(e) => Lookup(Threw(e), calls)
        case Ok(None) => Lookup(Threw(Unexpected(NULL_DEREF)), calls)
        case Ok(Some(name)) => Lookup(Ok(before.names.value + [name]), calls)
  }

  /** Once a lookup has failed, the later codes change nothing. */
  lemma {:induction false} LookupNamesStops(codes: seq<string>, k: nat, cache: map<string, string>,
                                            locationName: string -> Attempt<Option<string>>)
    requires k <= |codes| && LookupNames(codes[..k], cache, locationName).names.Threw?
    ensures LookupNames(codes, cache, locationName) == LookupNames(codes[..k], cache, locationName)
    decreases |codes| - k
  {
    if k < |codes| {
      assert codes[..k + 1][..k] == codes[..k];
      LookupNamesStops(codes, k + 1, cache, locationName);
    } else {
      assert codes[..k] == codes;
    }
  }

  /** Each collected name is the cached name of its code, or the client's name for it;
      every lookup is a location lookup of a code the cache does not hold. */
  lemma {:induction false} LookupNamesMeaning(codes: seq<string>, cache: map<string, string>,
                                              locationName: string -> Attempt<Option<string>>)
    ensures var r := LookupNames(codes, cache, locationName);
      && (forall i :: 0 <= i < |r.calls| ==> r.calls[i].GetLocationByCode? && r.calls[i].code !in cache)
      && (r.names.Ok? ==> forall i :: 0 <= i < |codes| ==>
            if codes[i] in cache then r.names.value[i] == cache[codes[i]]
            else locationName(codes[i]).Ok? && locationName(codes[i]).value.Some?
                 && r.names.value[i] == locationName(codes[i]).value.value)
  {
    if codes != [] {
      LookupNamesMeaning(codes[..|codes| - 1], cache, locationName);
    }
  }

  /** The cache is never written, so with the empty cache the pass starts with, every code
      goes to the client, a repeated code as often as it occurs. */
  lemma {:induction false} EveryCodeGoesToClient(codes: seq<string>, locationName: string -> Attempt<Option<string>>)
    requires LookupNames(codes, map[], locationName).names.Ok?
    ensures var calls := LookupNames(codes, map[], locationName).calls;
      |calls| == |codes| && forall i :: 0 <= i < |codes| ==> calls[i] == GetLocationByCode(codes[i])
  {
    if codes != [] {
      EveryCodeGoesToClient(codes[..|codes| - 1], locationName);
    }
  }

  /** A task whose list of location codes names "A" twice looks it up twice. */
  lemma RepeatedCodeLookedUpTwice(locationName: string -> Attempt<Option<string>>)
    requires locationName("A").Ok? && locationName("A").value.Some?
    ensures LookupNames(["A", "A"], map[], locationName).calls == [GetLocationByCode("A"), GetLocationByCode("A")]
  {
    assert ["A", "A"][..1] == ["A"];
    assert ["A"][..0] == [];
  }

  /** The success result with the location names merged in: one name gives scalar fields
      with the first code, any other count gives lists. */
  function MergeLocation(row: Record, names: seq<string>, codes: seq<string>): Record
    requires |names| == |codes|
  {
    if |names| == 1 then row[LOCATION_NAME := Str(names[0])][LOCATION_CODE := Str(codes[0])]
    else row[LOCATION_NAME := Strs(names)][LOCATION_CODE := Strs(codes)]
  }

  /** setLocationInformation: only for a COMPLETED task. A null list of codes, a failed
      lookup and a missing success result throw; the task is then left as it was. */
  function LocationOutcome(t: TaskRecord, codes: Option<seq<string>>, cache: map<string, string>, svc: Services): (r: Outcome)
    ensures SameIdentity(r.task, t)
  {
    if t.status != Some(COMPLETED) || codes.None? then Outcome(t, [])
    else
      var look := LookupNames(codes.value, cache, svc.locationName);
      if look.names.Threw? || t.successResult.None? then Outcome(t, look.calls)
      else Outcome(t.(successResult := Some(MergeLocation(t.successResult.value, look.names.value, codes.value))), look.calls)
  }

  /** Location merging changes only the success result of a COMPLETED task, never its
      status: a failed lookup leaves the task COMPLETED without location names. */
  lemma LocationMerging(t: TaskRecord, codes: Option<seq<string>>, cache: map<string, string>, svc: Services)
    ensures var o := LocationOutcome(t, codes, cache, svc);
      && o.task == t.(successResult := o.task.successResult)
      && (t.status != Some(COMPLETED) ==> o == Outcome(t, []))
      && (o.task != t ==>
            && t.status == Some(COMPLETED) && codes.Some? && t.successResult.Some?
            && var names := LookupNames(codes.value, cache, svc.locationName).names;
               && names.Ok?
               && (|codes.value| == 1 ==>
                     o.task.successResult.value[LOCATION_NAME] == Str(names.value[0])
                     && o.task.successResult.value[LOCATION_CODE] == Str(codes.value[0]))
               && (|codes.value| != 1 ==>
                     o.task.successResult.value[LOCATION_NAME] == Strs(names.value)
                     && o.task.successResult.value[LOCATION_CODE] == Strs(codes.value)))
  {
  }

  // ---------------------------------------------------------------------------
  // processOrg

  /** processOrg: validateMandatoryFields, getOrgStatus (an invalid status fails the task
      with the record and the error message and stops), the preparation, the create or
      update branch, then setLocationInformation. An exception anywhere leaves the task
      in the state it had reached. */
  function ProcessOrgOutcome(t: TaskRecord, cache: map<string, string>, svc: Services): (r: Outcome)
    ensures SameIdentity(r.task, t)
  {
    var checked := AfterMandatoryCheck(t, svc);
    match Prepare(t.data, svc)
    case Threw(_) => Outcome(checked, [])
    case Ok(InvalidStatus) => Outcome(Failed(checked, t.data[ERROR_MSG := Str(INVALID_ORG_STATUS_MESSAGE)]), [])
    case Ok(Ready(codes, org, id)) => BranchOutcome(checked, codes, org, id, cache, svc)
  }

  /** The create or update branch of processOrg, then setLocationInformation. */
  function BranchOutcome(t: TaskRecord, codes: Option<seq<string>>, org: Record, id: Option<string>,
                         cache: map<string, string>, svc: Services): (r: Outcome)
    ensures SameIdentity(r.task, t)
  {
    var mutated := if IsEmptyId(id) then CreateOutcome(t, org, codes, svc)
                   else UpdateOutcome(t, org, id.value, codes, svc);
    var located := LocationOutcome(mutated.task, codes, cache, svc);
    Outcome(located.task, mutated.calls + located.calls)
  }

  /** An invalid status word ends the task FAILED, with the record and the error message
      as its failure result, and no create, update or location call is made. */
  lemma InvalidStatusFailsWithoutCalls(t: TaskRecord, cache: map<string, string>, svc: Services)
    requires Get(t.data, STATUS).Str? && Get(t.data, STATUS).s != ""
    requires Lower(Get(t.data, STATUS).s) != INACTIVE_WORD && Lower(Get(t.data, STATUS).s) != ACTIVE_WORD
    ensures var o := ProcessOrgOutcome(t, cache, svc);
      && o.calls == []
      && o.task.status == Some(FAILED)
      && o.task.failureResult == Some(t.data[ERROR_MSG := Str(INVALID_ORG_STATUS_MESSAGE)])
      && o.task.data == t.data && o.task.successResult == t.successResult
  {
    StatusWordsLowerCase();
  }

  /** A row whose status is "disabled" ends FAILED without a create, update or location
      call. */
  lemma DisabledStatusFails(t: TaskRecord, cache: map<string, string>, svc: Services)
    requires Get(t.data, STATUS) == Str("disabled")
    ensures ProcessOrgOutcome(t, cache, svc).task.status == Some(FAILED)
    ensures ProcessOrgOutcome(t, cache, svc).calls == []
  {
    LowerMeaning("disabled");
    assert Lower("disabled")[0] == 'd';
    InvalidStatusFailsWithoutCalls(t, cache, svc);
  }

  /** Every call a task's processing makes is one organisation mutation, which comes
      first, followed by location lookups only: create exactly when the id is empty,
      update otherwise, and nothing at all when the preparation throws. */
  lemma OneMutationPerTask(t: TaskRecord, cache: map<string, string>, svc: Services)
    ensures var o := ProcessOrgOutcome(t, cache, svc);
      && (forall i :: 0 < i < |o.calls| ==> o.calls[i].GetLocationByCode?)
      && (Prepare(t.data, svc).Threw? || Prepare(t.data, svc) == Ok(InvalidStatus) <==> o.calls == [])
      && (match Prepare(t.data, svc)
          case Ok(Ready(codes, org, id)) =>
            if IsEmptyId(id) then o.calls[0] == CreateOrg(org[LOCATION_CODE := CodesValue(codes)])
            else o.calls[0] == UpdateOrg(org[LOCATION_CODE := CodesValue(codes)][ORGANISATION_ID := Str(id.value)])
          case _ => true)
  {
    match Prepare(t.data, svc)
    case Ok(Ready(codes, org, id)) =>
      BranchCalls(AfterMandatoryCheck(t, svc), codes, org, id, cache, svc);
    case _ =>
  }

  /** The branch makes its one mutation first, then location lookups only. */
  lemma BranchCalls(t: TaskRecord, codes: Option<seq<string>>, org: Record, id: Option<string>,
                    cache: map<string, string>, svc: Services)
    ensures var calls := BranchOutcome(t, codes, org, id, cache, svc).calls;
      && calls != []
      && (forall i :: 0 < i < |calls| ==> calls[i].GetLocationByCode?)
      && (if IsEmptyId(id) then calls[0] == CreateOrg(org[LOCATION_CODE := CodesValue(codes)])
          else calls[0] == UpdateOrg(org[LOCATION_CODE := CodesValue(codes)][ORGANISATION_ID := Str(id.value)]))
  {
    var mutated := if IsEmptyId(id) then CreateOutcome(t, org, codes, svc)
                   else UpdateOutcome(t, org, id.value, codes, svc);
    if codes.Some? {
      LookupNamesMeaning(codes.value, cache, svc.locationName);
    }
    var located := LocationOutcome(mutated.task, codes, cache, svc);
    assert |mutated.calls| == 1;
    assert forall i :: 0 <= i < |located.calls| ==> located.calls[i].GetLocationByCode?;
  }

  /** A task that is FAILED when it takes the update path (from an earlier pass, or from
      the mandatory-field check) stays FAILED even when the update succeeds, and no
      location is looked up for it. */
  lemma FailedTaskStaysFailedOnUpdate(t: TaskRecord, cache: map<string, string>, svc: Services)
    requires AfterMandatoryCheck(t, svc).status == Some(FAILED)
    requires Prepare(t.data, svc).Ok? && Prepare(t.data, svc).value.Ready? && !IsEmptyId(Prepare(t.data, svc).value.id)
    ensures var o := ProcessOrgOutcome(t, cache, svc);
      o.task.status == Some(FAILED) && |o.calls| == 1 && o.calls[0].UpdateOrg? && o.task.data == t.data
  {
  }

  /** A task whose organisation was created is COMPLETED whatever happens to its location
      lookups: a failed lookup is swallowed, not turned into a failure. */
  lemma CreatedTaskStaysCompleted(t: TaskRecord, cache: map<string, string>, svc: Services)
    requires Prepare(t.data, svc).Ok? && Prepare(t.data, svc).value.Ready? && IsEmptyId(Prepare(t.data, svc).value.id)
    requires var p := Prepare(t.data, svc).value;
      var id := svc.createOrg(p.org[LOCATION_CODE := CodesValue(p.codes)]);
      id.Ok? && !IsEmptyId(id.value)
    ensures var o, p := ProcessOrgOutcome(t, cache, svc), Prepare(t.data, svc).value;
      var row := p.org[LOCATION_CODE := CodesValue(p.codes)];
      o.task.status == Some(COMPLETED) && o.task.successResult.Some?
      && o.task.successResult.value[ORGANISATION_ID] == Str(svc.createOrg(row).value.value)
  {
    var p := Prepare(t.data, svc).value;
    var checked := AfterMandatoryCheck(t, svc);
    var mutated := CreateOutcome(checked, p.org, p.codes, svc);
    CreatePathOutcomes(checked, p.org, p.codes, svc);
    LocationMerging(mutated.task, p.codes, cache, svc);
    var row := p.org[LOCATION_CODE := CodesValue(p.codes)];
    assert mutated.task.successResult == Some(row[ORGANISATION_ID := Str(svc.createOrg(row).value.value)]);
  }

  // ---------------------------------------------------------------------------
  // processTasks

  /** Tasks with no status or COMPLETED status are not processed. */
  predicate Skipped(t: TaskRecord)
  {
    t.status.None? || t.status == Some(COMPLETED)
  }

  /** One iteration of processTasks, with the pass's location cache, which stays empty. */
  function PassTask(t: TaskRecord, svc: Services, now: int): (r: Outcome)
    ensures Skipped(t) ==> r == Outcome(t, [])
    ensures !Skipped(t) ==>
      && r.task.iterationId == Wrap32(t.iterationId + 1) && r.task.lastUpdatedOn == Some(now)
      && r.task.processId == t.processId && r.task.sequenceId == t.sequenceId
  {
    if Skipped(t) then Outcome(t, [])
    else
      var o := ProcessOrgOutcome(t, map[], svc);
      Outcome(o.task.(lastUpdatedOn := Some(now), iterationId := Wrap32(t.iterationId + 1)), o.calls)
  }

  /** The calls a pass over the tasks makes, task by task. */
  function PassCalls(ts: seq<TaskRecord>, svc: Services, now: int): seq<Call>
  {
    if ts == [] then [] else PassCalls(ts[..|ts| - 1], svc, now) + PassTask(ts[|ts| - 1], svc, now).calls
  }

  /** The calls of some outcomes, in order. */
  function CallsOf(os: seq<Outcome>): seq<Call>
  {
    if os == [] then [] else CallsOf(os[..|os| - 1]) + os[|os| - 1].calls
  }

  /** The calls of a pass are the calls of its tasks' outcomes, in order. */
  lemma {:induction false} PassCallsOfOutcomes(ts: seq<TaskRecord>, os: seq<Outcome>, svc: Services, now: int)
    requires |os| == |ts| && forall k :: 0 <= k < |ts| ==> os[k] == PassTask(ts[k], svc, now)
    ensures PassCalls(ts, svc, now) == CallsOf(os)
  {
    if ts != [] {
      PassCallsOfOutcomes(ts[..|ts| - 1], os[..|os| - 1], svc, now);
    }
  }

  /** A pass over tasks that are all COMPLETED or without status calls nothing. */
  lemma {:induction false} SettledTasksCallNothing(ts: seq<TaskRecord>, svc: Services, now: int)
    requires forall i :: 0 <= i < |ts| ==> Skipped(ts[i])
    ensures PassCalls(ts, svc, now) == []
  {
    if ts != [] {
      SettledTasksCallNothing(ts[..|ts| - 1], svc, now);
    }
  }

  /** The mutations of a pass: one per task that its processing gets as far as the
      create/update branch, in task order. */
  lemma {:induction false} PassMutationCount(ts: seq<TaskRecord>, svc: Services, now: int)
    ensures |MutationsIn(PassCalls(ts, svc, now))| == |ReachingBranch(ts, svc)|
  {
    if ts != [] {
      var init := ts[..|ts| - 1];
      var last := ts[|ts| - 1];
      PassMutationCount(init, svc, now);
      MutationsAppend(PassCalls(init, svc, now), PassTask(last, svc, now).calls);
      PassTaskMutations(last, svc, now);
    }
  }

  /** The tasks a pass processes whose preparation succeeds. */
  predicate ReachesBranch(t: TaskRecord, svc: Services)
  {
    !Skipped(t) && Prepare(t.data, svc).Ok? && Prepare(t.data, svc).value.Ready?
  }

  /** One task contributes one mutation when it reaches the branch, none otherwise. */
  lemma PassTaskMutations(t: TaskRecord, svc: Services, now: int)
    ensures |MutationsIn(PassTask(t, svc, now).calls)| == if ReachesBranch(t, svc) then 1 else 0
  {
    if !Skipped(t) {
      OneMutationPerTask(t, map[], svc);
      MutationFirst(ProcessOrgOutcome(t, map[], svc).calls);
    }
  }

  /** Calls made of at most one leading mutation followed by lookups hold one mutation
      when they are not empty. */
  lemma MutationFirst(calls: seq<Call>)
    requires calls != [] ==> !calls[0].GetLocationByCode?
    requires forall i :: 0 < i < |calls| ==> calls[i].GetLocationByCode?
    ensures |MutationsIn(calls)| == if calls == [] then 0 else 1
  {
    if calls != [] {
      assert calls == [calls[0]] + calls[1..];
      MutationsAppend([calls[0]], calls[1..]);
      NoMutations(calls[1..]);
      assert MutationsIn([calls[0]]) == [calls[0]] by {
        assert [calls[0]][..0] == [];
      }
    }
  }

  /** The organisation mutations among some calls. */
  function MutationsIn(calls: seq<Call>): seq<Call>
  {
    if calls == [] then []
    else MutationsIn(calls[..|calls| - 1]) + (if calls[|calls| - 1].GetLocationByCode? then [] else [calls[|calls| - 1]])
  }

  lemma {:induction false} MutationsAppend(a: seq<Call>, b: seq<Call>)
    ensures MutationsIn(a + b) == MutationsIn(a) + MutationsIn(b)
  {
    if b != [] {
      MutationsAppend(a, b[..|b| - 1]);
      assert (a + b)[..|a + b| - 1] == a + b[..|b| - 1];
    } else {
      assert a + b == a;
    }
  }

  lemma {:induction false} NoMutations(calls: seq<Call>)
    requires forall i :: 0 <= i < |calls| ==> calls[i].GetLocationByCode?
    ensures MutationsIn(calls) == []
  {
    if calls != [] {
      NoMutations(calls[..|calls| - 1]);
    }
  }

  /** The tasks a pass processes whose preparation succeeds. */
  function ReachingBranch(ts: seq<TaskRecord>, svc: Services): seq<TaskRecord>
  {
    if ts == [] then []
    else
      var last := ts[|ts| - 1];
      ReachingBranch(ts[..|ts| - 1], svc) + (if ReachesBranch(last, svc) then [last] else [])
  }

  /** A task the pass processes whose location cell is the single code `code`, as a CSV
      row's cell is, and that the pass leaves COMPLETED. */
  predicate CompletesWithCode(t: TaskRecord, svc: Services, now: int, code: string)
  {
    && ReachesBranch(t, svc) && Get(t.data, LOCATION_CODE) == Str(code)
    && PassTask(t, svc, now).task.status == Some(COMPLETED)
  }

  /** Such a task makes its one mutation and then looks its code up: the pass's cache
      answers nothing. */
  lemma CompletedTaskLooksUpItsCode(t: TaskRecord, svc: Services, now: int, code: string)
    requires CompletesWithCode(t, svc, now, code)
    ensures var calls := PassTask(t, svc, now).calls;
      |calls| == 2 && !calls[0].GetLocationByCode? && calls[1] == GetLocationByCode(code)
  {
    var p := Prepare(t.data, svc).value;
    SingleCellCode(t.data, svc, code);
    BranchLooksUpSingleCode(AfterMandatoryCheck(t, svc), code, p.org, p.id, svc);
  }

  /** A location cell holding one string gives the list of that one code. */
  lemma SingleCellCode(data: Record, svc: Services, code: string)
    requires Prepare(data, svc).Ok? && Prepare(data, svc).value.Ready?
    requires Get(data, LOCATION_CODE) == Str(code)
    ensures Prepare(data, svc).value.codes == Some([code])
  {
  }

  /** A branch with one code that ends COMPLETED makes its mutation, then one lookup. */
  lemma BranchLooksUpSingleCode(t: TaskRecord, code: string, org: Record, id: Option<string>, svc: Services)
    requires BranchOutcome(t, Some([code]), org, id, map[], svc).task.status == Some(COMPLETED)
    ensures var calls := BranchOutcome(t, Some([code]), org, id, map[], svc).calls;
      |calls| == 2 && !calls[0].GetLocationByCode? && calls[1] == GetLocationByCode(code)
  {
    var mutated := if IsEmptyId(id) then CreateOutcome(t, org, Some([code]), svc)
                   else UpdateOutcome(t, org, id.value, Some([code]), svc);
    LocationMerging(mutated.task, Some([code]), map[], svc);
    assert LookupNames([code], map[], svc.locationName).calls == [GetLocationByCode(code)] by {
      assert [code][..0] == [];
    }
  }

  lemma LastTaskLooksUpItsCodeOnce(t: TaskRecord, svc: Services, now: int, code: string)
    requires CompletesWithCode(t, svc, now, code)
    ensures multiset(PassTask(t, svc, now).calls)[GetLocationByCode(code)] == 1
  {
    CompletedTaskLooksUpItsCode(t, svc, now, code);
    var calls := PassTask(t, svc, now).calls;
    assert calls == [calls[0], GetLocationByCode(code)];
  }

  /** The location cache is never written, so across the tasks of one pass a code is
      looked up once for every completed task that names it, not once per pass. */
  lemma {:induction false} RepeatedCodeAcrossTasks(ts: seq<TaskRecord>, svc: Services, now: int, code: string)
    requires forall k :: 0 <= k < |ts| ==> CompletesWithCode(ts[k], svc, now, code)
    ensures multiset(PassCalls(ts, svc, now))[GetLocationByCode(code)] == |ts|
  {
    if ts != [] {
      var init, last := ts[..|ts| - 1], ts[|ts| - 1];
      assert forall k :: 0 <= k < |init| ==> init[k] == ts[k];
      RepeatedCodeAcrossTasks(init, svc, now, code);
      LastTaskLooksUpItsCodeOnce(last, svc, now, code);
      assert PassCalls(ts, svc, now) == PassCalls(init, svc, now) + PassTask(last, svc, now).calls;
    }
  }

  /** A second pass leaves every task the first pass completed exactly as it was, its
      iteration id included, and calls nothing for it. */
  lemma SecondPassSkipsCompleted(t: TaskRecord, svc: Services, now1: int, now2: int)
    requires PassTask(t, svc, now1).task.status == Some(COMPLETED)
    ensures var first := PassTask(t, svc, now1).task;
      PassTask(first, svc, now2) == Outcome(first, [])
  {
  }

  // ---------------------------------------------------------------------------
  // The task as the background actor mutates it

  class Task {
    var processId: string
    var sequenceId: int
    var status: Option<int>
    var data: Record
    var successResult: Option<Record>
    var failureResult: Option<Record>
    var iterationId: int
    var lastUpdatedOn: Option<int>

    constructor (r: TaskRecord)
      ensures Value() == r
    {
      processId, sequenceId, status, data := r.processId, r.sequenceId, r.status, r.data;
      successResult, failureResult := r.successResult, r.failureResult;
      iterationId, lastUpdatedOn := r.iterationId, r.lastUpdatedOn;
    }

    /** The task as it is written back to the store. */
    function Value(): TaskRecord
      reads this
    {
      TaskRecord(processId, sequenceId, status, data, successResult, failureResult, iterationId, lastUpdatedOn)
    }

    /** setTaskStatus, for the FAILED status. */
    method SetTaskStatus(newStatus: int, message: string, row: Record, action: string, svc: Services)
      modifies this
      ensures Value() == old(Value()).(status := Some(newStatus), failureResult := Some(svc.failureRecord(row, message, action)))
    {
      status := Some(newStatus);
      failureResult := Some(svc.failureRecord(row, message, action));
    }

    /** setSuccessTaskStatus: the row is recorded as the success result. */
    method SetSuccessTaskStatus(newStatus: int, row: Record)
      modifies this
      ensures Value() == old(Value()).(status := Some(newStatus), successResult := Some(row))
    {
      status := Some(newStatus);
      successResult := Some(row);
    }

    method ValidateMandatoryFields(svc: Services)
      requires svc.mandatoryColumns.Some?
      modifies this
      ensures Value() == AfterMandatoryCheck(old(Value()), svc)
    {
      var failure := svc.mandatoryFailure(data, svc.mandatoryColumns.value);
      if failure.Some? {
        status := Some(FAILED);
        failureResult := failure;
      }
    }

    method CallCreateOrg(org: Record, codes: Option<seq<string>>, svc: Services) returns (calls: seq<Call>)
      modifies this
      ensures Outcome(Value(), calls) == CreateOutcome(old(Value()), org, codes, svc)
    {
      var row := org[LOCATION_CODE := CodesValue(codes)];
      calls := [CreateOrg(row)];
      var orgId := svc.createOrg(row);
      if orgId.Threw? {
        SetTaskStatus(FAILED, MessageOf(orgId.error), row, CREATE, svc);
        return;
      }
      if orgId.value.None? || orgId.value.value == "" {
        SetTaskStatus(FAILED, INTERNAL_ERROR_MESSAGE, row, CREATE, svc);
      } else {
        row := row[ORGANISATION_ID := Str(orgId.value.value)];
        SetSuccessTaskStatus(COMPLETED, row);
      }
    }

    method CallUpdateOrg(org: Record, id: string, codes: Option<seq<string>>, svc: Services) returns (calls: seq<Call>)
      modifies this
      ensures Outcome(Value(), calls) == UpdateOutcome(old(Value()), org, id, codes, svc)
    {
      var row := org[LOCATION_CODE := CodesValue(codes)];
      row := row[ORGANISATION_ID := Str(id)];
      calls := [UpdateOrg(row)];
      var failure := svc.updateOrg(row);
      if failure.Some? {
        row := row[ERROR_MSG := Str(MessageOf(failure.value))];
        SetTaskStatus(FAILED, MessageOf(failure.value), row, UPDATE, svc);
      }
      if status != Some(FAILED) {
        data := row;
        SetSuccessTaskStatus(COMPLETED, row);
      }
    }

    /** setLocationInformation; returns the lookups made, also when one of them throws. */
    method SetLocationInformation(cache: map<string, string>, codes: Option<seq<string>>, svc: Services)
      returns (calls: seq<Call>)
      modifies this
      ensures Outcome(Value(), calls) == LocationOutcome(old(Value()), codes, cache, svc)
    {
      calls := [];
      if status != Some(COMPLETED) || codes.None? {
        return;
      }
      var locationCodes := codes.value;
      var locationNames: seq<string> := [];
      for i := 0 to |locationCodes|
        invariant LookupNames(locationCodes[..i], cache, svc.locationName) == Lookup(Ok(locationNames), calls)
      {
        assert locationCodes[..i + 1][..i] == locationCodes[..i];
        var code := locationCodes[i];
        if code in cache {
          locationNames := locationNames + [cache[code]];
        } else {
          calls := calls + [GetLocationByCode(code)];
          var location := svc.locationName(code);
          if location.Threw? || location.value.None? {
            LookupNamesStops(locationCodes, i + 1, cache, svc.locationName);
            return;
          }
          locationNames := locationNames + [location.value.value];
        }
      }
      assert locationCodes[..|locationCodes|] == locationCodes;
      if successResult.None? {
        return;
      }
      var row := successResult.value;
      if |locationNames| == 1 {
        row := row[LOCATION_NAME := Str(locationNames[0])];
        row := row[LOCATION_CODE := Str(locationCodes[0])];
      } else {
        row := row[LOCATION_NAME := Strs(locationNames)];
        row := row[LOCATION_CODE := Strs(locationCodes)];
      }
      successResult := Some(row);
    }

    /** processOrg; returns the downstream calls made, in order. */
    method ProcessOrg(cache: map<string, string>, svc: Services) returns (calls: seq<Call>)
      modifies this
      ensures Outcome(Value(), calls) == ProcessOrgOutcome(old(Value()), cache, svc)
    {
      calls := [];
      var orgMap := data;
      if svc.mandatoryColumns.Some? {
        ValidateMandatoryFields(svc);
      }
      assert Value() == AfterMandatoryCheck(old(Value()), svc);
      var orgStatus := GetOrgStatus(orgMap);
      if orgStatus.Threw? {
        return;
      }
      var status := orgStatus.value.0;
      if status == -1 {
        orgMap := orgMap[ERROR_MSG := Str(INVALID_ORG_STATUS_MESSAGE)];
        failureResult := Some(orgMap);
        this.status := Some(FAILED);
        return;
      }
      orgMap := orgStatus.value.1;
      var locationCodes := LocationCodes(Get(orgMap, LOCATION_CODE));
      if locationCodes.Threw? {
        return;
      }
      var converted := svc.organisationRow(orgMap);
      if converted.Threw? {
        return;
      }
      var id := StringField(orgMap, ORGANISATION_ID);
      if id.Threw? {
        return;
      }
      var org := converted.value[STATUS := Num(status)][ID := IdValue(id.value)];
      assert Prepare(old(data), svc) == Ok(Ready(locationCodes.value, org, id.value));
      calls := Branch(locationCodes.value, org, id.value, cache, svc);
    }

    /** The create or update branch of processOrg, then setLocationInformation. */
    method Branch(codes: Option<seq<string>>, org: Record, id: Option<string>, cache: map<string, string>, svc: Services)
      returns (calls: seq<Call>)
      modifies this
      ensures Outcome(Value(), calls) == BranchOutcome(old(Value()), codes, org, id, cache, svc)
    {
      if id.None? || id.value == "" {
        calls := CallCreateOrg(org, codes, svc);
      } else {
        calls := CallUpdateOrg(org, id.value, codes, svc);
      }
      var lookups := SetLocationInformation(cache, codes, svc);
      calls := calls + lookups;
    }
  }

  /** The tasks' values, in order. */
  function Values(tasks: seq<Task>): (rs: seq<TaskRecord>)
    reads set t | t in tasks
    ensures |rs| == |tasks| && forall k :: 0 <= k < |tasks| ==> rs[k] == tasks[k].Value()
  {
    seq(|tasks|, k requires 0 <= k < |tasks| reads set t | t in tasks => tasks[k].Value())
  }

  /** One iteration of the loop of processTasks. */
  method PassOne(task: Task, cache: map<string, string>, svc: Services, now: int) returns (made: seq<Call>)
    requires cache == map[]
    modifies task
    ensures Outcome(task.Value(), made) == PassTask(old(task.Value()), svc, now)
  {
    made := [];
    if task.status.Some? && task.status.value != COMPLETED {
      made := task.ProcessOrg(cache, svc);
      task.lastUpdatedOn := Some(now);
      task.iterationId := Wrap32(task.iterationId + 1);
    }
  }

  /** Passing the task at index i changes no other task of the list. */
  method PassAt(tasks: seq<Task>, i: nat, cache: map<string, string>, svc: Services, now: int) returns (made: seq<Call>)
    requires i < |tasks| && cache == map[]
    requires forall j :: 0 <= j < |tasks| && j != i ==> tasks[j] != tasks[i]
    modifies tasks[i]
    ensures Outcome(tasks[i].Value(), made) == PassTask(old(tasks[i].Value()), svc, now)
    ensures forall k :: 0 <= k < |tasks| && k != i ==> tasks[k].Value() == old(tasks[k].Value())
  {
    made := PassOne(tasks[i], cache, svc, now);
  }

  /** processTasks: every task that has a status other than COMPLETED is processed with a
      location cache that is created empty and never written, then stamped with the time
      and its next iteration id; the other tasks are left untouched. */
  method ProcessTasks(tasks: seq<Task>, svc: Services, now: int) returns (calls: seq<Call>)
    requires forall i, j :: 0 <= i < j < |tasks| ==> tasks[i] != tasks[j]
    modifies set t | t in tasks
    ensures forall k :: 0 <= k < |tasks| ==> tasks[k].Value() == PassTask(old(tasks[k].Value()), svc, now).task
    ensures calls == PassCalls(old(Values(tasks)), svc, now)
  {
    ghost var before := Values(tasks);
    ghost var outcomes: seq<Outcome> := [];
    var locationCache: map<string, string> := map[];
    calls := [];
    for i := 0 to |tasks|
      invariant |outcomes| == i
      invariant forall k :: 0 <= k < i ==> outcomes[k] == PassTask(before[k], svc, now)
      invariant forall k :: 0 <= k < i ==> tasks[k].Value() == outcomes[k].task
      invariant forall k :: i <= k < |tasks| ==> tasks[k].Value() == before[k]
      invariant calls == CallsOf(outcomes)
    {
      var made := PassAt(tasks, i, locationCache, svc, now);
      assert (outcomes + [Outcome(tasks[i].Value(), made)])[..i] == outcomes;
      outcomes := outcomes + [Outcome(tasks[i].Value(), made)];
      calls := calls + made;
    }
    PassCallsOfOutcomes(before, outcomes, svc, now);
  }
}
