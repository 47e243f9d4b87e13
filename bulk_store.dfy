/** The bulk-upload record stores as BaseBulkUploadActor uses them: the task table
    (bulk_upload_process_task) with its batch and single-row writes, the job table
    (bulk_upload_process), the batch writer with its per-item fallback, and the job
    records the actor builds. A store's reply to each write is not known to the model:
    every write may succeed or fail, and the stores log what they were asked. */
module BulkStore {
  import opened Wrappers
  import opened BulkCommon

  /** A BulkUploadProcessTask as it is written to the store. */
  datatype TaskRecord = TaskRecord(
    processId: string,
    sequenceId: int,
    status: Option<int>,
    data: Record,
    successResult: Option<Record>,
    failureResult: Option<Record>,
    iterationId: int,
    lastUpdatedOn: Option<int>)

  datatype WriteKind = Insert | Update

  /** One call made to the task store and whether it succeeded. */
  datatype StoreCall =
    | BatchWrite(kind: WriteKind, items: seq<TaskRecord>, ok: bool)
    | ItemWrite(kind: WriteKind, item: TaskRecord, ok: bool)

  class TaskStore {
    var calls: seq<StoreCall>

    constructor ()
      ensures calls == []
    {
      calls := [];
    }

    /** insertBatchRecord / updateBatchRecord: all or nothing, or an exception. */
    method WriteBatch(kind: WriteKind, items: seq<TaskRecord>) returns (ok: bool)
      modifies this
      ensures calls == old(calls) + [BatchWrite(kind, items, ok)]
    {
      ok :| true;
      calls := calls + [BatchWrite(kind, items, ok)];
    }

    /** create / update of one task, or an exception. */
    method WriteItem(kind: WriteKind, item: TaskRecord) returns (ok: bool)
      modifies this
      ensures calls == old(calls) + [ItemWrite(kind, item, ok)]
    {
      ok :| true;
      calls := calls + [ItemWrite(kind, item, ok)];
    }
  }

  /** The task rows a sequence of store calls durably wrote, in order. */
  function Written(calls: seq<StoreCall>): seq<TaskRecord>
  {
    if calls == [] then []
    else
      var last := calls[|calls| - 1];
      Written(calls[..|calls| - 1]) +
        (match last
         case BatchWrite(_, items, ok) => if ok then items else []
         case ItemWrite(_, item, ok) => if ok then [item] else [])
  }

  /** The batches requested, in order, whatever their outcome. */
  function Batches(calls: seq<StoreCall>): seq<seq<TaskRecord>>
  {
    if calls == [] then []
    else
      var last := calls[|calls| - 1];
      Batches(calls[..|calls| - 1]) + (if last.BatchWrite? then [last.items] else [])
  }

  lemma WrittenAppend(a: seq<StoreCall>, b: seq<StoreCall>)
    ensures Written(a + b) == Written(a) + Written(b)
    ensures Batches(a + b) == Batches(a) + Batches(b)
  {
    if b != [] {
      WrittenAppend(a, b[..|b| - 1]);
      assert (a + b)[..|a + b| - 1] == a + b[..|b| - 1];
    } else {
      assert a + b == a;
    }
  }

  /** The fallback: one single-row write per record, in record order. */
  predicate IsFallback(kind: WriteKind, records: seq<TaskRecord>, tail: seq<StoreCall>)
  {
    && |tail| == |records|
    && forall i :: 0 <= i < |tail| ==> tail[i].ItemWrite? && tail[i].kind == kind && tail[i].item == records[i]
  }

  /** The records whose single-row write succeeded. */
  function Succeeded(tail: seq<StoreCall>): seq<TaskRecord>
  {
    if tail == [] then []
    else
      var last := tail[|tail| - 1];
      Succeeded(tail[..|tail| - 1]) + (if last.ItemWrite? && last.ok then [last.item] else [])
  }

  /** A fallback writes exactly the records whose own write succeeded, in order, and
      requests no batch. */
  lemma {:induction false} FallbackWrites(kind: WriteKind, records: seq<TaskRecord>, tail: seq<StoreCall>)
    requires IsFallback(kind, records, tail)
    ensures Written(tail) == Succeeded(tail)
    ensures Batches(tail) == []
    ensures |Succeeded(tail)| <= |records|
  {
    if tail != [] {
      var n := |tail| - 1;
      FallbackWrites(kind, records[..n], tail[..n]);
    }
  }

  /** Batch insert of records where only the record at k fails on its own write
      persists every other record, in order. */
  lemma {:induction false} OneBadRecordLosesOnlyItself(kind: WriteKind, records: seq<TaskRecord>, tail: seq<StoreCall>, k: nat)
    requires IsFallback(kind, records, tail)
    requires k < |records|
    requires !tail[k].ok && forall i :: 0 <= i < |tail| && i != k ==> tail[i].ok
    ensures Written(tail) == records[..k] + records[k + 1..]
  {
    FallbackWrites(kind, records, tail);
    SucceededOneBad(records, tail, k);
  }

  lemma {:induction false} SucceededOneBad(records: seq<TaskRecord>, tail: seq<StoreCall>, k: nat)
    requires |tail| == |records| && forall i :: 0 <= i < |tail| ==> tail[i].ItemWrite? && tail[i].item == records[i]
    requires k < |records|
    requires !tail[k].ok && forall i :: 0 <= i < |tail| && i != k ==> tail[i].ok
    ensures Succeeded(tail) == records[..k] + records[k + 1..]
  {
    var n := |tail| - 1;
    if k == n {
      SucceededAll(records[..n], tail[..n]);
      assert records[..k] + records[k + 1..] == records[..n];
    } else {
      SucceededOneBad(records[..n], tail[..n], k);
      assert records[..n][..k] == records[..k];
      assert records[..k] + records[k + 1..] == records[..k] + records[..n][k + 1..] + [records[n]];
    }
  }

  lemma {:induction false} SucceededAll(records: seq<TaskRecord>, tail: seq<StoreCall>)
    requires |tail| == |records| && forall i :: 0 <= i < |tail| ==> tail[i].ItemWrite? && tail[i].item == records[i] && tail[i].ok
    ensures Succeeded(tail) == records
  {
    if tail != [] {
      var n := |tail| - 1;
      SucceededAll(records[..n], tail[..n]);
    }
  }

  /** performBatchInsert / performBatchUpdate: one batch write; when it fails, one
      single-row write per record in order, each failure logged and passed over. The
      caller never sees an exception. */
  method PerformBatchWrite(store: TaskStore, kind: WriteKind, records: seq<TaskRecord>)
    modifies store
    ensures |store.calls| > |old(store.calls)|
    ensures store.calls[..|old(store.calls)|] == old(store.calls)
    ensures var first := store.calls[|old(store.calls)|];
      first.BatchWrite? && first.kind == kind && first.items == records
      && var tail := store.calls[|old(store.calls)| + 1..];
      if first.ok then tail == [] else IsFallback(kind, records, tail)
  {
    ghost var before := store.calls;
    var ok := store.WriteBatch(kind, records);
    if !ok {
      for i := 0 to |records|
        invariant |store.calls| == |before| + 1 + i
        invariant store.calls[..|before| + 1] == before + [BatchWrite(kind, records, false)]
        invariant IsFallback(kind, records[..i], store.calls[|before| + 1..])
      {
        ghost var done := store.calls[|before| + 1..];
        var _ := store.WriteItem(kind, records[i]);
        assert store.calls[|before| + 1..] == done + [store.calls[|store.calls| - 1]];
        assert records[..i + 1] == records[..i] + [records[i]];
      }
    }
  }

  method PerformBatchInsert(store: TaskStore, records: seq<TaskRecord>)
    modifies store
    ensures |store.calls| > |old(store.calls)| && store.calls[..|old(store.calls)|] == old(store.calls)
    ensures var tail := store.calls[|old(store.calls)|..];
      Batches(tail) == [records] && (tail[0].ok ==> Written(tail) == records)
      && (!tail[0].ok ==> IsFallback(Insert, records, tail[1..]) && Written(tail) == Succeeded(tail[1..]))
  {
    PerformBatchWrite(store, Insert, records);
    BatchOutcome(store.calls, |old(store.calls)|, Insert, records);
  }

  method PerformBatchUpdate(store: TaskStore, records: seq<TaskRecord>)
    modifies store
    ensures |store.calls| > |old(store.calls)| && store.calls[..|old(store.calls)|] == old(store.calls)
    ensures var tail := store.calls[|old(store.calls)|..];
      Batches(tail) == [records] && (tail[0].ok ==> Written(tail) == records)
      && (!tail[0].ok ==> IsFallback(Update, records, tail[1..]) && Written(tail) == Succeeded(tail[1..]))
  {
    PerformBatchWrite(store, Update, records);
    BatchOutcome(store.calls, |old(store.calls)|, Update, records);
  }

  /** What one batch write and its fallback leave in the log. */
  lemma BatchOutcome(calls: seq<StoreCall>, start: nat, kind: WriteKind, records: seq<TaskRecord>)
    requires start < |calls|
    requires calls[start].BatchWrite? && calls[start].kind == kind && calls[start].items == records
    requires if calls[start].ok then calls[start + 1..] == [] else IsFallback(kind, records, calls[start + 1..])
    ensures var tail := calls[start..];
      Batches(tail) == [records] && (tail[0].ok ==> Written(tail) == records)
      && (!tail[0].ok ==> IsFallback(kind, records, tail[1..]) && Written(tail) == Succeeded(tail[1..]))
  {
    var tail := calls[start..];
    assert tail == [calls[start]] + calls[start + 1..];
    WrittenAppend([calls[start]], calls[start + 1..]);
    assert Written([calls[start]]) == (if calls[start].ok then records else []) by {
      assert [calls[start]][..0] == [];
    }
    assert Batches([calls[start]]) == [records] by {
      assert [calls[start]][..0] == [];
    }
    if !calls[start].ok {
      FallbackWrites(kind, records, calls[start + 1..]);
    }
  }

  // ---------------------------------------------------------------------------
  // Job records

  /** A BulkUploadProcess; unset fields are None. Timestamps are not modelled. */
  datatype Process = Process(
    id: string,
    objectType: Option<string>,
    uploadedBy: Option<string>,
    createdBy: Option<string>,
    organisationId: Option<string>,
    status: Option<int>,
    taskCount: Option<int>,
    failureResult: Option<string>)

  datatype ProcessWrite = Created(process: Process) | Updated(process: Process)

  class ProcessStore {
    var writes: seq<ProcessWrite>

    constructor ()
      ensures writes == []
    {
      writes := [];
    }

    /** create: the store answers SUCCESS or not. */
    method Create(p: Process) returns (ok: bool)
      modifies this
      ensures writes == old(writes) + [Created(p)]
    {
      ok :| true;
      writes := writes + [Created(p)];
    }

    method Update(p: Process)
      modifies this
      ensures writes == old(writes) + [Updated(p)]
    {
      writes := writes + [Updated(p)];
    }
  }

  /** getBulkUploadProcessForFailedStatus: a record carrying only the id, the status and
      the exception's message. */
  function GetBulkUploadProcessForFailedStatus(processId: string, status: int, ex: Error): (p: Process)
    ensures p.id == processId && p.status == Some(status) && p.failureResult == Some(MessageOf(ex))
    ensures p.objectType.None? && p.uploadedBy.None? && p.createdBy.None? && p.organisationId.None? && p.taskCount.None?
  {
    Process(processId, None, None, None, None, Some(status), None, Some(MessageOf(ex)))
  }

  /** getBulkUploadProcess: a NEW job for the requester. The organisation is the user's
      root org when the user lookup returns a non-empty record whose root org id is a
      string; a failed lookup, a null id or one of another type (the cast throws, and
      the exception is logged) leaves it unset. */
  function GetBulkUploadProcess(processId: string, objectType: string, requestedBy: Option<string>, taskCount: int,
                                userDetails: Attempt<Option<Record>>): (p: Process)
    ensures p.id == processId && p.objectType == Some(objectType)
    ensures p.uploadedBy == requestedBy && p.createdBy == requestedBy
    ensures p.status == Some(NEW) && p.taskCount == Some(taskCount) && p.failureResult.None?
    ensures p.organisationId.Some? <==>
      userDetails.Ok? && userDetails.value.Some? && |userDetails.value.value| > 0
      && Get(userDetails.value.value, ROOT_ORG_ID).Str?
    ensures p.organisationId.Some? ==> Get(userDetails.value.value, ROOT_ORG_ID) == Str(p.organisationId.value)
  {
    var org :=
      if userDetails.Ok? && userDetails.value.Some? && |userDetails.value.value| > 0
      then
        match StringField(userDetails.value.value, ROOT_ORG_ID)
        case Ok(Some(id)) => Some(id)
        case _ => None
      else None;
    Process(processId, Some(objectType), requestedBy, requestedBy, org, Some(NEW), Some(taskCount), None)
  }

  /** handleUpload: creates the NEW job; a store answer other than SUCCESS is a server error. */
  method HandleUpload(store: ProcessStore, processId: string, objectType: string, createdBy: Option<string>,
                      userDetails: Attempt<Option<Record>>)
    returns (r: Attempt<Process>)
    modifies store
    ensures store.writes == old(store.writes) + [Created(GetBulkUploadProcess(processId, objectType, createdBy, 0, userDetails))]
    ensures r.Ok? ==> r.value == GetBulkUploadProcess(processId, objectType, createdBy, 0, userDetails)
    ensures r.Threw? ==> r.error == ServerError
  {
    var process := GetBulkUploadProcess(processId, objectType, createdBy, 0, userDetails);
    var ok := store.Create(process);
    if ok {
      r := Ok(process);
    } else {
      r := Threw(ServerError);
    }
  }

  /** The message that starts the background job. */
  datatype BackgroundRequest = BackgroundRequest(processId: string, operation: string, fields: seq<string>)

  /** processBulkUpload: records the task count on the job, then starts the background job. */
  method ProcessBulkUpload(store: ProcessStore, recordCount: int, processId: string, process: Process,
                           operation: string, allowedFields: seq<string>)
    returns (updated: Process, request: BackgroundRequest)
    modifies store
    ensures updated == process.(taskCount := Some(recordCount))
    ensures store.writes == old(store.writes) + [Updated(updated)]
    ensures request == BackgroundRequest(processId, operation, allowedFields)
  {
    updated := process.(taskCount := Some(recordCount));
    store.Update(updated);
    request := BackgroundRequest(processId, operation, allowedFields);
  }
}
