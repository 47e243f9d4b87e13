# Organisation bulk upload, modelled in Dafny

This project models the organisation bulk-upload pipeline of the Sunbird LMS service and
proves properties of the model. The pipeline has three parts:

- **Ingestion** (`BaseBulkUploadActor`). It validates the CSV header against the
  allowed columns, the mandatory columns and the alias map. It checks file size and empty
  files. It turns every kept line after the header into a NEW task with a running
  `sequenceId`, and writes the tasks in fixed-size batches. When a batch write fails, it
  falls back to one write per task.
- **Upload front end** (`OrgBulkUploadActor`). It builds the allowed-column list and the
  lower-cased alias map from the configured supported columns, and validates the header.
  It then creates the job record and decides whether the requester's root organisation
  supplies a channel. If there is no channel the job fails. Otherwise the rows are parsed
  and the background job starts.
- **Background pass** (`OrgBulkUploadBackgroundJobActor`). Every task that is neither
  COMPLETED nor without status is processed once. Its status word is normalised. An
  organisation is created when the row has no id and updated when it has one. For a
  completed task, the location names are merged into the success result. The task then
  gets a fresh `lastUpdatedOn` and `iterationId + 1`.

Modules, one per component: `Wrappers` (Option), `Text` (the Java string operations
used: `toLowerCase`, `trim`, `String.join`, `Integer.parseInt`), `BulkCommon` (the
dynamic record, the error codes, the status constants), `HeaderChecks`, `BulkStore` (the
task and job stores, the batch writer, the job records), `RecordParsing`
(`validateAndParseRecords`, `parseCsvFile`), `OrgUpload` and `OrgBackground`.

Modelling choices:

- **CSV input.** The CSV reader is a `CsvInput`: the lines it yields, then either end of
  input or an exception with a message. `ProjectUtil.isNotEmptyStringArray` is an opaque
  `skip` predicate. A line is dropped when the predicate returns true.
- **Stores.** The task store and the job store are classes that log every call. Each write
  may succeed or fail; the model chooses nondeterministically.
- **Downstream services.** The settings, the organisation client, the location client and
  the search service are functions passed in as arguments. For the background pass they
  are gathered in `OrgBackground.Services`. Every call to the organisation and location
  clients is returned in order, so "no create, update or location call" and "exactly one
  mutation" can be stated. The settings read is not recorded among the calls.
- **Tasks.** The tasks a background pass changes in place are objects of the class
  `OrgBackground.Task`. Their abstract value is `BulkStore.TaskRecord`. Each method of
  that class is proved equal to a function on `TaskRecord`, and the lemmas are about
  those functions.

In these places the code does something easy to miss, and the model follows it:

- **Location cache.** The location cache is created empty for each pass and read, but
  never written (`OrgBulkUploadBackgroundJobActor.java` lines 76 and 160-165). So every
  code goes to the location client, as often as it occurs. Two tasks whose rows name
  code "A" and that end COMPLETED make two lookups of "A" in one pass, not one
  (`RepeatedCodeAcrossTasks`). Within one task, every code in its list is looked up,
  repeats included (`EveryCodeGoesToClient`, `RepeatedCodeLookedUpTwice`).
- **Failed location lookup.** A failed lookup does not fail the task. The catch in
  `processOrg` swallows it, and a task whose organisation was created stays COMPLETED
  (`CreatedTaskStaysCompleted`).
- **Reprocessed FAILED task.** A task that is FAILED before the update call stays FAILED
  even when the update succeeds. Its data and success result are not written
  (`FailedTaskStaysFailedOnUpdate`).
- **Line after the header.** `validateFileHeaderFields` reads the line after the header
  without the skip predicate. A header followed only by a line that the predicate would
  skip still passes (`SkippedLineAfterHeaderCountsAsData`).

## Model

| member | source | states |
|---|---|---|
| HeaderChecks.ValidateBulkUploadFields | service/src/main/java/org/sunbird/actor/bulkupload/BaseBulkUploadActor.java:56-92 | passes iff the header is non-empty, every allowed field (lower-cased when toLower) occurs verbatim in the header when all fields are mandatory, and every header entry (lower-cased when toLower) is allowed; emptyHeaderLine exactly for an empty header; mandatoryParamsMissing names the first missing allowed field in list order; invalidColumns names the first offending entry with the comma-joined allowed list |
| HeaderChecks.HeaderVerdictIgnoresOrder | service/src/main/java/org/sunbird/actor/bulkupload/BaseBulkUploadActor.java:82-91 | permuting the header never changes whether it passes |
| HeaderChecks.ValidateMandatoryColumns | service/src/main/java/org/sunbird/actor/bulkupload/BaseBulkUploadActor.java:417-438 | passes iff every mandatory column is the alias-map image of some lower-cased header entry; otherwise mandatoryParamsMissing names the first mandatory column that is not |
| HeaderChecks.ValidateFileSizeAgainstLineNumbers | service/src/main/java/org/sunbird/actor/bulkupload/BaseBulkUploadActor.java:189-196 | errors iff actualLines > 0 and actualLines > maxLines, reporting maxLines - 1 in 32-bit int arithmetic |
| HeaderChecks.ValidateEmptyBulkUploadFile | service/src/main/java/org/sunbird/actor/bulkupload/BaseBulkUploadActor.java:204-219 | emptyFile iff the list is null or has fewer than two lines |
| HeaderChecks.TrimColumnAttributes | service/src/main/java/org/sunbird/actor/bulkupload/BaseBulkUploadActor.java:109-114 | every array entry is replaced by its trimmed text, in place |
| HeaderChecks.ValidateFileHeaderFields | service/src/main/java/org/sunbird/actor/bulkupload/BaseBulkUploadActor.java:372-415 | leading skipped lines are passed over; EOF before a header gives csvFileEmpty (a read exception gives its message); the trimmed header is validated, then the mandatory columns when given; no further raw line gives errorCsvNoDataRows |
| HeaderChecks.LeadingSkippedLinesIgnored | service/src/main/java/org/sunbird/actor/bulkupload/BaseBulkUploadActor.java:387-395 | lines the skip predicate drops, placed in front of the input, never change the verdict |
| HeaderChecks.SkippedLineAfterHeaderCountsAsData | service/src/main/java/org/sunbird/actor/bulkupload/BaseBulkUploadActor.java:403-407 | the line after the header is read without the skip predicate, so a header followed by a skipped line passes |
| Text.TrimEmptyIffBlank | service/src/main/java/org/sunbird/actor/bulkupload/BaseBulkUploadActor.java:269 | a value trims to the empty string iff every character is at most U+0020 |
| Text.ParseIntOfDecimal | service/src/main/java/org/sunbird/actor/bulkupload/BaseBulkUploadActor.java:225 | parseInt reads back every non-negative int written in decimal |
| RecordParsing.BatchSizeReadsConfig | service/src/main/java/org/sunbird/actor/bulkupload/BaseBulkUploadActor.java:221-230 | the batch size is the configured number when it parses, and 10 when the value is missing or not a number |
| RecordParsing.KeptMeaning | service/src/main/java/org/sunbird/actor/bulkupload/BaseBulkUploadActor.java:261-264 | every line the scan keeps is a line of the input that the skip predicate does not drop |
| RecordParsing.KeptKeepsUnskipped | service/src/main/java/org/sunbird/actor/bulkupload/BaseBulkUploadActor.java:261-264 | an input with no skipped lines is kept whole, in order |
| RecordParsing.CellMeaning | service/src/main/java/org/sunbird/actor/bulkupload/BaseBulkUploadActor.java:269 | a field is null exactly when it is blank; otherwise it is the non-empty trimmed text |
| RecordParsing.MapRowMeaning | service/src/main/java/org/sunbird/actor/bulkupload/BaseBulkUploadActor.java:268-277 | the record has the constant fields on top; every other key is the alias (or the header name) of a position below min(header length, line length), holding the trimmed-or-null value of the last such position |
| RecordParsing.PutRowFields | service/src/main/java/org/sunbird/actor/bulkupload/BaseBulkUploadActor.java:268-276 | the inner loop builds the positional record from an empty map, so nothing carries over between lines |
| RecordParsing.TrimmedHeader | service/src/main/java/org/sunbird/actor/bulkupload/BaseBulkUploadActor.java:266 | the first kept line is trimmed into the header columns |
| RecordParsing.SequenceIdsContiguous | service/src/main/java/org/sunbird/actor/bulkupload/BaseBulkUploadActor.java:278-284 | each kept line after the header becomes one NEW task of the job with sequenceId 1, 2, 3, ... in order and the mapped record as data |
| RecordParsing.ChunksShape | service/src/main/java/org/sunbird/actor/bulkupload/BaseBulkUploadActor.java:285-299 | the batches cover the tasks in order; each has at most the batch size and only the last may be shorter |
| RecordParsing.EveryTaskInOneBatch | service/src/main/java/org/sunbird/actor/bulkupload/BaseBulkUploadActor.java:285-299 | every created task is in exactly one batch, in order, none larger than the batch size |
| RecordParsing.AddTask | service/src/main/java/org/sunbird/actor/bulkupload/BaseBulkUploadActor.java:284-290 | a created task joins the pending list, which is written as one batch once it reaches the batch size and then cleared |
| RecordParsing.ScanLine | service/src/main/java/org/sunbird/actor/bulkupload/BaseBulkUploadActor.java:265-292 | the first kept line becomes the header and every later one a task, keeping the scan invariant |
| RecordParsing.ScanRows | service/src/main/java/org/sunbird/actor/bulkupload/BaseBulkUploadActor.java:261-294 | the loop counts the kept lines, creates the expected tasks and requests every full batch as it fills |
| RecordParsing.FlushPending | service/src/main/java/org/sunbird/actor/bulkupload/BaseBulkUploadActor.java:295-299 | the last partial batch is written once, so the requested batches are the chunking of all tasks |
| RecordParsing.FinishScan | service/src/main/java/org/sunbird/actor/bulkupload/BaseBulkUploadActor.java:295-307 | at EOF the pending tasks are flushed; on a read exception they are dropped, the job is updated to FAILED with the message and the exception is returned |
| RecordParsing.ValidateAndParseRecords | service/src/main/java/org/sunbird/actor/bulkupload/BaseBulkUploadActor.java:242-313 | returns the number of kept lines minus one; the task-store batches are the chunking of the expected tasks (only the full ones when reading fails); a read failure marks the job FAILED with the message and rethrows |
| RecordParsing.ParseCsvFile | service/src/main/java/org/sunbird/actor/bulkupload/BaseBulkUploadActor.java:144-179 | returns the kept lines untrimmed; a read failure marks the job FAILED with its message and rethrows |
| BulkStore.PerformBatchWrite | service/src/main/java/org/sunbird/actor/bulkupload/BaseBulkUploadActor.java:315-355 | one batch write; if it fails, one single-row write per record in record order; never throws |
| BulkStore.PerformBatchInsert | service/src/main/java/org/sunbird/actor/bulkupload/BaseBulkUploadActor.java:315-334 | requests exactly one batch of the records; what is written is all the records, or after a failed batch exactly those whose own insert succeeded |
| BulkStore.PerformBatchUpdate | service/src/main/java/org/sunbird/actor/bulkupload/BaseBulkUploadActor.java:336-355 | the same as the insert, for updates |
| BulkStore.FallbackWrites | service/src/main/java/org/sunbird/actor/bulkupload/BaseBulkUploadActor.java:321-332 | the fallback writes exactly the records whose own write succeeded, in order, and requests no batch |
| BulkStore.OneBadRecordLosesOnlyItself | service/src/main/java/org/sunbird/actor/bulkupload/BaseBulkUploadActor.java:319-333 | when only record k fails on its own write, every other record is written, in order |
| BulkStore.GetBulkUploadProcessForFailedStatus | service/src/main/java/org/sunbird/actor/bulkupload/BaseBulkUploadActor.java:116-123 | a job record with only the id, the status and the exception's message |
| BulkStore.GetBulkUploadProcess | service/src/main/java/org/sunbird/actor/bulkupload/BaseBulkUploadActor.java:485-512 | a NEW job of the object type for the requester with the given task count; the organisation is the user's root org id when the lookup returns a non-empty record whose root org id is a string; it is unset when the lookup fails, returns nothing or an empty record, or when the id is null or not a string (the swallowed ClassCastException) |
| BulkStore.HandleUpload | service/src/main/java/org/sunbird/actor/bulkupload/BaseBulkUploadActor.java:440-461 | creates the NEW job with task count 0; a store answer other than success is SERVER_ERROR |
| BulkStore.ProcessBulkUpload | service/src/main/java/org/sunbird/actor/bulkupload/BaseBulkUploadActor.java:463-483 | sets the task count, updates the job, then starts the background job with the process id and allowed fields |
| OrgUpload.CollectUniqueMeaning | service/src/main/java/org/sunbird/actor/bulkupload/OrgBulkUploadActor.java:73-79 | the lower-cased external-name map exists iff the lower-cased names are distinct (otherwise Collectors.toMap throws) and then maps each to its internal name |
| OrgUpload.InternalNamesLowerCase | service/src/main/java/org/sunbird/actor/bulkupload/OrgBulkUploadActor.java:80-84 | the forEach puts every internal name under its lower-cased form, a later entry replacing an earlier one |
| OrgUpload.InternalNamesMeaning | service/src/main/java/org/sunbird/actor/bulkupload/OrgBulkUploadActor.java:80-84 | every lower-cased internal name is a key; each key holds an internal name that lower-cases to it, the entry's own when internal names do not differ only in case |
| OrgUpload.SupportedColumnsList | service/src/main/java/org/sunbird/actor/bulkupload/OrgBulkUploadActor.java:86-90 | the list is each key of the alias map followed by its value, every key exactly once (no key repeats at two positions), and it holds exactly the map's keys and values |
| OrgUpload.AliasMapKeys | service/src/main/java/org/sunbird/actor/bulkupload/OrgBulkUploadActor.java:73-85 | the alias map's keys are exactly the lower-cased external and internal names, and its values are internal names |
| OrgUpload.AliasMapExternal | service/src/main/java/org/sunbird/actor/bulkupload/OrgBulkUploadActor.java:73-85 | a lower-cased external name that is not also a lower-cased internal name maps to its own internal name |
| OrgUpload.AliasMapInternal | service/src/main/java/org/sunbird/actor/bulkupload/OrgBulkUploadActor.java:80-85 | on a lower-cased internal name the internal entry wins over an external one |
| OrgUpload.AllowedColumnsFromConfig | service/src/main/java/org/sunbird/actor/bulkupload/OrgBulkUploadActor.java:69-90 | the allowed list holds every lower-cased external name, every lower-cased internal name, every internal name (when internal names do not differ only in case), and nothing else |
| OrgUpload.HeaderRuleFor | service/src/main/java/org/sunbird/actor/bulkupload/OrgBulkUploadActor.java:69-102 | with a config: the built list, case folding, its mandatory columns and the alias map, not all fields mandatory; without: the static allowed fields, case-sensitive, no mandatory check |
| OrgUpload.CheckUploadHeader | service/src/main/java/org/sunbird/actor/bulkupload/OrgBulkUploadActor.java:58-102 | the header is validated under the rule the config gives; a failing header returns that error |
| OrgUpload.GetUser | service/src/main/java/org/sunbird/actor/bulkupload/OrgBulkUploadActor.java:161-170 | any non-null result is returned, even an empty one; a null result is dereferenced and throws |
| OrgUpload.GetOrg | service/src/main/java/org/sunbird/actor/bulkupload/OrgBulkUploadActor.java:172-182 | a result only when it is non-null and non-empty |
| BulkCommon.StringField | service/src/main/java/org/sunbird/actor/bulkupload/OrgBulkUploadActor.java:130 | the (String) cast of a record entry: null, the string, or ClassCastException |
| OrgUpload.ChannelRule | service/src/main/java/org/sunbird/actor/bulkupload/OrgBulkUploadActor.java:127-138 | CHANNEL is added iff the user is found, its root org is found non-empty and that org's status is null or ACTIVE, and then it holds the org's channel |
| OrgUpload.NoRootOrgFailure | service/src/main/java/org/sunbird/actor/bulkupload/OrgBulkUploadActor.java:139-143 | the job becomes FAILED with errorNoRootOrgAssociated and nothing else changes |
| OrgUpload.ProcessOrgBulkUpload | service/src/main/java/org/sunbird/actor/bulkupload/OrgBulkUploadActor.java:116-159 | with no channel the job is updated to FAILED and errorNoRootOrgAssociated is thrown before any row is parsed; otherwise the rows are parsed with the alias map, lower-casing on and the channel as constant field, and the count becomes the job's task count |
| OrgUpload.StartJob | service/src/main/java/org/sunbird/actor/bulkupload/OrgBulkUploadActor.java:103-113 | the job record is created, then processOrgBulkUpload runs |
| OrgUpload.Upload | service/src/main/java/org/sunbird/actor/bulkupload/OrgBulkUploadActor.java:58-114 | a config that throws or a failing header leaves no job record and no task; otherwise the job is created first, and a successful upload updates it with the kept-line count minus one |
| OrgBackground.GetOrgStatus | service/src/main/java/org/sunbird/actor/bulkupload/OrgBulkUploadBackgroundJobActor.java:180-193 | an empty or missing status gives ACTIVE with the record unchanged; "inactive"/"active" in any case give INACTIVE/ACTIVE and remove the status key; any other word gives -1 with the record unchanged; a non-string status throws |
| OrgBackground.OrgStatusIgnoresCase | service/src/main/java/org/sunbird/actor/bulkupload/OrgBulkUploadBackgroundJobActor.java:182-186 | two status words that lower-case alike give the same org status |
| OrgBackground.OrgStatusValues | service/src/main/java/org/sunbird/actor/bulkupload/OrgBulkUploadBackgroundJobActor.java:180-193 | the result is ACTIVE, INACTIVE or -1; -1 exactly for a non-empty word other than active/inactive in any case |
| OrgBackground.AfterMandatoryCheck | service/src/main/java/org/sunbird/actor/bulkupload/OrgBulkUploadBackgroundJobActor.java:99-108 | the mandatory-field check changes at most the status and the failure result |
| OrgBackground.CreatePathOutcomes | service/src/main/java/org/sunbird/actor/bulkupload/OrgBulkUploadBackgroundJobActor.java:195-231 | one create call; an exception gives FAILED with its message; an empty id gives FAILED with internalError; otherwise COMPLETED with the row plus ORGANISATION_ID as success result |
| OrgBackground.UpdatePathOutcomes | service/src/main/java/org/sunbird/actor/bulkupload/OrgBulkUploadBackgroundJobActor.java:233-260 | one update call with ORGANISATION_ID in the row; an exception gives FAILED with ERROR_MSG in the row; success overwrites data and completes the task only if it is not FAILED already |
| OrgBackground.LookupNames | service/src/main/java/org/sunbird/actor/bulkupload/OrgBulkUploadBackgroundJobActor.java:158-167 | a completed lookup gives one name per code, and no more lookups are made than there are codes |
| OrgBackground.LookupNamesMeaning | service/src/main/java/org/sunbird/actor/bulkupload/OrgBulkUploadBackgroundJobActor.java:158-167 | each name is the cached name of its code or the client's name for it; only codes missing from the cache are looked up |
| OrgBackground.LookupNamesStops | service/src/main/java/org/sunbird/actor/bulkupload/OrgBulkUploadBackgroundJobActor.java:163-165 | once a lookup throws, the remaining codes change nothing |
| OrgBackground.EveryCodeGoesToClient | service/src/main/java/org/sunbird/actor/bulkupload/OrgBulkUploadBackgroundJobActor.java:159-166 | with the pass's never-written cache, every code is looked up at the client, in order, once per occurrence |
| OrgBackground.RepeatedCodeLookedUpTwice | service/src/main/java/org/sunbird/actor/bulkupload/OrgBulkUploadBackgroundJobActor.java:159-166 | a task whose list of location codes names "A" twice looks "A" up twice, since the cache is never written |
| OrgBackground.CompletedTaskLooksUpItsCode | service/src/main/java/org/sunbird/actor/bulkupload/OrgBulkUploadBackgroundJobActor.java:117-166 | a processed task whose location cell is one code and that ends COMPLETED makes its create or update call, then exactly one lookup of that code |
| OrgBackground.RepeatedCodeAcrossTasks | service/src/main/java/org/sunbird/actor/bulkupload/OrgBulkUploadBackgroundJobActor.java:74-166 | across one pass, a code is looked up once per completed task whose row names it: the pass's cache, created empty, never answers |
| OrgBackground.LocationMerging | service/src/main/java/org/sunbird/actor/bulkupload/OrgBulkUploadBackgroundJobActor.java:157-177 | only a COMPLETED task's success result changes, never its status; one code gives scalar LOCATION_NAME and the first code, any other count gives lists |
| OrgBackground.ProcessOrgOutcome | service/src/main/java/org/sunbird/actor/bulkupload/OrgBulkUploadBackgroundJobActor.java:97-145 | processing a task changes only its status, data and results |
| OrgBackground.InvalidStatusFailsWithoutCalls | service/src/main/java/org/sunbird/actor/bulkupload/OrgBulkUploadBackgroundJobActor.java:109-115 | an invalid status word gives FAILED with the record plus ERROR_MSG as failure result, and no create, update or location call |
| OrgBackground.DisabledStatusFails | service/src/main/java/org/sunbird/actor/bulkupload/OrgBulkUploadBackgroundJobActor.java:109-115 | the status "disabled" gives FAILED with no create, update or location call |
| OrgBackground.OneMutationPerTask | service/src/main/java/org/sunbird/actor/bulkupload/OrgBulkUploadBackgroundJobActor.java:130-138 | a processed task makes at most one mutation call, first, followed only by lookups; create iff the id is empty, update otherwise; no call when an exception comes first |
| OrgBackground.BranchCalls | service/src/main/java/org/sunbird/actor/bulkupload/OrgBulkUploadBackgroundJobActor.java:132-138 | the branch makes exactly one mutation, first (create for an empty id, update otherwise, with the row it builds), followed by location lookups only |
| OrgBackground.FailedTaskStaysFailedOnUpdate | service/src/main/java/org/sunbird/actor/bulkupload/OrgBulkUploadBackgroundJobActor.java:256-259 | a task that is FAILED when it takes the update path stays FAILED with its data, after exactly one update call |
| OrgBackground.CreatedTaskStaysCompleted | service/src/main/java/org/sunbird/actor/bulkupload/OrgBulkUploadBackgroundJobActor.java:137-145 | a task whose organisation was created stays COMPLETED with the new id whatever its location lookups do |
| OrgBackground.PassTask | service/src/main/java/org/sunbird/actor/bulkupload/OrgBulkUploadBackgroundJobActor.java:79-84 | a task with null or COMPLETED status is left untouched and makes no call; every other task gets iterationId + 1 (Java int) and the pass's time, whatever the outcome |
| OrgBackground.SettledTasksCallNothing | service/src/main/java/org/sunbird/actor/bulkupload/OrgBulkUploadBackgroundJobActor.java:78-85 | a pass over tasks that are all COMPLETED or without status calls no service |
| OrgBackground.PassTaskMutations | service/src/main/java/org/sunbird/actor/bulkupload/OrgBulkUploadBackgroundJobActor.java:79-84 | a task adds one mutation call to the pass when its processing reaches the create/update branch, none otherwise |
| OrgBackground.PassMutationCount | service/src/main/java/org/sunbird/actor/bulkupload/OrgBulkUploadBackgroundJobActor.java:78-85 | a pass makes exactly one mutation call per task that reaches the branch |
| OrgBackground.SecondPassSkipsCompleted | service/src/main/java/org/sunbird/actor/bulkupload/OrgBulkUploadBackgroundJobActor.java:79-80 | a second pass leaves a task the first pass completed exactly as it was, its iterationId included |
| OrgBackground.Task.ValidateMandatoryFields | service/src/main/java/org/sunbird/actor/bulkupload/OrgBulkUploadBackgroundJobActor.java:99-108 | the in-place check agrees with AfterMandatoryCheck |
| OrgBackground.Task.CallCreateOrg | service/src/main/java/org/sunbird/actor/bulkupload/OrgBulkUploadBackgroundJobActor.java:195-231 | the in-place create path agrees with CreateOutcome |
| OrgBackground.Task.CallUpdateOrg | service/src/main/java/org/sunbird/actor/bulkupload/OrgBulkUploadBackgroundJobActor.java:233-260 | the in-place update path agrees with UpdateOutcome |
| OrgBackground.Task.SetLocationInformation | service/src/main/java/org/sunbird/actor/bulkupload/OrgBulkUploadBackgroundJobActor.java:148-178 | the loop collecting names and the merge agree with LocationOutcome |
| OrgBackground.Task.Branch | service/src/main/java/org/sunbird/actor/bulkupload/OrgBulkUploadBackgroundJobActor.java:132-138 | the in-place create or update call followed by setLocationInformation agrees with BranchOutcome |
| OrgBackground.Task.ProcessOrg | service/src/main/java/org/sunbird/actor/bulkupload/OrgBulkUploadBackgroundJobActor.java:88-146 | the in-place processing agrees with ProcessOrgOutcome, calls included |
| OrgBackground.PassOne | service/src/main/java/org/sunbird/actor/bulkupload/OrgBulkUploadBackgroundJobActor.java:79-84 | one loop iteration agrees with PassTask |
| OrgBackground.PassAt | service/src/main/java/org/sunbird/actor/bulkupload/OrgBulkUploadBackgroundJobActor.java:78-84 | passing the task at one index agrees with PassTask and leaves every other task of the list unchanged |
| OrgBackground.ProcessTasks | service/src/main/java/org/sunbird/actor/bulkupload/OrgBulkUploadBackgroundJobActor.java:74-86 | every task ends as PassTask makes it, and the calls are those of the tasks in order, with a cache created empty and never written |

## Left out

- CSV decoding: OpenCSV, UTF-8 decoding and quotes (`getCsvReader`) are a foreign library. The input is the list of lines the reader yields, followed by EOF or an exception.
- `ProjectUtil.isNotEmptyStringArray` is not part of this model. It is the opaque `skip` predicate.
- Actor messaging (`onReceive`, `sender().tell`, `actorRef.tell`) is left out. Starting the background job is returned as a `BackgroundRequest` value, and the background pass is a plain call.
- Cassandra, Elasticsearch, the system-settings client, `OrganisationClient`, `LocationClient` and `UserService` are I/O. Their answers are arguments (functions or nondeterministic choices).
- JSON serialisation (`readValue`, `writeValueAsString`, `convertValue`) is not modelled. Task data and results are string-keyed maps that always parse. The conversion to `Organisation` and back, with the `OrgTypeEnum` translation, is the `organisationRow` function of `Services`.
- Timestamps, `getUniqueIdFromTimestamp`, `createdOn`, `uploadedDate` and `processStartTime` are left out. The process id and the pass's `lastUpdatedOn` time are arguments.
- `BaseBulkUploadBackgroundJobActor` is not part of this model. That covers `handleBulkUploadBackground`, `processBulkUpload` and the job-status rollup. `setTaskStatus` records the status and a failure result built by the `failureRecord` function. `setSuccessTaskStatus` records the status and the row. `validateMandatoryFields` is the `mandatoryFailure` function: it may mark the task FAILED, and processing then goes on.
- Logging and telemetry (`Util.initializeContext`) have no behaviour to model.
- ResponseCode message texts are not modelled. An error's message is the name of its code.
- Case folding and `equalsIgnoreCase` cover ASCII letters only.
- OrgBackground.ProcessTasks: requires the task list to hold distinct objects. The same task object twice in one list is not modelled.
- OrgBackground.Task.ProcessOrg: a location without a name (a null `getName()`) is not modelled. Location names are strings, and a null location throws.
- RecordParsing.NewTask: the upload never sets a new task's iterationId (`BaseBulkUploadActor.java` lines 278-283), and the type of that field is not part of this model. The model writes 0. If the field is a boxed integer left null, `getIterationId() + 1` in `processTasks` would throw outside `processOrg`'s catch and end the pass. That path is not modelled.
- BulkStore.ProcessStore.Update: the job store's update never fails in the model. In the source, the update inside the catch of `validateAndParseRecords` and the one in `processOrgBulkUpload` can throw, and the new exception then replaces the one being handled.
- OrgUpload.SupportedColumnsList: the configured column map is a map from strings to strings. A config value that is null or not a string is not modelled. In the source, such a value makes `v.toString()` throw a null dereference, or makes the cast in the list builder throw a ClassCastException.
- OrgBackground.Services: the "csv.mandatoryColumns" setting is one answer for the whole pass, which never throws and is not recorded among the calls. In the source, `processOrg` reads it for every task before the status check. A read that throws is swallowed by the catch in `processOrg`, and the task then keeps its old status, even one with an invalid status word. `InvalidStatusFailsWithoutCalls` and `DisabledStatusFails` rely on this read succeeding.
