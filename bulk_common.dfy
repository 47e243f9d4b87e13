/** Values shared by the bulk-upload actors: the dynamic record a CSV row becomes
    (Java's Map<String, Object>), the error codes the actors raise, and the status
    constants of jobs, tasks and organisations. */
module BulkCommon {
  import opened Wrappers

  /** An entry of a Map<String, Object> as the bulk-upload code meets it. */
  datatype Value = Null | Str(s: string) | Num(n: int) | Strs(items: seq<string>)

  type Record = map<string, Value>

  /** Map.get: an absent key reads as null. */
  function Get(r: Record, key: string): (v: Value)
    ensures key !in r ==> v == Null
  {
    if key in r then r[key] else Null
  }

  /** The exceptions the core raises. ProjectCommonException codes are named after the
      ResponseCode constant; any other Java exception is Unexpected with its message. */
  datatype Error =
    | EmptyHeaderLine
    | MandatoryParamsMissing(field: string)
    | InvalidColumns(column: string, validColumns: string)
    | DataSizeError(maxAllowed: int)
    | EmptyFile
    | CsvFileEmpty
    | ErrorCsvNoDataRows
    | ErrorNoRootOrgAssociated
    | ServerError
    | Unexpected(message: string)

  /** The outcome of a check that either returns or throws. */
  datatype Check = Pass | Fail(error: Error)

  /** The outcome of a call that either returns a value or throws. */
  datatype Attempt<+T> = Ok(value: T) | Threw(error: Error)

  /** Exception.getMessage(). ResponseCode's message texts are not part of this model;
      a code's message is represented by the code's name. */
  function MessageOf(e: Error): string
  {
    match e
    case Unexpected(m) => m
    case EmptyHeaderLine => "emptyHeaderLine"
    case MandatoryParamsMissing(_) => "mandatoryParamsMissing"
    case InvalidColumns(_, _) => "invalidColumns"
    case DataSizeError(_) => "dataSizeError"
    case EmptyFile => "emptyFile"
    case CsvFileEmpty => "csvFileEmpty"
    case ErrorCsvNoDataRows => "errorCsvNoDataRows"
    case ErrorNoRootOrgAssociated => "errorNoRootOrgAssociated"
    case ServerError => "SERVER_ERROR"
  }

  const INVALID_ORG_STATUS_MESSAGE: string := "invalidOrgStatus"
  const INTERNAL_ERROR_MESSAGE: string := "internalError"

  // ProjectUtil.BulkProcessStatus
  const NEW: int := 0
  const IN_PROGRESS: int := 1
  const COMPLETED: int := 3
  const FAILED: int := 9

  // ProjectUtil.OrgStatus
  const INACTIVE: int := 0
  const ACTIVE: int := 1

  // JsonKey constants used as record keys and status words
  const STATUS: string := "status"
  const CHANNEL: string := "channel"
  const ROOT_ORG_ID: string := "rootOrgId"
  const ORGANISATION_ID: string := "organisationId"
  const LOCATION_CODE: string := "locationCode"
  const LOCATION_NAME: string := "locationName"
  const ERROR_MSG: string := "err_msg"
  const ORGANISATION: string := "organisation"
  const ACTIVE_WORD: string := "active"
  const INACTIVE_WORD: string := "inactive"

  /** Stands for the exception a null dereference raises. */
  const NULL_DEREF: string := "null dereference"

  /** The message of a ClassCastException. */
  const CLASS_CAST: string := "ClassCastException"

  /** (String) record.get(key): a string, null, or a ClassCastException. */
  function StringField(r: Record, key: string): (s: Attempt<Option<string>>)
    ensures s == Ok(None) <==> Get(r, key) == Null
    ensures s.Ok? && s.value.Some? <==> Get(r, key).Str?
    ensures Get(r, key).Str? ==> s == Ok(Some(Get(r, key).s))
  {
    match Get(r, key)
    case Null => Ok(None)
    case Str(v) => Ok(Some(v))
    case _ => Threw(Unexpected(CLASS_CAST))
  }
}
