/**
 * The connector's error kinds and the error reports that carry them.
 *
 * Errors travel as `error_stack` reports: a report has a current context,
 * and `change_context` puts a new context on top while keeping the old one
 * underneath. The caller sees the current context; the earlier ones remain
 * attached as causes. Only contexts that are connector errors are kept here:
 * the parsing and validation contexts of the platform's helper libraries are
 * not part of this model.
 */
module Errors {
  import opened Wrappers

  datatype ConnectorError =
    | FailedToObtainAuthType
    | RequestEncodingFailed
    | MissingRequiredField(fieldName: string)
    | MissingConnectorTransactionID
    | NotImplemented(message: string)
    | ResponseDeserializationFailed
    | ResponseHandlingFailed
    | WebhooksNotImplemented

  /** An error report: `current` is what the caller sees, `causes` the earlier contexts, newest first. */
  datatype Report = Report(current: ConnectorError, causes: seq<ConnectorError>)

  /** `CustomResult<T, ConnectorError>`. */
  type CustomResult<T> = Result<T, Report>

  /** A fresh report whose only context is `e`. */
  function Fail<T>(e: ConnectorError): (r: CustomResult<T>)
    ensures r.Err? && r.error.current == e && r.error.causes == []
  {
    Err(Report(e, []))
  }

  /** `change_context(e)`: a success passes through; a failure gets `e` on top of its old context. */
  function ChangeContext<T>(r: CustomResult<T>, e: ConnectorError): (s: CustomResult<T>)
    ensures s.Ok? <==> r.Ok?
    ensures r.Ok? ==> s == r
    ensures r.Err? ==> s.error.current == e && s.error.causes == [r.error.current] + r.error.causes
  {
    match r
    case Ok(v) => Ok(v)
    case Err(report) => Err(Report(e, [report.current] + report.causes))
  }

  /** `ok_or(e)` followed by `?` on a value the source reads from an Option. */
  function OkOr<T>(o: Option<T>, e: ConnectorError): (r: CustomResult<T>)
    ensures r.Ok? <==> o.Some?
    ensures o.Some? ==> r.value == o.value
    ensures o.None? ==> r == Fail(e)
  {
    match o
    case Some(v) => Ok(v)
    case None => Fail(e)
  }
}
