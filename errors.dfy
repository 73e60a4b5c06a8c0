/** Go `error` values as they flow through the solver: errors of the provider
    and the context wrappers added with `fmt.Errorf("...: %w", err)`. */
module Errors {

  /** The provider's API code for "object exists". */
  const ObjectExistsCode: int := 2302

  datatype Error =
    /** A `*goinwx.ErrorResponse`: the provider answered with an API error code. */
    | ApiError(code: int)
    /** Any other failure of a remote call (network, decoding, ...). */
    | TransportError
    /** getRecords: "unable to retrieve records for zone ..." */
    | RecordsUnavailable(zone: string, cause: Error)
    /** getZones: "failed to list nameserver zones (page ...)" */
    | ZonesPageFailed(page: nat, cause: Error)
    /** Present / CleanUp: "failed to login to INWX" */
    | LoginFailed(cause: Error)
    /** Present: "failed to create TXT record for <fqdn>" */
    | CreateFailed(fqdn: string, cause: Error)
    /** CleanUp: "failed to get records for zone <zone>" */
    | RecordsFailed(zone: string, cause: Error)
    /** CleanUp: "failed to delete TXT record <id>" */
    | DeleteFailed(id: nat, cause: Error)
  {
    /** The error wraps another one (it was built with `%w`). */
    predicate Wraps() {
      !ApiError? && !TransportError?
    }
  }

  /** The innermost error of a wrapping chain. */
  function RootCause(e: Error): (r: Error)
    ensures !r.Wraps()
    ensures !e.Wraps() ==> r == e
  {
    if e.Wraps() then RootCause(e.cause) else e
  }

  /** One wrapping context: the message a `%w` wrapper puts around its cause. */
  datatype Context =
    | InRecordsUnavailable(zone: string)
    | InZonesPageFailed(page: nat)
    | InLoginFailed
    | InCreateFailed(fqdn: string)
    | InRecordsFailed(zone: string)
    | InDeleteFailed(id: nat)

  /** `leaf` wrapped in the contexts of `cs`, outermost first. */
  function Wrap(cs: seq<Context>, leaf: Error): (e: Error)
    ensures cs != [] ==> e.Wraps()
  {
    if cs == [] then leaf
    else
      var inner := Wrap(cs[1..], leaf);
      match cs[0]
      case InRecordsUnavailable(zone) => RecordsUnavailable(zone, inner)
      case InZonesPageFailed(page) => ZonesPageFailed(page, inner)
      case InLoginFailed => LoginFailed(inner)
      case InCreateFailed(fqdn) => CreateFailed(fqdn, inner)
      case InRecordsFailed(zone) => RecordsFailed(zone, inner)
      case InDeleteFailed(id) => DeleteFailed(id, inner)
  }

  /** The contexts around an error's root cause, outermost first. */
  function Contexts(e: Error): seq<Context>
  {
    match e
    case ApiError(_) => []
    case TransportError => []
    case RecordsUnavailable(zone, c) => [InRecordsUnavailable(zone)] + Contexts(c)
    case ZonesPageFailed(page, c) => [InZonesPageFailed(page)] + Contexts(c)
    case LoginFailed(c) => [InLoginFailed] + Contexts(c)
    case CreateFailed(fqdn, c) => [InCreateFailed(fqdn)] + Contexts(c)
    case RecordsFailed(zone, c) => [InRecordsFailed(zone)] + Contexts(c)
    case DeleteFailed(id, c) => [InDeleteFailed(id)] + Contexts(c)
  }

  /** Unwrapping any stack of contexts reaches the error it was built around. */
  lemma {:induction false} RootCauseOfWrap(cs: seq<Context>, leaf: Error)
    requires !leaf.Wraps()
    ensures RootCause(Wrap(cs, leaf)) == leaf
    ensures Contexts(Wrap(cs, leaf)) == cs
    decreases |cs|
  {
    if cs != [] {
      RootCauseOfWrap(cs[1..], leaf);
      assert [cs[0]] + cs[1..] == cs;
    }
  }

  /** Every error is its root cause inside its contexts: the chain is
      determined by the two. */
  lemma {:induction false} WrapContexts(e: Error)
    ensures Wrap(Contexts(e), RootCause(e)) == e
  {
    match e
    case ApiError(_) =>
    case TransportError =>
    case RecordsUnavailable(_, c) => WrapContexts(c); assert Contexts(e)[1..] == Contexts(c);
    case ZonesPageFailed(_, c) => WrapContexts(c); assert Contexts(e)[1..] == Contexts(c);
    case LoginFailed(c) => WrapContexts(c); assert Contexts(e)[1..] == Contexts(c);
    case CreateFailed(_, c) => WrapContexts(c); assert Contexts(e)[1..] == Contexts(c);
    case RecordsFailed(_, c) => WrapContexts(c); assert Contexts(e)[1..] == Contexts(c);
    case DeleteFailed(_, c) => WrapContexts(c); assert Contexts(e)[1..] == Contexts(c);
  }
}
