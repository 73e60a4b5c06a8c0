# cert-manager-webhook-inwx: challenge-record reconciliation, modelled in Dafny

This project models the core of an ACME DNS-01 responder for cert-manager that
publishes challenge records at the DNS provider INWX (RFC 8555, section 8.4):

- **Record names** (`Solver.ExtractRecordName`): the TXT record's name relative to
  its zone, "" at the zone apex; names arrive with one trailing dot, which is
  stripped first (`Strings.TrimSuffix`).
- **Present** (`Solver.DnsSolver.Present`): log in, create one TXT record
  (zone, relative name, key, TTL 60), treat the provider's "object exists"
  error (API code 2302, found anywhere in the error chain) as success, then log
  out in a deferred step whose failure is only logged.
- **CleanUp** (`Solver.DnsSolver.CleanUp`): log in, list the zone's records
  live, delete only the first record that is a TXT record with the derived
  name AND the challenge key, succeed when there is none, then log out.
- **Zone listing** (`Client.ClientWrapper.GetZones`): a cache with a five-minute
  TTL, and a paging loop that asks for pages 1, 2, ... of 100 zones and stops
  after an empty page or once it holds the count the provider reports.

The client interface (`AbstractClientWrapper`) is the class
`Client.ClientWrapper` over an in-memory INWX account (`Provider.Remote`): its
records, the pages its zone listing returns, and for each remote call an
optional failure that the call reports instead of doing its work. Every call
the client makes on the account is appended to the field `log`, so the
session discipline (login first, logout exactly once and last) and the page
requests are stated on that log. The account rejects a create request for a
record identical to one it holds with API error 2302, as INWX does.

Present and CleanUp are methods proved against the functions `Solver.PresentRun`
and `Solver.CleanUpRun`, which give the account afterwards, the result and the
calls made. The properties are lemmas about those functions
(`solver_properties.dfy`). `GetZones` is proved against `Client.LookupZones`
and `Client.Paginate`; the paging loop's result is characterised without the
loop by `Client.ListAllZones`.

A name other than the zone itself that does not end in "." + zone comes back
unchanged. The zone listing
is the plain concatenation of the pages, duplicates included.

Files: `wrappers.dfy` (Option, Result), `strings.dfy` (Go's `strings` helpers),
`errors.dfy` (Go error values and their wrapping), `provider.dfy` (the
in-memory account), `client_wrapper.dfy` (client, paging, zone cache),
`solver.dfy` (the solver), `solver_properties.dfy` (its properties).

## Model

| member | source | states |
|---|---|---|
| Strings.TrimSuffix | inwx/solver.go:74-75 | the result with the suffix appended back is the input when the input ends with the suffix; otherwise the input is returned unchanged |
| SolverProperties.TrimOneTrailingDot | inwx/solver.go:113-114 | normalising a name removes its last character exactly when that is a dot, and nothing otherwise |
| SolverProperties.TrimOneTrailingDotExample | inwx/solver.go:74-75 | at most one trailing dot is removed: "example.com.." becomes "example.com." |
| Solver.ExtractRecordName | inwx/solver.go:150-155 | "" at the apex; for a name ending in "." + zone, the result followed by "." + zone is the name; any other name comes back unchanged |
| SolverProperties.ExtractRecordNameOfLabel | inwx/solver.go:154 | for any prefix, the name prefix + "." + zone yields exactly that prefix, multi-label prefixes included |
| SolverProperties.ExtractRecordNameExamples | inwx/solver_test.go:151-156 | the four names of the unit test, including the apex and a two-level sub-name |
| Errors.RootCause | inwx/solver.go:158-159 | the innermost error of a wrapping chain is not itself a wrapper, and an error that wraps nothing is its own root cause |
| Errors.RootCauseOfWrap | inwx/solver.go:158-159 | for every stack of `%w` contexts around an unwrapped error, unwrapping reaches exactly that error and recovers exactly that stack |
| Errors.WrapContexts | inwx/solver.go:158-159 | every error is its root cause inside its contexts, so the pair determines the chain |
| Solver.IsObjectExistsError | inwx/solver.go:157-163 | true exactly when the error found at the end of the wrapping chain is a provider API error with code 2302 |
| SolverProperties.ObjectExistsThroughWrappers | inwx/solver.go:157-163 | under every stack of wrappers, an API error is "object exists" iff its code is 2302, and a transport error never is |
| Solver.IsChallengeRecord | inwx/solver.go:135 | the record CleanUp looks for is of type TXT, has the record name and holds the key (used by FirstMatch and the CleanUp lemmas) |
| Solver.Zone | inwx/solver.go:74 | the resolved zone with one trailing dot removed (stated by TrimOneTrailingDot) |
| Solver.Fqdn | inwx/solver.go:75 | the resolved FQDN with one trailing dot removed (stated by TrimOneTrailingDot) |
| Solver.RecordName | inwx/solver.go:88 | the record name: ExtractRecordName of the normalised FQDN and zone, used by Present and again by CleanUp (solver.go:132) |
| Solver.ChallengeRecord | inwx/solver.go:90-96 | the create request Present sends; its fields are stated by ChallengeRecordFields |
| Solver.InSession | inwx/solver.go:79-86 | login first: a failure is returned wrapped as LoginFailed with no further call; otherwise the body runs and one logout follows it (properties in SessionAroundBody and LogoutFailureIgnored) |
| Solver.PresentInSession | inwx/solver.go:88-106 | one create call for the challenge record; passes when it succeeds or reports "object exists", otherwise the error wrapped with the FQDN (properties in PresentOutcome) |
| Solver.PresentRun | inwx/solver.go:73-107 | Present as a function of the account: its body inside a session (properties in PresentSession, PresentOutcome, PresentLeavesChallengeRecord, PresentTwice) |
| Solver.CleanUpInSession | inwx/solver.go:127-145 | one listing call; a listing failure wrapped with the zone; otherwise the first challenge record is deleted by identifier, or nothing when there is none (properties in CleanUpRemovesFirstMatchOnly) |
| Solver.CleanUpRun | inwx/solver.go:112-146 | CleanUp as a function of the account: its body inside a session (properties in CleanUpSession, CleanUpRemovesFirstMatchOnly, CleanUpKeepsSiblingChallenge) |
| Solver.FirstMatch | inwx/solver.go:134-135 | the index returned holds a TXT record with the name and key and every earlier record is not one; None means no record is one |
| Solver.DnsSolver.constructor | inwx/solver.go:30-35 | the solver uses the client it is given |
| Solver.DnsSolver.CloseSession | inwx/solver.go:82-86 | the deferred logout makes one logout call and its error is dropped |
| Solver.DnsSolver.Present | inwx/solver.go:73-107 | account afterwards, result and calls made are those of PresentRun on the account before |
| Solver.DnsSolver.CleanUp | inwx/solver.go:112-146 | account afterwards, result and calls made are those of CleanUpRun on the account before |
| Solver.DnsSolver.DeleteFirstMatch | inwx/solver.go:132-145 | the loop deletes the record at FirstMatch and returns; with no match it changes nothing and succeeds; a delete error is returned with the record identifier |
| SolverProperties.SessionAroundBody | inwx/solver.go:79-86 | a failed login returns LoginFailed with no other call; otherwise the body's calls are bracketed by one login and one final logout, and the body's result is returned |
| SolverProperties.SessionChanges | inwx/solver.go:121-125 | a session creates and deletes exactly what its body does, and nothing after a failed login |
| SolverProperties.PresentSession | inwx/solver.go:79-96 | Present's calls are bracketed; exactly one create request (the challenge record) after a successful login, none after a failed one, and no deletion |
| SolverProperties.ChallengeRecordFields | inwx/solver.go:88-96 | the create request has Domain = zone without trailing dot, Name = extractRecordName(fqdn, zone), Type TXT, Content = key, TTL 60 |
| SolverProperties.CleanUpSession | inwx/solver.go:118-145 | CleanUp's calls are bracketed; it never creates and deletes at most one record; a failed login changes nothing |
| SolverProperties.LogoutFailureIgnored | inwx/solver.go:82-86 | a failing logout changes neither the result, nor the records, nor the calls of Present and CleanUp |
| SolverProperties.PresentOutcome | inwx/solver.go:79-103 | Present succeeds iff login succeeds and create succeeds or fails with "object exists"; a login error and any other create error are returned wrapped |
| SolverProperties.PresentLeavesChallengeRecord | inwx/solver.go:90-106 | after Present with working login and create, the challenge record is in the account, no record was removed and at most one was added |
| SolverProperties.PresentTwice | inwx/solver.go:97-101 | once Present has succeeded, Present of the same challenge succeeds again and adds no record |
| SolverProperties.CleanUpRemovesFirstMatchOnly | inwx/solver.go:127-145 | CleanUp removes exactly the first matching record of the zone listing (multiset difference), or nothing when there is none, a listing error or a delete error; each outcome's result |
| SolverProperties.CleanUpKeepsSiblingChallenge | inwx/solver.go:134-135 | a record holding another key survives CleanUp, whatever else happens |
| SolverProperties.PresentThenCleanUp | inwx/solver_test.go:81-104 | Present then CleanUp give the account back its records; a second CleanUp succeeds and deletes nothing |
| SolverProperties.ConcurrentChallengesIndependent | inwx/solver_test.go:106-134 | two keys for one name give two records; CleanUp of the first leaves exactly the second key's record |
| Client.RecordsOf | inwx/client_wrapper.go:41-47 | getRecords succeeds iff the account's listing does; a failure is the account's error wrapped with the zone |
| Client.RecordsOfZone | inwx/client_wrapper.go:42-46 | a successful getRecords returns exactly the account's records of the zone asked for: each one returned is in the account and in the zone, and each such record is returned |
| Client.Paginate | inwx/client_wrapper.go:56-73 | the paging loop from a page ends at that page or later, keeps what it had gathered as a prefix of the listing, and a failure names a page whose request failed with that error |
| Client.CacheFresh | inwx/client_wrapper.go:50 | the cache is served while it is non-nil and less than five minutes old |
| Client.LookupZones | inwx/client_wrapper.go:49-79 | a fresh cache is returned as it is with no request; otherwise at least one page is requested; success caches the result stamped with the clock read after the last page; failure keeps cache and timestamp and reports a page error |
| Client.PageRequests | inwx/client_wrapper.go:56-62 | the page requests are for pages 1, 2, ..., n in order, each for domain "*" with page limit 100 |
| Client.PaginateFrom | inwx/client_wrapper.go:57-73 | the paging loop from any page ends at the first page after which a listing does not go on, with the zones of all pages so far in page order, or at the failed page |
| Client.ListAllZones | inwx/client_wrapper.go:55-73 | a full listing holds the concatenation of pages 1..last, last is the first page that is empty or reaches the reported count, and a failure names the first failing page |
| Client.TwoPageListing | inwx/client_wrapper.go:66-71 | 150 zones over pages of 100: two pages are read, all 150 zones are returned, later pages are never asked for |
| Client.SecondLookupWithinTTLIsCached | inwx/client_wrapper.go:50-53 | after a successful fetch, a call less than five minutes after that fetch ended requests no page and returns the same list |
| Client.ExpiredCacheIsRefetched | inwx/client_wrapper.go:50 | with no cache or at least five minutes elapsed, the listing is read again from page 1 |
| Client.EmptyListingIsCached | inwx/client_wrapper.go:55-76 | an empty first page ends the listing whatever count it reports; the empty listing is cached as an empty list stamped with the end of the fetch and then served without a request |
| Client.FailedListingKeepsCache | inwx/client_wrapper.go:63-65 | a page failure leaves cache and timestamp unchanged and reports the failing page with its error |
| Client.ClientWrapper.GetZones | inwx/client_wrapper.go:49-79 | result, cache, timestamp and page requests are those of LookupZones: cached while fresh at the time of the call, otherwise Paginate from page 1, and the cache replaced only on success, stamped with the clock read after the last page |
| Client.ClientWrapper.constructor | inwx/client_wrapper.go:27-31 | a new client has no zone cache (nil) and has made no call |
| Client.ClientWrapper.Login | inwx/client_wrapper.go:33-35 | one login call; the account's login outcome |
| Client.ClientWrapper.Logout | inwx/client_wrapper.go:37-39 | one logout call; the account's logout outcome |
| Client.ClientWrapper.GetRecords | inwx/client_wrapper.go:41-47 | one listing call; the zone's records in order, or the failure wrapped with the zone |
| Client.ClientWrapper.CreateRecord | inwx/client_wrapper.go:81-84 | one create call; the account changes as the provider's create does |
| Client.ClientWrapper.DeleteRecord | inwx/client_wrapper.go:86-88 | one delete call; the account changes as the provider's delete does |

## Left out

- Process bootstrap (`main.go`), `Initialize` (environment variables, the
  sandbox flag, building the goinwx client, the startup zone listing that is
  only logged), `Name()` and `NewSolver`: glue with no reconciliation logic.
- The goinwx library and its XML-RPC transport: the in-memory account stands in
  for INWX. Its duplicate detection (2302 for an identical record) is an
  assumption about the provider, not code of this repository.
- Logging and the text of error messages: errors are the datatype `Errors.Error`
  carrying zone, FQDN, record identifier or page.
- Wall-clock time: `GetZones` takes its two clock readings (on entry, and after
  the last page) as integer numbers of seconds; the TTL is 300 seconds.
- Concurrency: the unguarded zone cache and races between concurrent calls are
  not modelled; concurrent challenges appear only as calls in sequence.
- `getZones` returns a pointer to the slice it also keeps as the cache, so a
  caller writing through it would change the cache; the model returns the list
  as a value, not aliased with the cache. The only caller reads the list.
- Record identifiers are natural numbers handed out by the account, not strings.
- An injected failure of the account applies to every call of that kind.
- The provider's zone listing is a finite sequence of page answers and every
  later page is empty; this is what bounds the paging loop, which has no bound
  of its own.
- getZones is not called by Present or CleanUp (only by `Initialize`), so its
  cache is not part of the solver's runs.
- The unit test's expected TTL of 300 (inwx/solver_test.go:41) belongs to the
  test double, not to the solver, which sends 60.
