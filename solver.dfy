/** The DNS-01 solver (`INWXDNSSolver`): record-name derivation, the
    "object exists" test, and the two lifecycle operations Present and CleanUp,
    each bracketed by a login and a deferred logout. */
module Solver {
  import opened Wrappers
  import opened Errors
  import opened Strings
  import opened Provider
  import opened Client

  /** TTL, in seconds, of the TXT records the solver creates. */
  const DefaultTTL: int := 60

  /** The part of cert-manager's challenge request the solver reads. Both
      names arrive with a trailing dot. */
  datatype ChallengeRequest = ChallengeRequest(resolvedFQDN: string, resolvedZone: string, key: string)

  /** What Present and CleanUp return: nil, or an error. */
  datatype Outcome = Pass | Fail(error: Error)

  /** extractRecordName: the record name relative to the zone, "" at the apex.
      Without the zone as a suffix the name is returned as it is. */
  function ExtractRecordName(dnsName: string, zone: string): (r: string)
    ensures dnsName == zone ==> r == ""
    ensures dnsName != zone && HasSuffix(dnsName, "." + zone) ==> r + "." + zone == dnsName
    ensures dnsName != zone && !HasSuffix(dnsName, "." + zone) ==> r == dnsName
  {
    if dnsName == zone then "" else TrimSuffix(dnsName, "." + zone)
  }

  /** isObjectExistsError: the first provider error in the wrapping chain
      (what `errors.As` finds) carries the code 2302. */
  function IsObjectExistsError(e: Error): (r: bool)
    ensures r <==> RootCause(e) == ApiError(ObjectExistsCode)
  {
    match e
    case ApiError(code) => code == ObjectExistsCode
    case TransportError => false
    case _ => IsObjectExistsError(e.cause)
  }

  /** The zone and the FQDN with one trailing dot removed. */
  function Zone(ch: ChallengeRequest): string {
    TrimSuffix(ch.resolvedZone, ".")
  }

  function Fqdn(ch: ChallengeRequest): string {
    TrimSuffix(ch.resolvedFQDN, ".")
  }

  /** The name of the challenge's TXT record, relative to its zone. */
  function RecordName(ch: ChallengeRequest): string {
    ExtractRecordName(Fqdn(ch), Zone(ch))
  }

  /** The create request Present sends. */
  function ChallengeRecord(ch: ChallengeRequest): RecordRequest {
    RecordRequest(Zone(ch), RecordName(ch), "TXT", ch.key, DefaultTTL)
  }

  /** The record CleanUp looks for: a TXT record of that name holding the key. */
  predicate IsChallengeRecord(rec: Record, name: string, key: string) {
    rec.rtype == "TXT" && rec.name == name && rec.content == key
  }

  /** The position of the first challenge record in `records`, if any. */
  function FirstMatch(records: seq<Record>, name: string, key: string): (m: Option<nat>)
    ensures m.Some? ==>
      && m.value < |records|
      && IsChallengeRecord(records[m.value], name, key)
      && forall j :: 0 <= j < m.value ==> !IsChallengeRecord(records[j], name, key)
    ensures m.None? ==> forall j :: 0 <= j < |records| ==> !IsChallengeRecord(records[j], name, key)
  {
    if records == [] then None
    else if IsChallengeRecord(records[0], name, key) then Some(0)
    else match FirstMatch(records[1..], name, key)
      case None => None
      case Some(k) => Some(k + 1)
  }

  /** The effect of a call sequence on the account: the account after it, the
      result returned, and the calls made on the provider. */
  datatype Run = Run(remote: Remote, outcome: Outcome, calls: seq<Call>)

  /** Present, between login and logout: one create request; "object exists"
      counts as success. */
  function PresentInSession(rm: Remote, ch: ChallengeRequest): Run {
    var (after, err) := Create(rm, ChallengeRecord(ch));
    var outcome :=
      if err.None? || IsObjectExistsError(err.value) then Pass
      else Fail(CreateFailed(Fqdn(ch), err.value));
    Run(after, outcome, [CreateRecord(ChallengeRecord(ch))])
  }

  /** CleanUp, between login and logout: list the zone's records and delete the
      first challenge record holding the key, if there is one. */
  function CleanUpInSession(rm: Remote, ch: ChallengeRequest): Run {
    var zone := Zone(ch);
    match RecordsOf(rm, zone)
    case Failure(e) => Run(rm, Fail(RecordsFailed(zone, e)), [GetRecords(zone)])
    case Success(records) =>
      match FirstMatch(records, RecordName(ch), ch.key)
      case None => Run(rm, Pass, [GetRecords(zone)])
      case Some(k) =>
        var id := records[k].id;
        var (after, err) := Delete(rm, id);
        Run(after, if err.Some? then Fail(DeleteFailed(id, err.value)) else Pass, [GetRecords(zone), DeleteRecord(id)])
  }

  /** A session around `body`: a failed login returns at once; otherwise the
      body runs and logout follows, whatever the body returned and whatever
      logout answers. */
  function InSession(rm: Remote, body: Run): Run {
    if rm.loginError.Some? then Run(rm, Fail(LoginFailed(rm.loginError.value)), [Call.Login])
    else Run(body.remote, body.outcome, [Call.Login] + body.calls + [Call.Logout])
  }

  function PresentRun(rm: Remote, ch: ChallengeRequest): Run {
    InSession(rm, PresentInSession(rm, ch))
  }

  function CleanUpRun(rm: Remote, ch: ChallengeRequest): Run {
    InSession(rm, CleanUpInSession(rm, ch))
  }

  class DnsSolver {
    const client: ClientWrapper

    /** NewSolverWithClient */
    constructor (client: ClientWrapper)
      ensures this.client == client
    {
      this.client := client;
    }

    /** The deferred logout: its failure is only logged. */
    method CloseSession()
      modifies client`log
      ensures client.log == old(client.log) + [Call.Logout]
    {
      var err := client.Logout();
    }

    /** Present creates the challenge's TXT record. */
    method Present(ch: ChallengeRequest) returns (r: Outcome)
      requires client.Valid()
      modifies client`remote, client`log
      ensures client.Valid()
      ensures var run := PresentRun(old(client.remote), ch);
        client.remote == run.remote && r == run.outcome && client.log == old(client.log) + run.calls
    {
      var zone := TrimSuffix(ch.resolvedZone, ".");
      var fqdn := TrimSuffix(ch.resolvedFQDN, ".");
      var loginErr := client.Login();
      if loginErr.Some? {
        return Fail(LoginFailed(loginErr.value));
      }
      var recordName := ExtractRecordName(fqdn, zone);
      var err := client.CreateRecord(RecordRequest(zone, recordName, "TXT", ch.key, DefaultTTL));
      if err.None? {
        r := Pass;
      } else if IsObjectExistsError(err.value) {
        r := Pass;
      } else {
        r := Fail(CreateFailed(fqdn, err.value));
      }
      CloseSession();
    }

    /** CleanUp deletes the challenge's TXT record and no other. */
    method CleanUp(ch: ChallengeRequest) returns (r: Outcome)
      requires client.Valid()
      modifies client`remote, client`log
      ensures client.Valid()
      ensures var run := CleanUpRun(old(client.remote), ch);
        client.remote == run.remote && r == run.outcome && client.log == old(client.log) + run.calls
    {
      var zone := TrimSuffix(ch.resolvedZone, ".");
      var fqdn := TrimSuffix(ch.resolvedFQDN, ".");
      var loginErr := client.Login();
      if loginErr.Some? {
        return Fail(LoginFailed(loginErr.value));
      }

      var records := client.GetRecords(zone);
      if records.Failure? {
        r := Fail(RecordsFailed(zone, records.error));
      } else {
        var recordName := ExtractRecordName(fqdn, zone);
        r := DeleteFirstMatch(records.value, recordName, ch.key);
      }
      CloseSession();
    }

    /** The scan of CleanUp: delete the first challenge record of `records`
        holding `key` and stop; with none, change nothing. */
    method DeleteFirstMatch(records: seq<Record>, name: string, key: string) returns (r: Outcome)
      requires client.Valid()
      modifies client`remote, client`log
      ensures client.Valid()
      ensures var m := FirstMatch(records, name, key);
        if m.None? then
          r == Pass && client.remote == old(client.remote) && client.log == old(client.log)
        else
          var id := records[m.value].id;
          var (after, err) := Delete(old(client.remote), id);
          && client.remote == after
          && r == (if err.Some? then Fail(DeleteFailed(id, err.value)) else Pass)
          && client.log == old(client.log) + [DeleteRecord(id)]
    {
      for i := 0 to |records|
        invariant forall j :: 0 <= j < i ==> !IsChallengeRecord(records[j], name, key)
        invariant client.remote == old(client.remote) && client.log == old(client.log)
      {
        var rec := records[i];
        if IsChallengeRecord(rec, name, key) {
          assert FirstMatch(records, name, key) == Some(i);
          var err := client.DeleteRecord(rec.id);
          if err.Some? {
            return Fail(DeleteFailed(rec.id, err.value));
          }
          return Pass;
        }
      }
      assert FirstMatch(records, name, key) == None;
      return Pass;
    }
  }
}
