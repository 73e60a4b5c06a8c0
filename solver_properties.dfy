/** What the solver promises, proved of Present and CleanUp as the Solver
    module defines them. */
module SolverProperties {
  import opened Wrappers
  import opened Errors
  import opened Strings
  import opened Provider
  import opened Client
  import opened Solver

  // ---------------------------------------------------------------------------
  // Names

  /** A name under the zone gives back exactly the labels in front of the zone,
      however many there are. */
  lemma ExtractRecordNameOfLabel(prefix: string, zone: string)
    ensures ExtractRecordName(prefix + "." + zone, zone) == prefix
  {
  }

  /** The names the solver's unit tests expect. */
  lemma ExtractRecordNameExamples()
    ensures ExtractRecordName("_acme-challenge.example.com", "example.com") == "_acme-challenge"
    ensures ExtractRecordName("_acme-challenge.sub.example.com", "example.com") == "_acme-challenge.sub"
    ensures ExtractRecordName("example.com", "example.com") == ""
    ensures ExtractRecordName("_acme-challenge.deep.sub.example.com", "example.com") == "_acme-challenge.deep.sub"
  {
    assert "_acme-challenge" + "." + "example.com" == "_acme-challenge.example.com";
    assert "_acme-challenge.sub" + "." + "example.com" == "_acme-challenge.sub.example.com";
    assert "_acme-challenge.deep.sub" + "." + "example.com" == "_acme-challenge.deep.sub.example.com";
    ExtractRecordNameOfLabel("_acme-challenge", "example.com");
    ExtractRecordNameOfLabel("_acme-challenge.sub", "example.com");
    ExtractRecordNameOfLabel("_acme-challenge.deep.sub", "example.com");
  }

  /** Normalising a name removes one trailing dot, and only one. */
  lemma TrimOneTrailingDot(s: string)
    ensures |s| > 0 && s[|s| - 1] == '.' ==> TrimSuffix(s, ".") == s[..|s| - 1]
    ensures !(|s| > 0 && s[|s| - 1] == '.') ==> TrimSuffix(s, ".") == s
  {
  }

  lemma TrimOneTrailingDotExample()
    ensures TrimSuffix("example.com..", ".") == "example.com."
    ensures TrimSuffix("example.com", ".") == "example.com"
  {
  }

  // ---------------------------------------------------------------------------
  // Errors

  /** A provider error stays recognisable as "object exists" under any stack
      of wrappers, no other provider code is, and a transport error never is. */
  lemma ObjectExistsThroughWrappers(cs: seq<Context>, code: int)
    ensures IsObjectExistsError(Wrap(cs, ApiError(code))) <==> code == ObjectExistsCode
    ensures !IsObjectExistsError(Wrap(cs, TransportError))
  {
    RootCauseOfWrap(cs, ApiError(code));
    RootCauseOfWrap(cs, TransportError);
  }

  // ---------------------------------------------------------------------------
  // Sessions

  /** The calls of one Present or CleanUp: a login first; after a successful
      login, one logout last; neither anywhere else. */
  predicate SessionBracketed(calls: seq<Call>) {
    && |calls| >= 1
    && calls[0] == Call.Login
    && (|calls| > 1 ==> calls[|calls| - 1] == Call.Logout)
    && forall i :: 0 < i < |calls| - 1 ==> !calls[i].Login? && !calls[i].Logout?
  }

  /** The create requests among `calls`, in order. */
  function Creates(calls: seq<Call>): seq<RecordRequest> {
    if calls == [] then []
    else (if calls[0].CreateRecord? then [calls[0].request] else []) + Creates(calls[1..])
  }

  /** The identifiers deleted among `calls`, in order. */
  function Deletes(calls: seq<Call>): seq<nat> {
    if calls == [] then []
    else (if calls[0].DeleteRecord? then [calls[0].id] else []) + Deletes(calls[1..])
  }

  lemma {:induction false} CreatesAppend(a: seq<Call>, b: seq<Call>)
    ensures Creates(a + b) == Creates(a) + Creates(b)
  {
    if a == [] {
      assert a + b == b;
    } else {
      assert (a + b)[1..] == a[1..] + b;
      CreatesAppend(a[1..], b);
      assert (a + b)[0] == a[0];
    }
  }

  lemma {:induction false} DeletesAppend(a: seq<Call>, b: seq<Call>)
    ensures Deletes(a + b) == Deletes(a) + Deletes(b)
  {
    if a == [] {
      assert a + b == b;
    } else {
      assert (a + b)[1..] == a[1..] + b;
      DeletesAppend(a[1..], b);
      assert (a + b)[0] == a[0];
    }
  }

  /** The create requests and deletions of a session are those of its body. */
  lemma SessionChanges(rm: Remote, body: Run)
    ensures var run := InSession(rm, body);
      && Creates(run.calls) == (if rm.loginError.None? then Creates(body.calls) else [])
      && Deletes(run.calls) == (if rm.loginError.None? then Deletes(body.calls) else [])
  {
    if rm.loginError.None? {
      CreatesAppend([Call.Login], body.calls);
      CreatesAppend([Call.Login] + body.calls, [Call.Logout]);
      DeletesAppend([Call.Login], body.calls);
      DeletesAppend([Call.Login] + body.calls, [Call.Logout]);
      assert Creates([Call.Login]) == [] + Creates([]);
      assert Creates([Call.Logout]) == [] + Creates([]);
      assert Deletes([Call.Login]) == [] + Deletes([]);
      assert Deletes([Call.Logout]) == [] + Deletes([]);
    }
  }

  lemma {:induction false} SessionAroundBody(rm: Remote, body: Run)
    requires forall i :: 0 <= i < |body.calls| ==> !body.calls[i].Login? && !body.calls[i].Logout?
    ensures var run := InSession(rm, body);
      && SessionBracketed(run.calls)
      && (|run.calls| > 1 <==> rm.loginError.None?)
      && (rm.loginError.Some? ==> run.remote == rm && run.outcome == Fail(LoginFailed(rm.loginError.value)))
      && (rm.loginError.None? ==> run.remote == body.remote && run.outcome == body.outcome)
  {
  }

  /** Present logs in first; after a successful login it sends exactly one
      create request, for the challenge's TXT record, and logs out once, last.
      After a failed login it makes no other call and changes nothing. */
  lemma PresentSession(rm: Remote, ch: ChallengeRequest)
    ensures var run := PresentRun(rm, ch);
      && SessionBracketed(run.calls)
      && (|run.calls| > 1 <==> rm.loginError.None?)
      && Creates(run.calls) == (if rm.loginError.None? then [ChallengeRecord(ch)] else [])
      && Deletes(run.calls) == []
      && (rm.loginError.Some? ==> run.remote == rm)
  {
    var body := PresentInSession(rm, ch);
    SessionAroundBody(rm, body);
    SessionChanges(rm, body);
    assert body.calls[1..] == [];
  }

  /** The record Present asks for: in the zone without its trailing dot, named
      relative to it, of type TXT, holding the key, with a TTL of 60. */
  lemma ChallengeRecordFields(ch: ChallengeRequest)
    ensures var req := ChallengeRecord(ch);
      && req.domain == TrimSuffix(ch.resolvedZone, ".")
      && req.name == ExtractRecordName(TrimSuffix(ch.resolvedFQDN, "."), req.domain)
      && req.rtype == "TXT" && req.content == ch.key && req.ttl == 60
  {
  }

  /** CleanUp logs in first; after a successful login it lists the zone's
      records, deletes at most one record, and logs out once, last. After a
      failed login it makes no other call and changes nothing. */
  lemma CleanUpSession(rm: Remote, ch: ChallengeRequest)
    ensures var run := CleanUpRun(rm, ch);
      && SessionBracketed(run.calls)
      && (|run.calls| > 1 <==> rm.loginError.None?)
      && Creates(run.calls) == []
      && |Deletes(run.calls)| <= 1
      && (rm.loginError.Some? ==> run.remote == rm)
  {
    var body := CleanUpInSession(rm, ch);
    CleanUpBodyCalls(rm, ch);
    SessionAroundBody(rm, body);
    SessionChanges(rm, body);
  }

  /** Between login and logout CleanUp lists the zone and deletes at most once. */
  lemma CleanUpBodyCalls(rm: Remote, ch: ChallengeRequest)
    ensures var calls := CleanUpInSession(rm, ch).calls;
      && (forall i :: 0 <= i < |calls| ==> !calls[i].Login? && !calls[i].Logout?)
      && Creates(calls) == [] && |Deletes(calls)| <= 1
  {
    var calls := CleanUpInSession(rm, ch).calls;
    var zone := Zone(ch);
    assert calls == [GetRecords(zone)] || (|calls| == 2 && calls[0] == GetRecords(zone) && calls[1].DeleteRecord?);
    if |calls| == 1 {
      assert Creates(calls) == [] + Creates([]);
      assert Deletes(calls) == [] + Deletes([]);
    } else {
      assert calls[1..] == [calls[1]];
      assert Creates(calls[1..]) == [] + Creates([]);
      assert Deletes(calls[1..]) == [calls[1].id] + Deletes([]);
    }
  }

  /** What logout answers never changes what Present or CleanUp return, the
      records they leave, or the calls they make. */
  lemma LogoutFailureIgnored(rm: Remote, ch: ChallengeRequest, e: Error)
    ensures var failing := rm.(logoutError := Some(e));
      && PresentRun(failing, ch).outcome == PresentRun(rm, ch).outcome
      && PresentRun(failing, ch).remote.records == PresentRun(rm, ch).remote.records
      && PresentRun(failing, ch).calls == PresentRun(rm, ch).calls
      && CleanUpRun(failing, ch).outcome == CleanUpRun(rm, ch).outcome
      && CleanUpRun(failing, ch).remote.records == CleanUpRun(rm, ch).remote.records
      && CleanUpRun(failing, ch).calls == CleanUpRun(rm, ch).calls
  {
  }

  // ---------------------------------------------------------------------------
  // Present

  /** Present fails only on a failed login or on a create error other than
      "object exists"; an existing identical record is success. */
  lemma PresentOutcome(rm: Remote, ch: ChallengeRequest)
    ensures var run := PresentRun(rm, ch);
      && (run.outcome == Pass <==>
            rm.loginError.None? && (rm.createError.None? || IsObjectExistsError(rm.createError.value)))
      && (rm.loginError.Some? ==> run.outcome == Fail(LoginFailed(rm.loginError.value)))
      && (rm.loginError.None? && rm.createError.Some? && !IsObjectExistsError(rm.createError.value) ==>
            run.outcome == Fail(CreateFailed(Fqdn(ch), rm.createError.value)))
  {
  }

  /** After Present without a failing login or create, the challenge's record
      is in the account; at most that one record was added and no record was
      removed or changed. */
  lemma PresentLeavesChallengeRecord(rm: Remote, ch: ChallengeRequest)
    requires rm.loginError.None? && rm.createError.None?
    ensures var after := PresentRun(rm, ch).remote.records;
      && HasIdentical(after, ChallengeRecord(ch))
      && rm.records <= after && |after| <= |rm.records| + 1
  {
    var req := ChallengeRecord(ch);
    var after := PresentRun(rm, ch).remote.records;
    if !HasIdentical(rm.records, req) {
      assert after[|rm.records|] == Record(rm.nextId, req.domain, req.name, req.rtype, req.content, req.ttl);
      assert SameRecord(after[|rm.records|], req);
    }
  }

  /** Present twice for the same challenge: when the first call succeeds, the
      second succeeds too and adds no record. */
  lemma PresentTwice(rm: Remote, ch: ChallengeRequest)
    requires PresentRun(rm, ch).outcome == Pass
    ensures var first := PresentRun(rm, ch).remote;
      && PresentRun(first, ch).outcome == Pass
      && PresentRun(first, ch).remote.records == first.records
  {
    PresentOutcome(rm, ch);
    var first := PresentRun(rm, ch).remote;
    if rm.createError.None? {
      PresentLeavesChallengeRecord(rm, ch);
      assert IsObjectExistsError(ApiError(ObjectExistsCode));
    }
  }

  // ---------------------------------------------------------------------------
  // CleanUp

  lemma FirstMatchAt(records: seq<Record>, name: string, key: string, k: nat)
    requires k < |records| && IsChallengeRecord(records[k], name, key)
    requires forall j :: 0 <= j < k ==> !IsChallengeRecord(records[j], name, key)
    ensures FirstMatch(records, name, key) == Some(k)
  {
  }

  /** CleanUp removes at most one record: the first of the zone's records, in
      listing order, that is a TXT record with the challenge's name and key.
      Every other record stays. With no such record, a failed login, a failed
      listing or a failed delete, the account is unchanged; only the last two
      of those are errors. */
  lemma CleanUpRemovesFirstMatchOnly(rm: Remote, ch: ChallengeRequest)
    requires Consistent(rm)
    ensures var run := CleanUpRun(rm, ch);
      var zoneRecords := ZoneRecords(rm.records, Zone(ch));
      var m := FirstMatch(zoneRecords, RecordName(ch), ch.key);
      && (rm.loginError.Some? ==> run.remote == rm && run.outcome.Fail?)
      && (rm.loginError.None? && rm.recordsError.Some? ==>
            run.remote == rm
            && run.outcome == Fail(RecordsFailed(Zone(ch), RecordsUnavailable(Zone(ch), rm.recordsError.value))))
      && (rm.loginError.None? && rm.recordsError.None? && m.None? ==>
            run.remote == rm && run.outcome == Pass)
      && (rm.loginError.None? && rm.recordsError.None? && m.Some? && rm.deleteError.Some? ==>
            run.remote == rm
            && run.outcome == Fail(DeleteFailed(zoneRecords[m.value].id, rm.deleteError.value)))
      && (rm.loginError.None? && rm.recordsError.None? && m.Some? && rm.deleteError.None? ==>
            run.outcome == Pass
            && multiset(run.remote.records) == multiset(rm.records) - multiset{zoneRecords[m.value]})
  {
    var zoneRecords := ZoneRecords(rm.records, Zone(ch));
    var m := FirstMatch(zoneRecords, RecordName(ch), ch.key);
    if rm.loginError.None? && rm.recordsError.None? && m.Some? && rm.deleteError.None? {
      var target := zoneRecords[m.value];
      ZoneRecordsFrom(rm.records, Zone(ch), target);
      var i :| 0 <= i < |rm.records| && rm.records[i] == target;
      WithoutIdRemovesOne(rm.records, i);
    }
  }

  /** Concurrent challenges for one name: CleanUp of one challenge never
      removes another challenge's TXT record for the same name. */
  lemma CleanUpKeepsSiblingChallenge(rm: Remote, ch: ChallengeRequest, sibling: Record)
    requires Consistent(rm)
    requires sibling in rm.records && sibling.content != ch.key
    ensures sibling in CleanUpRun(rm, ch).remote.records
  {
    CleanUpRemovesFirstMatchOnly(rm, ch);
    var run := CleanUpRun(rm, ch);
    var zoneRecords := ZoneRecords(rm.records, Zone(ch));
    var m := FirstMatch(zoneRecords, RecordName(ch), ch.key);
    if rm.loginError.None? && rm.recordsError.None? && m.Some? && rm.deleteError.None? {
      assert sibling != zoneRecords[m.value];
      assert sibling in multiset(rm.records) - multiset{zoneRecords[m.value]};
      assert sibling in multiset(run.remote.records);
    }
  }

  // ---------------------------------------------------------------------------
  // Scenarios

  /** No remote operation of the account fails. */
  predicate Healthy(rm: Remote) {
    rm.loginError.None? && rm.logoutError.None? && rm.recordsError.None?
    && rm.createError.None? && rm.deleteError.None?
  }

  /** The account holds no TXT record for this challenge yet. */
  predicate NoChallengeRecord(rm: Remote, ch: ChallengeRequest) {
    forall x :: x in rm.records && x.domain == Zone(ch) ==> !IsChallengeRecord(x, RecordName(ch), ch.key)
  }

  /** The record Present adds when the account has none like it. */
  function NewRecord(rm: Remote, ch: ChallengeRequest): Record {
    var req := ChallengeRecord(ch);
    Record(rm.nextId, req.domain, req.name, req.rtype, req.content, req.ttl)
  }

  lemma PresentAppends(rm: Remote, ch: ChallengeRequest)
    requires Healthy(rm) && NoChallengeRecord(rm, ch)
    ensures var run := PresentRun(rm, ch);
      && run.outcome == Pass
      && run.remote == rm.(records := rm.records + [NewRecord(rm, ch)], nextId := rm.nextId + 1)
  {
  }

  /** The zone's listing after records were appended behind `rm.records`. */
  lemma ListingWithAppended(records: seq<Record>, zone: string, added: seq<Record>)
    requires |added| >= 1 && added[0].domain == zone
    ensures ZoneRecords(records + added, zone)
         == ZoneRecords(records, zone) + [added[0]] + ZoneRecords(added[1..], zone)
  {
    ZoneRecordsAppend(records, added, zone);
    assert added == [added[0]] + added[1..];
    ZoneRecordsAppend([added[0]], added[1..], zone);
    assert [added[0]][1..] == [];
  }

  /** Deleting the identifier of the first appended record removes just it. */
  lemma DeleteAppended(records: seq<Record>, nextId: nat, added: seq<Record>)
    requires forall x :: x in records ==> x.id < nextId
    requires |added| >= 1 && added[0].id == nextId
    requires forall x :: x in added[1..] ==> x.id != nextId
    ensures WithoutId(records + added, nextId) == records + added[1..]
  {
    var rest := added[1..];
    WithoutIdAppend(records, added, nextId);
    WithoutAbsentId(records, nextId);
    WithoutAbsentId(rest, nextId);
    calc {
      WithoutId(records + added, nextId);
      WithoutId(records, nextId) + WithoutId(added, nextId);
      records + WithoutId(added, nextId);
      records + rest;
    }
  }

  /** CleanUp over an account whose records are `rm.records` followed by
      `added`, when only `added[0]` is a record of the challenge. */
  lemma CleanUpFindsAppended(rm: Remote, ch: ChallengeRequest, added: seq<Record>)
    requires Healthy(rm) && Consistent(rm) && NoChallengeRecord(rm, ch)
    requires |added| >= 1 && added[0] == NewRecord(rm, ch)
    requires forall x :: x in added[1..] ==> x.id != rm.nextId
    ensures var run := CleanUpRun(rm.(records := rm.records + added), ch);
      && run.outcome == Pass
      && run.remote.records == rm.records + added[1..]
  {
    var zone := Zone(ch);
    var all := rm.records + added;
    ListingWithAppended(rm.records, zone, added);
    var front := ZoneRecords(rm.records, zone);
    var listing := ZoneRecords(all, zone);
    assert listing[|front|] == added[0];
    forall j | 0 <= j < |front|
      ensures !IsChallengeRecord(listing[j], RecordName(ch), ch.key)
    {
      assert listing[j] == front[j] && front[j] in front;
      ZoneRecordsFrom(rm.records, zone, front[j]);
    }
    FirstMatchAt(listing, RecordName(ch), ch.key, |front|);
    DeleteAppended(rm.records, rm.nextId, added);
  }

  /** Present, then CleanUp, of one challenge gives the account back its
      records; a second CleanUp then succeeds and deletes nothing. */
  lemma PresentThenCleanUp(rm: Remote, ch: ChallengeRequest)
    requires Healthy(rm) && Consistent(rm) && NoChallengeRecord(rm, ch)
    ensures var presented := PresentRun(rm, ch);
      var cleaned := CleanUpRun(presented.remote, ch);
      var again := CleanUpRun(cleaned.remote, ch);
      && presented.outcome == Pass && cleaned.outcome == Pass && again.outcome == Pass
      && cleaned.remote.records == rm.records
      && again.remote == cleaned.remote && Deletes(again.calls) == []
  {
    PresentAppends(rm, ch);
    CleanUpFindsAppended(rm, ch, [NewRecord(rm, ch)]);
    var cleaned := CleanUpRun(PresentRun(rm, ch).remote, ch);
    assert cleaned.remote == rm.(nextId := rm.nextId + 1);
    var listing := ZoneRecords(rm.records, Zone(ch));
    forall j | 0 <= j < |listing|
      ensures !IsChallengeRecord(listing[j], RecordName(ch), ch.key)
    {
      ZoneRecordsFrom(rm.records, Zone(ch), listing[j]);
    }
    assert FirstMatch(listing, RecordName(ch), ch.key) == None;
    var body := CleanUpInSession(cleaned.remote, ch);
    assert body.calls == [GetRecords(Zone(ch))];
    SessionChanges(cleaned.remote, body);
    assert Deletes(body.calls) == [] + Deletes([]);
  }

  /** Two challenges for the same name with different keys: both Presents add
      a record of their own, and CleanUp of the first leaves exactly the second
      challenge's record behind. */
  lemma ConcurrentChallengesIndependent(rm: Remote, ch1: ChallengeRequest, ch2: ChallengeRequest)
    requires Healthy(rm) && Consistent(rm)
    requires ch1.resolvedFQDN == ch2.resolvedFQDN && ch1.resolvedZone == ch2.resolvedZone
    requires ch1.key != ch2.key
    requires NoChallengeRecord(rm, ch1) && NoChallengeRecord(rm, ch2)
    ensures var p1 := PresentRun(rm, ch1);
      var p2 := PresentRun(p1.remote, ch2);
      var c1 := CleanUpRun(p2.remote, ch1);
      && p1.outcome == Pass && p2.outcome == Pass && c1.outcome == Pass
      && p2.remote.records == rm.records + [NewRecord(rm, ch1), NewRecord(p1.remote, ch2)]
      && c1.remote.records == rm.records + [NewRecord(p1.remote, ch2)]
      && NewRecord(p1.remote, ch2).content == ch2.key
  {
    PresentAppends(rm, ch1);
    var rm1 := PresentRun(rm, ch1).remote;
    var r1 := NewRecord(rm, ch1);
    assert rm1.records == rm.records + [r1];
    forall x | x in rm1.records && x.domain == Zone(ch2)
      ensures !IsChallengeRecord(x, RecordName(ch2), ch2.key)
    {
      if x !in rm.records {
        assert x == r1;
      }
    }
    PresentAppends(rm1, ch2);
    var r2 := NewRecord(rm1, ch2);
    assert PresentRun(rm1, ch2).remote.records == rm.records + [r1] + [r2];
    assert rm.records + [r1] + [r2] == rm.records + [r1, r2];
    assert [r1, r2][1..] == [r2];
    CleanUpFindsAppended(rm, ch1, [r1, r2]);
    var p2 := PresentRun(rm1, ch2).remote;
    assert p2 == rm.(records := rm.records + [r1, r2], nextId := rm.nextId + 2);
    assert CleanUpRun(p2, ch1).remote.records == CleanUpRun(rm.(records := rm.records + [r1, r2]), ch1).remote.records;
  }
}
