/** The remote INWX account, as an in-memory value.

    The real client reaches the provider over XML-RPC through the goinwx library.
    Here the account is a value: the records it holds, the pages its zone listing
    returns, and, for each remote operation, an optional failure that the call
    reports instead of doing its work. */
module Provider {
  import opened Wrappers
  import opened Errors

  /** A nameserver record (`goinwx.NameserverRecord`) together with the zone
      (`domain`) it belongs to. `name` is relative to the zone; "" is the apex. */
  datatype Record = Record(id: nat, domain: string, name: string, rtype: string, content: string, ttl: int)

  /** `goinwx.NameserverRecordRequest`. */
  datatype RecordRequest = RecordRequest(domain: string, name: string, rtype: string, content: string, ttl: int)

  /** One page of `Nameservers.ListWithParams`: the total `count` the provider
      reports and the zone names on this page. */
  datatype Page = Page(count: int, domains: seq<string>)

  datatype Remote = Remote(
    records: seq<Record>,
    nextId: nat,
    /** Answers to page requests 1, 2, ...; every later page is empty. */
    zonePages: seq<Result<Page, Error>>,
    loginError: Option<Error>,
    logoutError: Option<Error>,
    recordsError: Option<Error>,
    createError: Option<Error>,
    deleteError: Option<Error>)

  /** No two records share an identifier. */
  predicate DistinctIds(records: seq<Record>) {
    records == [] || ((forall x :: x in records[1..] ==> x.id != records[0].id) && DistinctIds(records[1..]))
  }

  /** Record identifiers are unique and below the next one to hand out. */
  predicate Consistent(rm: Remote) {
    DistinctIds(rm.records) && forall x :: x in rm.records ==> x.id < rm.nextId
  }

  /** The records of one zone, in the order the account stores them. */
  function ZoneRecords(records: seq<Record>, zone: string): seq<Record>
  {
    if records == [] then []
    else if records[0].domain == zone then [records[0]] + ZoneRecords(records[1..], zone)
    else ZoneRecords(records[1..], zone)
  }

  /** The stored record has the fields a create request would give it. */
  predicate SameRecord(rec: Record, req: RecordRequest) {
    rec.domain == req.domain && rec.name == req.name && rec.rtype == req.rtype && rec.content == req.content
  }

  predicate HasIdentical(records: seq<Record>, req: RecordRequest) {
    exists i :: 0 <= i < |records| && SameRecord(records[i], req)
  }

  /** `Nameservers.CreateRecord`: an injected failure, or "object exists" for a
      record identical to the request, or a new record with a fresh identifier. */
  function Create(rm: Remote, req: RecordRequest): (Remote, Option<Error>)
  {
    if rm.createError.Some? then (rm, rm.createError)
    else if HasIdentical(rm.records, req) then (rm, Some(ApiError(ObjectExistsCode)))
    else
      var rec := Record(rm.nextId, req.domain, req.name, req.rtype, req.content, req.ttl);
      (rm.(records := rm.records + [rec], nextId := rm.nextId + 1), None)
  }

  /** The records whose identifier is not `id`. */
  function WithoutId(records: seq<Record>, id: nat): seq<Record>
  {
    if records == [] then []
    else if records[0].id == id then WithoutId(records[1..], id)
    else [records[0]] + WithoutId(records[1..], id)
  }

  /** `Nameservers.DeleteRecord`: an injected failure, or the record is gone. */
  function Delete(rm: Remote, id: nat): (Remote, Option<Error>)
  {
    if rm.deleteError.Some? then (rm, rm.deleteError)
    else (rm.(records := WithoutId(rm.records, id)), None)
  }

  /** The answer to the request for page `n` (counted from 1). */
  function PageAt(pages: seq<Result<Page, Error>>, n: nat): Result<Page, Error>
  {
    if 1 <= n <= |pages| then pages[n - 1] else Success(Page(0, []))
  }

  /** A zone's listing holds records of that zone, all taken from the account. */
  lemma {:induction false} ZoneRecordsFrom(records: seq<Record>, zone: string, x: Record)
    requires x in ZoneRecords(records, zone)
    ensures x in records && x.domain == zone
  {
    var rest := ZoneRecords(records[1..], zone);
    if x in rest {
      ZoneRecordsFrom(records[1..], zone, x);
    }
  }

  /** ... and it holds every record of that zone the account has. */
  lemma {:induction false} ZoneRecordsTo(records: seq<Record>, zone: string, x: Record)
    requires x in records && x.domain == zone
    ensures x in ZoneRecords(records, zone)
  {
    if records[0] != x {
      ZoneRecordsTo(records[1..], zone, x);
    }
  }

  lemma {:induction false} WithoutIdFrom(records: seq<Record>, id: nat, x: Record)
    requires x in WithoutId(records, id)
    ensures x in records && x.id != id
  {
    var rest := WithoutId(records[1..], id);
    if x in rest {
      WithoutIdFrom(records[1..], id, x);
    }
  }

  lemma {:induction false} ZoneRecordsAppend(a: seq<Record>, b: seq<Record>, zone: string)
    ensures ZoneRecords(a + b, zone) == ZoneRecords(a, zone) + ZoneRecords(b, zone)
  {
    if a == [] {
      assert a + b == b;
    } else {
      assert (a + b)[0] == a[0] && (a + b)[1..] == a[1..] + b;
      ZoneRecordsAppend(a[1..], b, zone);
      if a[0].domain == zone {
        assert [a[0]] + (ZoneRecords(a[1..], zone) + ZoneRecords(b, zone))
            == ([a[0]] + ZoneRecords(a[1..], zone)) + ZoneRecords(b, zone);
      }
    }
  }

  lemma {:induction false} WithoutAbsentId(records: seq<Record>, id: nat)
    requires forall x :: x in records ==> x.id != id
    ensures WithoutId(records, id) == records
  {
    if records != [] {
      WithoutAbsentId(records[1..], id);
    }
  }

  lemma {:induction false} WithoutIdAppend(a: seq<Record>, b: seq<Record>, id: nat)
    ensures WithoutId(a + b, id) == WithoutId(a, id) + WithoutId(b, id)
  {
    if a == [] {
      assert a + b == b;
    } else {
      assert (a + b)[0] == a[0] && (a + b)[1..] == a[1..] + b;
      WithoutIdAppend(a[1..], b, id);
      if a[0].id != id {
        assert [a[0]] + (WithoutId(a[1..], id) + WithoutId(b, id))
            == ([a[0]] + WithoutId(a[1..], id)) + WithoutId(b, id);
      }
    }
  }

  /** With unique identifiers, deleting the identifier of `records[k]` removes
      that record and nothing else. */
  lemma {:induction false} WithoutIdRemovesOne(records: seq<Record>, k: nat)
    requires k < |records| && DistinctIds(records)
    ensures multiset(WithoutId(records, records[k].id)) == multiset(records) - multiset{records[k]}
  {
    var id := records[k].id;
    assert records == [records[0]] + records[1..];
    if k == 0 {
      WithoutAbsentId(records[1..], id);
    } else {
      assert records[1..][k - 1] == records[k];
      assert records[k] in records[1..];
      WithoutIdRemovesOne(records[1..], k - 1);
    }
  }

  lemma {:induction false} WithoutIdKeepsDistinct(records: seq<Record>, id: nat)
    requires DistinctIds(records)
    ensures DistinctIds(WithoutId(records, id))
  {
    if records != [] {
      WithoutIdKeepsDistinct(records[1..], id);
      var tail := WithoutId(records[1..], id);
      forall x | x in tail
        ensures x.id != records[0].id
      {
        WithoutIdFrom(records[1..], id, x);
      }
      if records[0].id != id {
        assert ([records[0]] + tail)[1..] == tail;
      }
    }
  }

  lemma {:induction false} AppendKeepsDistinct(records: seq<Record>, rec: Record)
    requires DistinctIds(records) && forall x :: x in records ==> x.id != rec.id
    ensures DistinctIds(records + [rec])
  {
    if records != [] {
      assert (records + [rec])[1..] == records[1..] + [rec];
      AppendKeepsDistinct(records[1..], rec);
    }
  }

  lemma CreateKeepsConsistent(rm: Remote, req: RecordRequest)
    requires Consistent(rm)
    ensures Consistent(Create(rm, req).0)
  {
    if rm.createError.None? && !HasIdentical(rm.records, req) {
      AppendKeepsDistinct(rm.records, Record(rm.nextId, req.domain, req.name, req.rtype, req.content, req.ttl));
    }
  }

  lemma DeleteKeepsConsistent(rm: Remote, id: nat)
    requires Consistent(rm)
    ensures Consistent(Delete(rm, id).0)
  {
    WithoutIdKeepsDistinct(rm.records, id);
    forall x | x in WithoutId(rm.records, id)
      ensures x.id < rm.nextId
    {
      WithoutIdFrom(rm.records, id, x);
    }
  }
}
