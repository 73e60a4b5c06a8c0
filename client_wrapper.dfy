/** The record client (`ClientWrapper`): the calls the solver makes on the
    provider, and the zone listing with its paging loop and five-minute cache. */
module Client {
  import opened Wrappers
  import opened Errors
  import opened Provider

  /** Lifetime of the zone cache: five minutes, on a clock that counts seconds. */
  const ZonesCacheTTL: int := 5 * 60

  /** Zones asked for per page. */
  const PageLimit: nat := 100

  /** A call made on the provider, in the order it was made. */
  datatype Call =
    | Login
    | Logout
    | GetRecords(domain: string)
    | CreateRecord(request: RecordRequest)
    | DeleteRecord(id: nat)
    | ListNameservers(domain: string, page: nat, pageLimit: nat)

  /** The requests for pages 1 to n of the zone listing. */
  function PageRequests(n: nat): (calls: seq<Call>)
    ensures |calls| == n
    ensures forall i :: 0 <= i < n ==> calls[i] == ListNameservers("*", i + 1, PageLimit)
  {
    if n == 0 then [] else PageRequests(n - 1) + [ListNameservers("*", n, PageLimit)]
  }

  /** What getRecords answers: the zone's records, or the provider's failure
      wrapped with the zone. */
  function RecordsOf(rm: Remote, domain: string): (r: Result<seq<Record>, Error>)
    ensures r.Success? <==> rm.recordsError.None?
    ensures r.Failure? ==> r.error == RecordsUnavailable(domain, rm.recordsError.value)
  {
    match rm.recordsError
    case Some(e) => Failure(RecordsUnavailable(domain, e))
    case None => Success(ZoneRecords(rm.records, domain))
  }

  /** getRecords returns exactly the account's records of the zone. */
  lemma RecordsOfZone(rm: Remote, domain: string, x: Record)
    requires RecordsOf(rm, domain).Success?
    ensures x in RecordsOf(rm, domain).value <==> x in rm.records && x.domain == domain
  {
    if x in RecordsOf(rm, domain).value {
      ZoneRecordsFrom(rm.records, domain, x);
    }
    if x in rm.records && x.domain == domain {
      ZoneRecordsTo(rm.records, domain, x);
    }
  }

  // ---------------------------------------------------------------------------
  // Paging through the zone listing

  /** How a listing ended: every zone gathered up to `lastPage`, or the page
      whose request failed. */
  datatype Listing = Listed(zones: seq<string>, lastPage: nat) | ListFailed(page: nat, cause: Error)
  {
    /** The last page requested. */
    function LastPage(): nat {
      if Listed? then lastPage else page
    }
  }

  /** The paging loop from page `page` on, with `acc` gathered so far: it adds
      each page's zones and stops after an empty page or once it holds at least
      the count that page reports. */
  function Paginate(pages: seq<Result<Page, Error>>, page: nat, acc: seq<string>): (l: Listing)
    requires 1 <= page
    ensures page <= l.LastPage()
    ensures l.Listed? ==> acc <= l.zones
    ensures l.ListFailed? ==> PageAt(pages, l.page) == Failure(l.cause)
    decreases |pages| + 1 - page
  {
    match PageAt(pages, page)
    case Failure(e) => ListFailed(page, e)
    case Success(p) =>
      var zones := acc + p.domains;
      if |p.domains| == 0 || |zones| >= p.count then Listed(zones, page)
      else Paginate(pages, page + 1, zones)
  }

  /** The zones on page n, none if that page failed. */
  function DomainsAt(pages: seq<Result<Page, Error>>, n: nat): seq<string> {
    match PageAt(pages, n)
    case Success(p) => p.domains
    case Failure(_) => []
  }

  /** The zones of pages 1 to n, in page order. */
  function Collected(pages: seq<Result<Page, Error>>, n: nat): seq<string> {
    if n == 0 then [] else Collected(pages, n - 1) + DomainsAt(pages, n)
  }

  /** After page n a listing goes on: the page came back, was not empty, and
      the zones of pages 1 to n are still fewer than the count it reports. */
  predicate Continues(pages: seq<Result<Page, Error>>, n: nat) {
    match PageAt(pages, n)
    case Success(p) => |p.domains| > 0 && |Collected(pages, n)| < p.count
    case Failure(_) => false
  }

  /** What a listing that started at page `first` must be, stated without the
      loop: it ends at the first page after which it does not go on; it then
      holds the zones of every page up to that one, in page order, or names that
      page if its request failed. */
  predicate ListsPages(pages: seq<Result<Page, Error>>, first: nat, l: Listing) {
    && first <= l.LastPage()
    && (forall q :: 1 <= q < l.LastPage() ==> Continues(pages, q))
    && (l.Listed? ==>
          l.zones == Collected(pages, l.lastPage)
          && PageAt(pages, l.lastPage).Success? && !Continues(pages, l.lastPage))
    && (l.ListFailed? ==> PageAt(pages, l.page) == Failure(l.cause))
  }

  lemma {:induction false} PaginateFrom(pages: seq<Result<Page, Error>>, page: nat, acc: seq<string>)
    requires 1 <= page && acc == Collected(pages, page - 1)
    requires forall q :: 1 <= q < page ==> Continues(pages, q)
    ensures ListsPages(pages, page, Paginate(pages, page, acc))
    decreases |pages| + 1 - page
  {
    match PageAt(pages, page)
    case Failure(e) =>
    case Success(p) =>
      var zones := acc + p.domains;
      assert zones == Collected(pages, page);
      if |p.domains| == 0 || |zones| >= p.count {
      } else {
        assert Continues(pages, page);
        PaginateFrom(pages, page + 1, zones);
      }
  }

  /** A full listing, as the client starts it: from page 1 with nothing gathered. */
  lemma ListAllZones(pages: seq<Result<Page, Error>>)
    ensures ListsPages(pages, 1, Paginate(pages, 1, []))
  {
    PaginateFrom(pages, 1, []);
  }

  /** 150 zones over pages of 100: two pages are read, the second reaches the
      reported count, and whatever the provider would answer for later pages
      is never asked for. */
  lemma TwoPageListing(first: seq<string>, second: seq<string>, later: seq<Result<Page, Error>>)
    requires |first| == 100 && |second| == 50
    ensures Paginate([Success(Page(150, first)), Success(Page(150, second))] + later, 1, [])
         == Listed(first + second, 2)
  {
  }

  // ---------------------------------------------------------------------------
  // The zone cache

  /** The cache may be served at time `now`: it was filled, and less than the
      TTL has passed since. */
  predicate CacheFresh(cache: Option<seq<string>>, cacheTime: int, now: int) {
    cache.Some? && now - cacheTime < ZonesCacheTTL
  }

  /** What a call of getZones answers, the cache it leaves, and how many pages
      it requested. */
  datatype ZonesLookup = ZonesLookup(result: Result<seq<string>, Error>, cache: Option<seq<string>>, cacheTime: int, pagesRequested: nat)

  /** getZones called at time `now`; `fetchedAt` is the clock read once the
      last page has come back, which stamps a new cache. */
  function LookupZones(cache: Option<seq<string>>, cacheTime: int, now: int, fetchedAt: int, pages: seq<Result<Page, Error>>): (l: ZonesLookup)
    ensures CacheFresh(cache, cacheTime, now) ==> l == ZonesLookup(Success(cache.value), cache, cacheTime, 0)
    ensures !CacheFresh(cache, cacheTime, now) ==> l.pagesRequested >= 1
    ensures l.result.Success? && l.pagesRequested > 0 ==> l.cache == Some(l.result.value) && l.cacheTime == fetchedAt
    ensures l.result.Failure? ==> l.cache == cache && l.cacheTime == cacheTime && l.result.error.ZonesPageFailed?
  {
    if CacheFresh(cache, cacheTime, now) then ZonesLookup(Success(cache.value), cache, cacheTime, 0)
    else match Paginate(pages, 1, [])
      case Listed(zones, last) => ZonesLookup(Success(zones), Some(zones), fetchedAt, last)
      case ListFailed(page, e) => ZonesLookup(Failure(ZonesPageFailed(page, e)), cache, cacheTime, page)
  }

  /** A call made less than the TTL after the end of a call that listed the
      zones (however long that listing took): it requests no page and answers
      what the first did, even if the provider's zones have changed in between. */
  lemma SecondLookupWithinTTLIsCached(cache: Option<seq<string>>, cacheTime: int, now1: int, fetched1: int,
                                     now2: int, fetched2: int,
                                     pages1: seq<Result<Page, Error>>, pages2: seq<Result<Page, Error>>)
    requires !CacheFresh(cache, cacheTime, now1)
    requires LookupZones(cache, cacheTime, now1, fetched1, pages1).result.Success?
    requires now2 - fetched1 < ZonesCacheTTL
    ensures var l1 := LookupZones(cache, cacheTime, now1, fetched1, pages1);
      && l1.pagesRequested >= 1 && l1.cacheTime == fetched1
      && LookupZones(l1.cache, l1.cacheTime, now2, fetched2, pages2) == ZonesLookup(l1.result, l1.cache, l1.cacheTime, 0)
  {
    ListAllZones(pages1);
  }

  /** Once the TTL has passed (or there is no cache), the listing is read
      again from page 1. */
  lemma ExpiredCacheIsRefetched(cache: Option<seq<string>>, cacheTime: int, now: int, fetchedAt: int, pages: seq<Result<Page, Error>>)
    requires cache.None? || now - cacheTime >= ZonesCacheTTL
    ensures var l := LookupZones(cache, cacheTime, now, fetchedAt, pages);
      && l.pagesRequested == Paginate(pages, 1, []).LastPage() >= 1
      && (l.result.Success? <==> Paginate(pages, 1, []).Listed?)
  {
    ListAllZones(pages);
  }

  /** An empty first page ends the listing whatever count it reports; the
      empty listing is cached as an empty list, not as "no cache", and is
      served within the TTL. */
  lemma EmptyListingIsCached(cache: Option<seq<string>>, cacheTime: int, now: int, fetchedAt: int,
                             later: int, laterFetchedAt: int, pages: seq<Result<Page, Error>>)
    requires !CacheFresh(cache, cacheTime, now)
    requires PageAt(pages, 1).Success? && PageAt(pages, 1).value.domains == []
    requires later - fetchedAt < ZonesCacheTTL
    ensures var l := LookupZones(cache, cacheTime, now, fetchedAt, pages);
      && l == ZonesLookup(Success([]), Some([]), fetchedAt, 1)
      && LookupZones(l.cache, l.cacheTime, later, laterFetchedAt, pages).pagesRequested == 0
  {
    var empty: seq<string> := [];
    assert empty + empty == empty;
    assert Paginate(pages, 1, empty) == Listed(empty, 1);
  }

  /** A failed page leaves the cache as it was and reports that page. */
  lemma FailedListingKeepsCache(cache: Option<seq<string>>, cacheTime: int, now: int, fetchedAt: int, pages: seq<Result<Page, Error>>)
    requires !CacheFresh(cache, cacheTime, now)
    requires Paginate(pages, 1, []).ListFailed?
    ensures var l := LookupZones(cache, cacheTime, now, fetchedAt, pages);
      && l.cache == cache && l.cacheTime == cacheTime
      && l.result.Failure? && l.result.error.ZonesPageFailed?
      && PageAt(pages, l.result.error.page) == Failure(l.result.error.cause)
  {
    ListAllZones(pages);
  }

  // ---------------------------------------------------------------------------
  // The client

  /** `ClientWrapper`, over an in-memory account. Every remote call is appended
      to `log`. `zonesCache == None` stands for Go's nil slice. */
  class ClientWrapper {
    var remote: Remote
    var zonesCache: Option<seq<string>>
    var zonesCacheTime: int
    var log: seq<Call>

    ghost predicate Valid()
      reads this
    {
      Consistent(remote)
    }

    constructor (remote: Remote)
      requires Consistent(remote)
      ensures Valid()
      ensures this.remote == remote && zonesCache == None && log == []
    {
      this.remote := remote;
      zonesCache := None;
      zonesCacheTime := 0;
      log := [];
    }

    /** login */
    method Login() returns (err: Option<Error>)
      modifies this`log
      ensures log == old(log) + [Call.Login]
      ensures err == remote.loginError
    {
      log := log + [Call.Login];
      err := remote.loginError;
    }

    /** logout */
    method Logout() returns (err: Option<Error>)
      modifies this`log
      ensures log == old(log) + [Call.Logout]
      ensures err == remote.logoutError
    {
      log := log + [Call.Logout];
      err := remote.logoutError;
    }

    /** getRecords: always read from the account, never cached. */
    method GetRecords(domain: string) returns (r: Result<seq<Record>, Error>)
      modifies this`log
      ensures log == old(log) + [Call.GetRecords(domain)]
      ensures r == RecordsOf(remote, domain)
    {
      log := log + [Call.GetRecords(domain)];
      r := RecordsOf(remote, domain);
    }

    /** createRecord */
    method CreateRecord(request: RecordRequest) returns (err: Option<Error>)
      requires Valid()
      modifies this`remote, this`log
      ensures Valid()
      ensures (remote, err) == Create(old(remote), request)
      ensures log == old(log) + [Call.CreateRecord(request)]
    {
      CreateKeepsConsistent(remote, request);
      log := log + [Call.CreateRecord(request)];
      var (after, e) := Create(remote, request);
      remote, err := after, e;
    }

    /** deleteRecord */
    method DeleteRecord(id: nat) returns (err: Option<Error>)
      requires Valid()
      modifies this`remote, this`log
      ensures Valid()
      ensures (remote, err) == Delete(old(remote), id)
      ensures log == old(log) + [Call.DeleteRecord(id)]
    {
      DeleteKeepsConsistent(remote, id);
      log := log + [Call.DeleteRecord(id)];
      var (after, e) := Delete(remote, id);
      remote, err := after, e;
    }

    /** getZones called at time `now`: the cached list while it is fresh,
        otherwise every page of the listing, which then replaces the cache,
        stamped with the clock read `fetchedAt` after the last page. */
    method GetZones(now: int, fetchedAt: int) returns (r: Result<seq<string>, Error>)
      modifies this`zonesCache, this`zonesCacheTime, this`log
      ensures var l := LookupZones(old(zonesCache), old(zonesCacheTime), now, fetchedAt, remote.zonePages);
        && r == l.result
        && zonesCache == l.cache && zonesCacheTime == l.cacheTime
        && log == old(log) + PageRequests(l.pagesRequested)
    {
      if zonesCache.Some? && now - zonesCacheTime < ZonesCacheTTL {
        return Success(zonesCache.value);
      }

      var zones: seq<string> := [];
      var page: nat := 1;
      while true
        invariant 1 <= page <= |remote.zonePages| + 1
        invariant Paginate(remote.zonePages, page, zones) == Paginate(remote.zonePages, 1, [])
        invariant log == old(log) + PageRequests(page - 1)
        invariant zonesCache == old(zonesCache) && zonesCacheTime == old(zonesCacheTime)
        decreases |remote.zonePages| + 1 - page
      {
        log := log + [ListNameservers("*", page, PageLimit)];
        var response := PageAt(remote.zonePages, page);
        if response.Failure? {
          return Failure(ZonesPageFailed(page, response.error));
        }
        var domains := response.value.domains;
        ghost var before := zones;
        for k := 0 to |domains|
          invariant zones == before + domains[..k]
        {
          zones := zones + [domains[k]];
        }
        assert domains[..|domains|] == domains;
        if |domains| == 0 || |zones| >= response.value.count {
          assert Paginate(remote.zonePages, page, before) == Listed(zones, page);
          break;
        }
        page := page + 1;
      }

      zonesCache := Some(zones);
      zonesCacheTime := fetchedAt;
      return Success(zones);
    }
  }
}
