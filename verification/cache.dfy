/** The hosting-mode credential cache: `recordIsExpired`, `checkCache`,
    `updateCache` and `getRootAndAccess` of the handler. Entries are kept
    per hostname and are valid for a fixed time-to-live after they were
    stored. The mutex that guards the map is not modelled: every operation
    here is one step on an immutable cache value. Time is an integer count
    of clock ticks; the source reads the clock once when it checks an
    entry and once more when it stores one, so both readings are
    parameters. */
module RecordCache {
  import opened Wrappers
  import opened Uplink
  import opened TxtRecords

  /** `txtRecord`: a resolved access grant and root path, and when they
      were stored. */
  datatype Entry = Entry(access: Access, root: string, timestamp: int)

  /** `txtRecords`: the entries by hostname and their time-to-live. */
  datatype Cache = Cache(entries: map<string, Entry>, ttl: int)

  /** `recordIsExpired` (lines 483-486): the entry's deadline,
      timestamp plus ttl, lies strictly before `now`. Equivalently, the
      entry's age at `now` exceeds the ttl, so an entry is still fresh at
      exactly its deadline. */
  function IsExpired(e: Entry, ttl: int, now: int): (expired: bool)
    ensures expired <==> now - e.timestamp > ttl
  {
    e.timestamp + ttl < now
  }

  /** `checkCache` (lines 471-480): a hit is an entry for the host whose
      deadline has not passed; the deadline itself still counts as fresh. */
  function CheckCache(c: Cache, host: string, now: int): (r: Option<Entry>)
    ensures r.Some? <==> host in c.entries && now <= c.entries[host].timestamp + c.ttl
    ensures r.Some? ==> r.value == c.entries[host]
  {
    if host in c.entries && !IsExpired(c.entries[host], c.ttl, now) then Some(c.entries[host]) else None
  }

  /** `updateCache` (lines 532-537): the host's entry is replaced by one
      stamped `now`; every other entry and the ttl stay as they were. */
  function UpdateCache(c: Cache, host: string, root: string, access: Access, now: int): (c': Cache)
    ensures c'.ttl == c.ttl
    ensures c'.entries.Keys == c.entries.Keys + {host}
    ensures c'.entries[host] == Entry(access, root, now)
    ensures forall h :: h in c.entries && h != host ==> c'.entries[h] == c.entries[h]
  {
    Cache(c.entries[host := Entry(access, root, now)], c.ttl)
  }

  /** `getRootAndAccess` panics: the cache misses, and the TXT records
      the lookup returns make `parseRecords` panic. A cache hit never
      panics, whatever DNS would say. */
  predicate ResolutionPanics(c: Cache, host: string, now: int, lookupTxt: string -> Result<seq<string>, string>)
  {
    CheckCache(c, host, now).None? && lookupTxt(host).Success? && !RecordsSafe(lookupTxt(host).value)
  }

  /** `getRootAndAccess` (lines 456-468): a fresh entry answers without a
      lookup; otherwise the TXT records are fetched and parsed, and only a
      success is stored. `checkTime` and `storeTime` are the two clock
      readings. The result pairs the answer with the cache afterwards. */
  function GetRootAndAccess(
    c: Cache, host: string, checkTime: int, storeTime: int,
    lookupTxt: string -> Result<seq<string>, string>,
    parseAccess: string -> Result<Access, string>)
    : (r: (Result<(Access, string), string>, Cache))
    requires !ResolutionPanics(c, host, checkTime, lookupTxt)
    ensures var hit := CheckCache(c, host, checkTime);
      hit.Some? ==> r.0 == Success((hit.value.access, hit.value.root)) && r.1 == c
    ensures CheckCache(c, host, checkTime).None? ==>
      var fetched := GetRemoteRecord(host, lookupTxt, parseAccess);
      && (fetched.Failure? ==> r == (fetched, c))
      && (fetched.Success? ==>
            && r.0 == fetched
            && r.1.ttl == c.ttl
            && r.1.entries == c.entries[host := Entry(fetched.value.0, fetched.value.1, storeTime)])
  {
    match CheckCache(c, host, checkTime)
    case Some(e) => (Success((e.access, e.root)), c)
    case None =>
      match GetRemoteRecord(host, lookupTxt, parseAccess)
      case Failure(err) => (Failure(err), c)
      case Success((access, root)) => (Success((access, root)), UpdateCache(c, host, root, access, storeTime))
  }

  /** An entry is fresh up to and including its deadline and stale one
      tick later. */
  lemma FreshUntilDeadline(c: Cache, host: string)
    requires host in c.entries
    ensures var deadline := c.entries[host].timestamp + c.ttl;
      CheckCache(c, host, deadline) == Some(c.entries[host]) && CheckCache(c, host, deadline + 1) == None
  {
  }

  /** Once stale, an entry stays stale. */
  lemma StaleStaysStale(c: Cache, host: string, now: int, later: int)
    requires now <= later
    requires host in c.entries && CheckCache(c, host, now).None?
    ensures CheckCache(c, host, later).None?
  {
  }

  /** A stored entry is a hit for its host throughout its time-to-live,
      and the store leaves every other host's lookup as it was. */
  lemma UpdateThenCheck(c: Cache, host: string, root: string, access: Access, stored: int, other: string, now: int)
    requires now <= stored + c.ttl
    ensures CheckCache(UpdateCache(c, host, root, access, stored), host, now) == Some(Entry(access, root, stored))
    ensures other != host ==>
      CheckCache(UpdateCache(c, host, root, access, stored), other, now) == CheckCache(c, other, now)
  {
  }

  /** After a lookup that went to DNS succeeds, asking again within the
      time-to-live gives the same answer from the cache, whatever DNS would
      now say, and changes nothing. */
  lemma ResolvedThenCached(
    c: Cache, host: string, checkTime: int, storeTime: int, later: int, laterStore: int,
    lookupTxt: string -> Result<seq<string>, string>,
    parseAccess: string -> Result<Access, string>,
    lookupTxt2: string -> Result<seq<string>, string>,
    parseAccess2: string -> Result<Access, string>)
    requires CheckCache(c, host, checkTime).None?
    requires lookupTxt(host).Success? ==> RecordsSafe(lookupTxt(host).value)
    requires GetRemoteRecord(host, lookupTxt, parseAccess).Success?
    requires later <= storeTime + c.ttl
    ensures var (first, c1) := GetRootAndAccess(c, host, checkTime, storeTime, lookupTxt, parseAccess);
      GetRootAndAccess(c1, host, later, laterStore, lookupTxt2, parseAccess2) == (first, c1)
  {
    var (first, c1) := GetRootAndAccess(c, host, checkTime, storeTime, lookupTxt, parseAccess);
    UpdateThenCheck(c, host, first.value.1, first.value.0, storeTime, host, later);
  }

  /** A lookup that fails never evicts: a stale entry stays in the map. */
  lemma FailedResolutionKeepsStale(
    c: Cache, host: string, checkTime: int, storeTime: int,
    lookupTxt: string -> Result<seq<string>, string>,
    parseAccess: string -> Result<Access, string>)
    requires !ResolutionPanics(c, host, checkTime, lookupTxt)
    requires host in c.entries
    requires GetRootAndAccess(c, host, checkTime, storeTime, lookupTxt, parseAccess).0.Failure?
    ensures GetRootAndAccess(c, host, checkTime, storeTime, lookupTxt, parseAccess).1.entries[host] == c.entries[host]
  {
  }
}
