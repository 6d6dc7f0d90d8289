/**
 FetchTransactionsWithOptions and its cache (daemon/client.go:64-70, 396-568).

 The wallet's server is foreign code. Its contract: it keeps an append-only log
 of entries with distinct hashes, fewer than 2^32 of them; a call returns the
 entries from an offset on, at most as many as asked for, and the index of the
 last one returned, or 0 when it returns none. The log may grow at the start of
 every call, and a call may fail.
 */
module TxServer {
  import opened Wrappers
  import opened TxOrder

  const MAX_UINT32: nat := 0xFFFF_FFFF

  ghost predicate LogOk(log: seq<Tx>) {
    Distinct(log) && |log| <= MAX_UINT32
  }

  function Page(log: seq<Tx>, offset: nat, max: nat): seq<Tx> {
    if offset >= |log| then []
    else if offset + max <= |log| then log[offset..offset + max]
    else log[offset..]
  }

  function LastIndex(log: seq<Tx>, offset: nat, max: nat): nat {
    if Page(log, offset, max) == [] then 0 else offset + |Page(log, offset, max)| - 1
  }

  predicate AllNew(log: seq<Tx>, more: seq<Tx>) {
    && |log| + |more| <= MAX_UINT32
    && (forall i, j :: 0 <= i < j < |log + more| ==> (log + more)[i].hash != (log + more)[j].hash)
  }

  datatype Reply = Reply(txs: seq<Tx>, lastIndex: nat)

  class Server {
    var log: seq<Tx>
    ghost var offsets: seq<nat>  // of the calls made so far

    /** The environment's choices: what has arrived, and whether the call fails. */
    method GetTransactions(offset: nat, max: nat) returns (r: Option<Reply>)
      requires LogOk(log)
      modifies this
      ensures LogOk(log) && old(log) <= log
      ensures offsets == old(offsets) + [offset]
      ensures r.Some? ==> r.value == Reply(Page(log, offset, max), LastIndex(log, offset, max))
    {
      var arrived: seq<Tx> := *;
      var fails: bool := *;
      if AllNew(log, arrived) {
        log := log + arrived;
      }
      offsets := offsets + [offset];
      r := if fails then None else Some(Reply(Page(log, offset, max), LastIndex(log, offset, max)));
    }
  }
}

module TxCache {
  import opened Wrappers
  import opened TxOrder
  import opened TxServer

  const PAGE_SIZE: nat := 200
  const TTL: int := 300_000  // transactionsCacheTTL in milliseconds

  type Time = int

  datatype FetchError = DaemonNotRunning | CallFailed

  /** The cached view; `seen` is how much of the server's log it covers. */
  class Cache {
    var txs: array<Tx>
    var lastIndex: nat
    var nextOffset: nat
    var lastUpdated: Option<Time>
    var dirty: bool
    ghost var seen: nat

    constructor ()
      ensures fresh(txs) && txs.Length == 0 && lastIndex == 0 && dirty && seen == 0
    {
      txs := new Tx[0];
      lastIndex, nextOffset, lastUpdated, dirty, seen := 0, 0, None, true, 0;
    }

    /** The cache is the stable sort of a prefix of the log, and the cursor is
        inside that prefix. */
    ghost predicate Covers(log: seq<Tx>)
      reads this, txs
    {
      && seen <= |log|
      && txs[..] == Sort(log[..seen])
      && (lastIndex == 0 || lastIndex < seen)
    }
  }

  /** The first `limit` entries; 0 stands for no limit. */
  function Limited(xs: seq<Tx>, limit: nat): seq<Tx> {
    if 0 < limit < |xs| then xs[..limit] else xs
  }

  /** What a fetch owes its caller, apart from how it is computed: the newest entries
      of the log first, all of them or as many as the limit allows ... */
  lemma LimitedSortMeans(log: seq<Tx>, limit: nat)
    ensures var r := Limited(Sort(log), limit);
            && r <= Sort(log) && |r| == (if limit == 0 || |log| <= limit then |log| else limit)
            && NewestFirst(r)
  {
    SortIsNewestFirst(log);
    SortLength(log);
  }

  lemma LeftOut(log: seq<Tx>, r: seq<Tx>, rest: seq<Tx>, y: Tx)
    requires multiset(r + rest) == multiset(log) && y in multiset(log) - multiset(r)
    ensures y in rest
  {
    assert multiset(r + rest) == multiset(r) + multiset(rest);
  }

  /** ... and nothing newer is left out. */
  lemma LimitDropsTheOldest(log: seq<Tx>, limit: nat, x: Tx, y: Tx)
    requires var r := Limited(Sort(log), limit); x in r && y in multiset(log) - multiset(r)
    ensures x.time > y.time || (x.time == y.time && x.height >= y.height)
  {
    var s, r := Sort(log), Limited(Sort(log), limit);
    SortSorts(log);
    var rest := s[|r|..];
    assert s == r + rest;
    SortedMeans(r + rest);
    LeftOut(log, r, rest, y);
    NewerAcross(r, rest, x, y);
  }

  lemma NewerAcross(r: seq<Tx>, rest: seq<Tx>, x: Tx, y: Tx)
    requires NewestFirst(r + rest) && x in r && y in rest
    ensures x.time > y.time || (x.time == y.time && x.height >= y.height)
  {
    var i :| 0 <= i < |r| && r[i] == x;
    var j :| 0 <= j < |rest| && rest[j] == y;
    assert (r + rest)[i] == x && (r + rest)[|r| + j] == y;
  }

  // ------------------------------------------------------ sort and compact

  /** sort.SliceStable, which is library code, by its contract. */
  method StableSort(a: array<Tx>)
    modifies a
    ensures a[..] == Sort(old(a[..]))
  {
    var sorted := Sort(a[..]);
    SortSorts(a[..]);
    SameLength(sorted, a[..]);
    forall i | 0 <= i < a.Length {
      a[i] := sorted[i];
    }
    assert a[..] == sorted;
  }

  lemma SameLength(a: seq<Tx>, b: seq<Tx>)
    requires multiset(a) == multiset(b)
    ensures |a| == |b|
  {
    assert |multiset(a)| == |a| && |multiset(b)| == |b|;
  }

  /** The in-place compaction over allTxs[:0]: the first n cells end up holding
      the first copy of every hash, and the write index never passes the reader. */
  method Compact(a: array<Tx>) returns (n: nat)
    modifies a
    ensures n <= a.Length && a[..n] == KeepFirst(old(a[..]))
  {
    ghost var s := a[..];
    if a.Length <= 1 {
      KeepFirstOfDistinct(s);
      return a.Length;
    }
    var seen: set<string> := {};
    n := 0;
    for i := 0 to a.Length
      invariant n <= i && forall j :: i <= j < a.Length ==> a[j] == s[j]
      invariant a[..n] == KeepFirst(s[..i])
      invariant seen == Hashes(s[..i])
    {
      var tx := a[i];
      CompactStep(s, i);
      if tx.hash !in seen {
        ghost var kept := a[..n];
        seen := seen + {tx.hash};
        a[n] := tx;
        n := n + 1;
        assert a[..n] == kept + [tx];
      }
    }
    assert s[..a.Length] == s;
  }

  lemma CompactStep(s: seq<Tx>, i: nat)
    requires i < |s|
    ensures KeepFirst(s[..i + 1]) == KeepFirst(s[..i]) + if s[i].hash in Hashes(s[..i]) then [] else [s[i]]
    ensures Hashes(s[..i + 1]) == Hashes(s[..i]) + {s[i].hash}
  {
    assert s[..i + 1][..i] == s[..i];
    assert s[..i + 1] == s[..i] + [s[i]];
    HashesAppend(s[..i], [s[i]]);
  }

  // ------------------------------------------------------------- the client

  class Client {
    var cache: Cache?
    var txFetchLimit: nat
    var closing: bool

    ghost predicate Valid(server: Server)
      reads this, server, cache, if cache == null then {} else {cache.txs}
    {
      LogOk(server.log) && (cache != null ==> cache.Covers(server.log))
    }

    /** A new client's cache is dirty and empty, and so covers any log. */
    constructor (ghost server: Server)
      requires LogOk(server.log)
      ensures Valid(server) && fresh(cache) && fresh(cache.txs) && cache.txs.Length == 0
      ensures !closing && txFetchLimit == 0 && forall now :: !IsFresh(now)
    {
      var empty := new Cache();
      cache, txFetchLimit, closing := empty, 0, false;
      new;
      assert server.log[..0] == [] && empty.txs[..] == [];
    }

    /** After it no fetch takes the fast path, and a view that covered a log still
        covers it, so the next fetch reads again only from the cursor on. */
    method InvalidateTxCache()
      modifies cache
      ensures cache != null ==> cache.dirty && cache.txs == old(cache.txs) && cache.lastIndex == old(cache.lastIndex)
      ensures forall now :: !IsFresh(now)
      ensures cache != null ==> forall log :: old(cache.Covers(log)) ==> cache.Covers(log)
    {
      if cache != null {
        cache.dirty := true;
      }
    }

    predicate IsFresh(now: Time)
      reads this, cache
    {
      cache != null && !cache.dirty && cache.lastUpdated.Some? && now - cache.lastUpdated.value <= TTL
    }

    /** Reads the log from a cursor on, page by page. It ends for every server,
        even one that grows by a full page at each call, because the cursor
        strictly increases and stays within uint32. */
    method ReadFrom(server: Server, start: nat) returns (r: Option<Reply>)
      requires LogOk(server.log) && start <= |server.log|
      modifies server
      ensures LogOk(server.log) && old(server.log) <= server.log
      ensures r.Some? ==> r.value.txs == server.log[start..]
      ensures r.Some? ==> r.value.lastIndex == 0 || r.value.lastIndex == |server.log| - 1
      ensures old(server.offsets) <= server.offsets
      ensures forall k :: |old(server.offsets)| <= k < |server.offsets| ==> server.offsets[k] >= start
    {
      var cursor := start;
      var collected: seq<Tx> := [];
      var lastIndex := 0;
      while true
        invariant LogOk(server.log) && old(server.log) <= server.log
        invariant start <= cursor <= |server.log|
        invariant collected == server.log[start..cursor]
        invariant old(server.offsets) <= server.offsets
        invariant forall k :: |old(server.offsets)| <= k < |server.offsets| ==> server.offsets[k] >= start
        decreases MAX_UINT32 - cursor
      {
        ghost var before := server.log;
        var reply := server.GetTransactions(cursor % 0x1_0000_0000, PAGE_SIZE);
        if reply.None? {
          return None;
        }
        PageStep(before, server.log, start, cursor);
        lastIndex := reply.value.lastIndex;
        if |reply.value.txs| == 0 {
          break;
        }
        collected := collected + reply.value.txs;
        cursor := lastIndex + 1;
        if cursor > MAX_UINT32 {
          break;
        }
        if |reply.value.txs| < PAGE_SIZE {
          break;
        }
      }
      r := Some(Reply(collected, lastIndex));
    }

    /** The probe of a cache that is clean and fresh: true when the server answers
        and has nothing after the last entry the cache knows. */
    method ProbeIsEmpty(server: Server, lastIndex: nat) returns (empty: bool, ghost answered: bool)
      requires LogOk(server.log) && lastIndex < MAX_UINT32
      modifies server
      ensures LogOk(server.log) && old(server.log) <= server.log
      ensures server.offsets == old(server.offsets) + [lastIndex + 1]
      ensures empty <==> answered && |server.log| <= lastIndex + 1
    {
      var probe := server.GetTransactions((lastIndex + 1) % 0x1_0000_0000, 1);
      answered := probe.Some?;
      empty := probe.Some? && |probe.value.txs| == 0;
    }

    /** Sorts and compacts the cached and the newly read entries. */
    method Merge(existing: seq<Tx>, collected: seq<Tx>) returns (all: array<Tx>, n: nat)
      ensures fresh(all) && n <= all.Length
      ensures all[..n] == KeepFirst(Sort(existing + collected))
    {
      var both := existing + collected;
      all := new Tx[|both|](i requires 0 <= i < |both| => both[i]);
      assert all[..] == both;
      StableSort(all);
      n := Compact(all);
    }

    /** Every fetch that does not end on the fast path returns the stable
        newest-first sort of the whole log as of the last page read, cut to the
        limit, whatever earlier fetches cached and however the log grew; it reads
        only from the cached cursor on. The fast path returns the cached view,
        which is the same list unless it is empty. The result never shares
        storage with the cache. A failed fetch leaves the cached view alone.
        `answered` says whether a probe was made and answered: the fast path is taken
        exactly when one was and the log had nothing after the cursor, and it leaves
        the cache clean and fresh for the next fetch. */
    method FetchTransactions(server: Server, now: Time, force: bool, ignoreLimit: bool)
      returns (r: Result<array<Tx>, FetchError>, ghost fast: bool, ghost answered: bool)
      requires Valid(server)
      modifies server, cache
      ensures Valid(server) && old(server.log) <= server.log
      ensures closing ==> r == Err(DaemonNotRunning)
      ensures r.Ok? ==> fresh(r.value) && (cache != null ==> cache.txs != r.value)
      ensures r.Ok? && !fast ==> r.value[..] == Limited(Sort(server.log), if ignoreLimit then 0 else txFetchLimit)
      ensures r.Ok? ==> NewestFirst(r.value[..])
      ensures r.Ok? && cache != null ==> forall t :: IsFresh(t) <==> t - now <= 300_000
      ensures answered ==> !closing && !force && old(IsFresh(now))
      ensures !closing && !force && old(IsFresh(now)) ==>
                Probed(old(server.offsets), server.offsets, old(cache.lastIndex))
      ensures fast <==> answered && |server.log| <= old(cache.lastIndex) + 1
      ensures fast ==> r.Ok? && !cache.dirty && cache.lastUpdated == Some(now)
      ensures fast && old(cache.txs.Length) > 0 ==>
                r.value[..] == Limited(Sort(server.log), if ignoreLimit then 0 else txFetchLimit)
      ensures fast && old(cache.txs.Length) == 0 ==> r.value.Length == 0 && |server.log| <= 1
      ensures cache != null && r.Ok? && !fast ==>
                cache.txs[..] == Sort(server.log) && !cache.dirty && cache.lastUpdated == Some(now)
      ensures cache != null && (fast || r.Err?) ==>
                cache.txs == old(cache.txs) && cache.lastIndex == old(cache.lastIndex)
      ensures old(server.offsets) <= server.offsets
      ensures forall k :: |old(server.offsets)| <= k < |server.offsets| ==>
                server.offsets[k] >= if cache == null || force then 0 else old(cache.lastIndex)
    {
      fast, answered := false, false;
      if closing {
        return Err(DaemonNotRunning), false, false;
      }
      var limit := if ignoreLimit then 0 else txFetchLimit;
      if !force && IsFresh(now) {
        var cached;
        cached, answered := TryCached(server, now, limit);
        if cached.Some? {
          LimitedSortMeans(server.log, limit);
          return Ok(cached.value), true, true;
        }
      }
      r := Refresh(server, now, force, limit);
      LimitedSortMeans(server.log, limit);
    }

    /** The fast path: a copy of the cached view if the probe is answered empty. */
    method TryCached(server: Server, now: Time, limit: nat) returns (r: Option<array<Tx>>, ghost answered: bool)
      requires Valid(server) && IsFresh(now)
      modifies server, cache
      ensures Valid(server) && old(server.log) <= server.log
      ensures r.Some? <==> answered && |server.log| <= old(cache.lastIndex) + 1
      ensures r.Some? ==> fresh(r.value) && cache.txs != r.value && cache.lastUpdated == Some(now)
      ensures r.Some? && cache.txs.Length > 0 ==> r.value[..] == Limited(Sort(server.log), limit)
      ensures r.Some? && cache.txs.Length == 0 ==> r.value.Length == 0 && |server.log| <= 1
      ensures cache.txs == old(cache.txs) && cache.lastIndex == old(cache.lastIndex) && !cache.dirty
      ensures server.offsets == old(server.offsets) + [cache.lastIndex + 1]
    {
      SortLength(server.log[..cache.seen]);
      var empty;
      empty, answered := ProbeIsEmpty(server, cache.lastIndex);
      assert old(server.log)[..cache.seen] == server.log[..cache.seen];
      r := None;
      if empty {
        cache.lastUpdated := Some(now);
        ProbedPrefix(server.log, cache.seen, cache.lastIndex);
        var cached := CopyLimited(cache.txs[..], limit);
        r := Some(cached);
      }
    }

    /** The part of the fetch after the fast path. */
    method Refresh(server: Server, now: Time, force: bool, limit: nat) returns (r: Result<array<Tx>, FetchError>)
      requires Valid(server)
      modifies server, cache
      ensures Valid(server) && old(server.log) <= server.log
      ensures r.Ok? ==> fresh(r.value) && (cache != null ==> cache.txs != r.value)
      ensures r.Ok? ==> r.value[..] == Limited(Sort(server.log), limit)
      ensures cache != null && r.Ok? ==>
                cache.txs[..] == Sort(server.log) && !cache.dirty && cache.lastUpdated == Some(now)
      ensures cache != null && r.Err? ==> cache.txs == old(cache.txs) && cache.lastIndex == old(cache.lastIndex)
      ensures old(server.offsets) <= server.offsets
      ensures forall k :: |old(server.offsets)| <= k < |server.offsets| ==>
                server.offsets[k] >= if cache == null || force then 0 else old(cache.lastIndex)
    {
      var cursor := 0;
      var existing: seq<Tx> := [];
      ghost var seen := 0;
      if cache != null && !force {
        cursor := cache.lastIndex;
        existing := cache.txs[..];
        seen := cache.seen;
      }
      var reply := ReadFrom(server, cursor);
      if cache != null {
        assert old(server.log)[..cache.seen] == server.log[..cache.seen];
      }
      if reply.None? {
        return Err(CallFailed);
      }
      assert existing == Sort(server.log[..seen]);
      var all, n := Merge(existing, reply.value.txs);
      RefreshIsWholeSort(server.log, seen, cursor);
      if cache != null {
        Store(cache, server, all[..n], reply.value.lastIndex, now);
      }
      var result := CopyLimited(all[..n], limit);
      r := Ok(result);
    }
  }

  /** The first call made since `was` asked for the entry after the cursor. */
  predicate Probed(was: seq<nat>, offsets: seq<nat>, lastIndex: nat) {
    |was| < |offsets| && offsets[|was|] == lastIndex + 1
  }

  function Clamp(n: nat): nat {
    if n > MAX_UINT32 then MAX_UINT32 else n
  }

  /** Snapshots a refreshed list into the cache. */
  method Store(cache: Cache, server: Server, txs: seq<Tx>, lastIndex: nat, now: Time)
    requires LogOk(server.log) && txs == Sort(server.log)
    requires lastIndex == 0 || lastIndex == |server.log| - 1
    modifies cache
    ensures cache.Covers(server.log) && fresh(cache.txs) && cache.txs[..] == txs
    ensures !cache.dirty && cache.lastUpdated == Some(now)
    ensures cache.lastIndex == lastIndex
    ensures cache.nextOffset == if lastIndex + 1 <= 0xFFFF_FFFF then lastIndex + 1 else 0xFFFF_FFFF
  {
    cache.txs := new Tx[|txs|](i requires 0 <= i < |txs| => txs[i]);
    assert cache.txs[..] == txs;
    cache.lastIndex := lastIndex;
    cache.nextOffset := Clamp(lastIndex + 1);
    cache.lastUpdated := Some(now);
    cache.dirty := false;
    cache.seen := |server.log|;
    assert server.log[..cache.seen] == server.log;
  }

  method CopyLimited(xs: seq<Tx>, limit: nat) returns (r: array<Tx>)
    ensures fresh(r) && r[..] == Limited(xs, limit)
  {
    var ys := Limited(xs, limit);
    r := new Tx[|ys|](i requires 0 <= i < |ys| => ys[i]);
    assert r[..] == ys;
  }

  lemma SortLength(xs: seq<Tx>)
    ensures |Sort(xs)| == |xs|
  {
    SortSorts(xs);
    SameLength(Sort(xs), xs);
  }

  /** An empty probe after the cursor shows that the cached prefix is the whole
      log, unless nothing was cached. */
  lemma ProbedPrefix(log: seq<Tx>, seen: nat, lastIndex: nat)
    requires seen <= |log| <= lastIndex + 1 && (lastIndex == 0 || lastIndex < seen)
    ensures seen > 0 ==> log[..seen] == log
    ensures seen == 0 ==> |log| <= 1
  {
  }

  /** When is the fast path right? When the cache has seen a part of the log, its
      cursor is inside that part, `rest` has arrived since and the probe is empty,
      the cached list is what a forced rescan would return exactly when something
      was cached or nothing has arrived. */
  lemma FastPathExactIff(seen: seq<Tx>, rest: seq<Tx>, lastIndex: nat, limit: nat)
    requires lastIndex == 0 || lastIndex < |seen|
    requires Page(seen + rest, lastIndex + 1, 1) == []
    ensures Limited(Sort(seen), limit) == Limited(Sort(seen + rest), limit) <==> seen != [] || rest == []
  {
    SortLength(seen);
    SortLength(seen + rest);
    assert seen + [] == seen;
  }

  /** The corner: after a fetch of an empty log the probe asks for offset 1, so a
      first transaction goes unnoticed. */
  lemma FirstTransactionMissed(tx: Tx)
    ensures LogOk([tx]) && Page([tx], LastIndex([], 0, PAGE_SIZE) + 1, 1) == []
    ensures Sort([tx][..0]) == [] && Sort([tx]) == [tx]
  {
    assert [tx][..0] == [];
    assert [tx][1..] == [];
  }

  /** What one page adds to what was collected, and when it was the last one. */
  lemma PageStep(before: seq<Tx>, log: seq<Tx>, start: nat, cursor: nat)
    requires start <= cursor <= |before| && before <= log
    ensures var page := Page(log, cursor, PAGE_SIZE);
            && before[start..cursor] + page == log[start..cursor + |page|]
            && cursor + |page| <= |log|
            && (|page| < PAGE_SIZE ==> cursor + |page| == |log| && before[start..cursor] + page == log[start..])
            && (page == [] ==> before[start..cursor] == log[start..])
            && (page != [] ==> LastIndex(log, cursor, PAGE_SIZE) + 1 == cursor + |page|)
  {
    assert before[start..cursor] == log[start..cursor];
  }
}
