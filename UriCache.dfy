/**
 * URICache from the runtime-env agent: a cache of downloaded URIs, each
 * either in use or unused, with a running total of their sizes. Whenever the
 * total exceeds the bound, unused URIs are deleted (delete_fn is called on
 * each) until the total fits or no unused URI is left; URIs in use are never
 * deleted. The calls to delete_fn are recorded in order.
 */
module UriCache {

  type Uri = string

  /** The sum of the sizes of the given cached URIs. */
  ghost function TotalSize(sizes: map<Uri, nat>): nat
    decreases |sizes|
  {
    if sizes == map[] then 0
    else
      var uri :| uri in sizes;
      MapRemoveSmaller(sizes, uri);
      sizes[uri] + TotalSize(sizes - {uri})
  }

  lemma MapRemoveSmaller(sizes: map<Uri, nat>, uri: Uri)
    requires uri in sizes
    ensures |sizes - {uri}| < |sizes|
  {
    assert (sizes - {uri}).Keys == sizes.Keys - {uri};
    assert |sizes.Keys - {uri}| < |sizes.Keys|;
  }

  /** Taking out any one URI takes exactly its size off the total. */
  lemma {:induction false} TotalSizeRemove(sizes: map<Uri, nat>, uri: Uri)
    requires uri in sizes
    ensures TotalSize(sizes) == sizes[uri] + TotalSize(sizes - {uri})
    decreases |sizes|
  {
    var k :| k in sizes && TotalSize(sizes) == sizes[k] + TotalSize(sizes - {k});
    if k != uri {
      MapRemoveSmaller(sizes, k);
      MapRemoveSmaller(sizes, uri);
      TotalSizeRemove(sizes - {k}, uri);
      TotalSizeRemove(sizes - {uri}, k);
      assert sizes - {k} - {uri} == sizes - {uri} - {k};
    }
  }

  /** Recording a URI under a new size replaces its old size in the total. */
  lemma TotalSizeUpdate(sizes: map<Uri, nat>, uri: Uri, size: nat)
    ensures TotalSize(sizes[uri := size])
         == TotalSize(sizes) - (if uri in sizes then sizes[uri] else 0) + size
  {
    var updated := sizes[uri := size];
    TotalSizeRemove(updated, uri);
    if uri in sizes {
      TotalSizeRemove(sizes, uri);
      assert updated - {uri} == sizes - {uri};
    } else {
      assert updated - {uri} == sizes;
    }
  }

  /** Everything the cache holds and everything delete_fn has been called on. */
  datatype CacheState = CacheState(
    used: set<Uri>,
    unused: set<Uri>,
    sizes: map<Uri, nat>,
    total: int,
    deleteCalls: seq<Uri>)

  /**
   * Every cached URI is either used or unused, not both, has a recorded
   * size, and the running total is the sum of those sizes.
   */
  ghost predicate WellFormed(s: CacheState) {
    && s.used !! s.unused
    && s.used + s.unused == s.sizes.Keys
    && s.total == TotalSize(s.sizes)
  }

  ghost predicate NoDuplicates(log: seq<Uri>) {
    forall i, j :: 0 <= i < j < |log| ==> log[i] != log[j]
  }

  /**
   * t is a state _evict_if_needed may reach from s so far: it has deleted
   * some unused URIs, each exactly once and in the order of the new
   * delete_fn calls, and nothing else; and it only deleted while the total
   * was over the bound.
   */
  ghost predicate EvictingFrom(s: CacheState, t: CacheState, maxTotal: nat) {
    && |s.deleteCalls| <= |t.deleteCalls|
    && t.deleteCalls[..|s.deleteCalls|] == s.deleteCalls
    && var log := t.deleteCalls[|s.deleteCalls|..];
       && t.used == s.used
       && t.unused <= s.unused
       && t.sizes == s.sizes - (s.unused - t.unused)
       && NoDuplicates(log)
       && (forall u :: u in log <==> u in s.unused - t.unused)
       && (s.total <= maxTotal ==> t == s)
       && (log != [] ==> log[|log| - 1] in s.sizes && t.total + s.sizes[log[|log| - 1]] > maxTotal)
  }

  /** t is where _evict_if_needed stops: the total fits, or nothing unused is left. */
  ghost predicate EvictedFrom(s: CacheState, t: CacheState, maxTotal: nat) {
    && EvictingFrom(s, t, maxTotal)
    && (t.total <= maxTotal || t.unused == {})
  }

  /**
   * The first step of add(): the URI becomes used, is recorded with the
   * given size and the total grows by that size (net of any size it was
   * recorded with before).
   */
  ghost function Added(s: CacheState, uri: Uri, size: nat): (r: CacheState)
    requires WellFormed(s)
    ensures WellFormed(r)
    ensures uri in r.used && r.sizes[uri] == size
    ensures r.total == s.total - (if uri in s.sizes then s.sizes[uri] else 0) + size
    ensures r.sizes.Keys == s.sizes.Keys + {uri} && r.deleteCalls == s.deleteCalls
  {
    TotalSizeUpdate(s.sizes, uri, size);
    var r := CacheState(s.used + {uri}, s.unused - {uri}, s.sizes[uri := size],
      s.total - (if uri in s.sizes then s.sizes[uri] else 0) + size, s.deleteCalls);
    r
  }

  /** The first step of mark_unused(): a used URI becomes unused; anything else is left alone. */
  ghost function MarkedUnused(s: CacheState, uri: Uri): (r: CacheState)
    requires WellFormed(s)
    ensures WellFormed(r)
    ensures r.sizes == s.sizes && r.total == s.total && r.deleteCalls == s.deleteCalls
    ensures uri !in r.used
    ensures uri in s.used ==> uri in r.unused
    ensures uri !in s.used ==> r == s
  {
    if uri in s.used then s.(used := s.used - {uri}, unused := s.unused + {uri}) else s
  }

  /**
   * A state where the bound is exceeded and exactly one URI is unused can
   * only be left by deleting that URI, once, which takes exactly its size
   * off the total.
   */
  lemma SingleCandidateEvicted(s: CacheState, t: CacheState, maxTotal: nat, uri: Uri)
    requires WellFormed(s) && WellFormed(t) && EvictedFrom(s, t, maxTotal)
    requires s.unused == {uri} && s.total > maxTotal
    ensures t == CacheState(s.used, {}, s.sizes - {uri}, s.total - s.sizes[uri], s.deleteCalls + [uri])
  {
    TotalSizeRemove(s.sizes, uri);
    UnchangedUnusedKeepsTotal(s, t, maxTotal);
    assert t.unused != s.unused;
    assert t.unused == {};
    var log := t.deleteCalls[|s.deleteCalls|..];
    assert uri in log;
    forall i | 0 <= i < |log|
      ensures log[i] == uri
    {
      assert log[i] in log;
    }
    FirstTwo(log);
    assert |log| == 1;
    assert log == [uri];
    assert t.deleteCalls == t.deleteCalls[..|s.deleteCalls|] + log;
    assert t.unused == {} && t.used == s.used;
    assert t.sizes == s.sizes - {uri};
    assert t.total == s.total - s.sizes[uri];
  }

  /** Names the first two entries of a log that has at least two. */
  lemma FirstTwo(log: seq<Uri>)
    ensures 1 < |log| ==> log[0] in log && log[1] in log
  {
  }

  /** Before the first deletion the eviction has done nothing. */
  lemma EvictingFromStart(s: CacheState, maxTotal: nat)
    ensures EvictingFrom(s, s, maxTotal)
  {
    assert s.deleteCalls[|s.deleteCalls|..] == [];
    assert s.sizes == s.sizes - (s.unused - s.unused);
  }

  /** One step of _evict_if_needed: an unused URI is deleted and delete_fn is called on it. */
  ghost function Deleted(s: CacheState, uri: Uri): (r: CacheState)
    requires WellFormed(s) && uri in s.unused
    ensures WellFormed(r)
    ensures r.used == s.used && r.unused == s.unused - {uri} && r.sizes == s.sizes - {uri}
    ensures r.total == s.total - s.sizes[uri] && r.deleteCalls == s.deleteCalls + [uri]
  {
    TotalSizeRemove(s.sizes, uri);
    CacheState(s.used, s.unused - {uri}, s.sizes - {uri}, s.total - s.sizes[uri], s.deleteCalls + [uri])
  }

  /** An eviction that deleted nothing leaves the total as it was. */
  lemma UnchangedUnusedKeepsTotal(s: CacheState, t: CacheState, maxTotal: nat)
    requires WellFormed(s) && WellFormed(t) && EvictingFrom(s, t, maxTotal)
    ensures t.unused == s.unused ==> t.sizes == s.sizes && t.total == s.total
  {
    if t.unused == s.unused {
      assert s.unused - t.unused == {};
      assert t.sizes == s.sizes;
    }
  }

  /** With nothing unused there is nothing to delete: the state stays as it is. */
  lemma NothingUnusedNothingEvicted(s: CacheState, t: CacheState, maxTotal: nat)
    requires WellFormed(s) && WellFormed(t) && EvictedFrom(s, t, maxTotal)
    requires s.unused == {}
    ensures t == s
  {
    var log := t.deleteCalls[|s.deleteCalls|..];
    assert t.deleteCalls == t.deleteCalls[..|s.deleteCalls|] + log;
    assert t.sizes == s.sizes;
  }

  /**
   * With a bound of zero, once no URI is in use the total is zero: every
   * unused URI of positive size has been deleted.
   */
  lemma ZeroBoundEmptiesTotal(s: CacheState, t: CacheState)
    requires WellFormed(t) && EvictedFrom(s, t, 0)
    requires t.used == {}
    ensures t.total == 0
  {
    if t.unused == {} {
      assert t.sizes == map[];
    }
  }

  /** add() of a URI when nothing else is unused deletes nothing. */
  lemma AddWithNothingUnused(s: CacheState, t: CacheState, maxTotal: nat, uri: Uri, size: nat)
    requires WellFormed(s) && WellFormed(t) && EvictedFrom(Added(s, uri, size), t, maxTotal)
    requires s.unused <= {uri}
    ensures t.used == s.used + {uri} && t.unused == {} && t.sizes == s.sizes[uri := size]
    ensures t.total == s.total - (if uri in s.sizes then s.sizes[uri] else 0) + size
    ensures t.deleteCalls == s.deleteCalls
  {
    NothingUnusedNothingEvicted(Added(s, uri, size), t, maxTotal);
  }

  /**
   * mark_unused() of the one used URI that becomes the only unused one,
   * with the total over the bound, deletes exactly that URI.
   */
  lemma MarkUnusedEvictsIt(s: CacheState, t: CacheState, maxTotal: nat, uri: Uri)
    requires WellFormed(s) && WellFormed(t) && EvictedFrom(MarkedUnused(s, uri), t, maxTotal)
    requires uri in s.used && s.unused == {} && s.total > maxTotal
    ensures t.used == s.used - {uri} && t.unused == {} && t.sizes == s.sizes - {uri}
    ensures t.total == s.total - s.sizes[uri] && t.deleteCalls == s.deleteCalls + [uri]
  {
    SingleCandidateEvicted(MarkedUnused(s, uri), t, maxTotal, uri);
  }

  /**
   * add() when exactly one other URI is unused and the new total exceeds
   * the bound deletes exactly that URI.
   */
  lemma AddEvictsOnlyCandidate(s: CacheState, t: CacheState, maxTotal: nat, uri: Uri, size: nat, victim: Uri)
    requires WellFormed(s) && WellFormed(t) && EvictedFrom(Added(s, uri, size), t, maxTotal)
    requires s.unused - {uri} == {victim} && Added(s, uri, size).total > maxTotal
    ensures t.used == s.used + {uri} && t.unused == {} && t.sizes == s.sizes[uri := size] - {victim}
    ensures t.total == s.total - (if uri in s.sizes then s.sizes[uri] else 0) + size - s.sizes[victim]
    ensures t.deleteCalls == s.deleteCalls + [victim]
  {
    SingleCandidateEvicted(Added(s, uri, size), t, maxTotal, victim);
  }

  /** mark_unused() that leaves the total within the bound deletes nothing. */
  lemma MarkUnusedWithinBound(s: CacheState, t: CacheState, maxTotal: nat, uri: Uri)
    requires WellFormed(s) && WellFormed(t) && EvictedFrom(MarkedUnused(s, uri), t, maxTotal)
    requires uri in s.used && s.total <= maxTotal
    ensures t.used == s.used - {uri} && t.unused == s.unused + {uri}
    ensures t.sizes == s.sizes && t.total == s.total && t.deleteCalls == s.deleteCalls
  {
  }

  class URICache {
    var usedUris: set<Uri>
    var unusedUris: set<Uri>
    var uriSizes: map<Uri, nat>
    var totalSizeBytes: int
    const maxTotalSizeBytes: nat
    /** The URIs delete_fn has been called on, in call order. */
    var deleteCalls: seq<Uri>

    ghost function State(): CacheState
      reads this
    {
      CacheState(usedUris, unusedUris, uriSizes, totalSizeBytes, deleteCalls)
    }

    ghost predicate Valid()
      reads this
    {
      WellFormed(State())
    }

    constructor (maxTotalSizeBytes: nat)
      ensures Valid()
      ensures State() == CacheState({}, {}, map[], 0, [])
      ensures this.maxTotalSizeBytes == maxTotalSizeBytes
    {
      usedUris, unusedUris, uriSizes, totalSizeBytes := {}, {}, map[], 0;
      deleteCalls := [];
      this.maxTotalSizeBytes := maxTotalSizeBytes;
    }

    /** __contains__: a URI is in the cache when it has a recorded size. */
    function Contains(uri: Uri): (b: bool)
      reads this
      requires Valid()
      ensures b <==> uri in uriSizes
    {
      uri in usedUris || uri in unusedUris
    }

    /** get_total_size_bytes: the sum of the sizes of the cached URIs. */
    function GetTotalSizeBytes(): (n: int)
      reads this
      requires Valid()
      ensures n == TotalSize(uriSizes) && n >= 0
    {
      totalSizeBytes
    }

    /** add: record the URI as used with its size, then evict if needed. */
    method Add(uri: Uri, sizeBytes: nat)
      requires Valid()
      modifies this
      ensures Valid()
      ensures EvictedFrom(Added(old(State()), uri, sizeBytes), State(), maxTotalSizeBytes)
    {
      ghost var s := Added(State(), uri, sizeBytes);
      totalSizeBytes := totalSizeBytes - (if uri in uriSizes then uriSizes[uri] else 0) + sizeBytes;
      unusedUris := unusedUris - {uri};
      usedUris := usedUris + {uri};
      uriSizes := uriSizes[uri := sizeBytes];
      assert State() == s;
      EvictIfNeeded();
    }

    /** mark_unused: a used URI becomes unused, then evict if needed. */
    method MarkUnused(uri: Uri)
      requires Valid()
      modifies this
      ensures Valid()
      ensures EvictedFrom(MarkedUnused(old(State()), uri), State(), maxTotalSizeBytes)
    {
      if uri in usedUris {
        unusedUris := unusedUris + {uri};
        usedUris := usedUris - {uri};
      }
      EvictIfNeeded();
    }

    /**
     * mark_used: an unused URI becomes used again; a URI that is not in the
     * cache is an error (ValueError) and changes nothing. Nothing is evicted.
     */
    method MarkUsed(uri: Uri) returns (ok: bool)
      requires Valid()
      modifies this
      ensures Valid()
      ensures ok <==> old(Contains(uri))
      ensures ok ==> usedUris == old(usedUris) + {uri} && unusedUris == old(unusedUris) - {uri}
      ensures !ok ==> usedUris == old(usedUris) && unusedUris == old(unusedUris)
      ensures uriSizes == old(uriSizes) && totalSizeBytes == old(totalSizeBytes)
      ensures deleteCalls == old(deleteCalls)
    {
      if uri in usedUris {
        ok := true;
      } else if uri in unusedUris {
        usedUris := usedUris + {uri};
        unusedUris := unusedUris - {uri};
        ok := true;
      } else {
        ok := false;
      }
    }

    /**
     * _evict_if_needed: while some URI is unused and the total exceeds the
     * bound, delete an arbitrary unused URI.
     */
    method EvictIfNeeded()
      requires Valid()
      modifies this
      ensures Valid()
      ensures EvictedFrom(old(State()), State(), maxTotalSizeBytes)
    {
      ghost var s0 := State();
      EvictingFromStart(s0, maxTotalSizeBytes);
      while unusedUris != {} && totalSizeBytes > maxTotalSizeBytes
        invariant Valid()
        invariant EvictingFrom(s0, State(), maxTotalSizeBytes)
        decreases unusedUris
      {
        var uri :| uri in unusedUris;
        EvictionStep(s0, State(), maxTotalSizeBytes, uri);
        ghost var next := Deleted(State(), uri);
        unusedUris := unusedUris - {uri};
        totalSizeBytes := totalSizeBytes - uriSizes[uri];
        uriSizes := uriSizes - {uri};
        deleteCalls := deleteCalls + [uri];
        assert State() == next;
      }
    }
  }

  /** One more deletion of an unused URI while over the bound extends an eviction in progress. */
  lemma EvictionStep(s0: CacheState, before: CacheState, maxTotal: nat, uri: Uri)
    requires WellFormed(s0) && WellFormed(before) && EvictingFrom(s0, before, maxTotal)
    requires uri in before.unused && before.total > maxTotal
    ensures EvictingFrom(s0, Deleted(before, uri), maxTotal)
  {
    var after := Deleted(before, uri);
    var n := |s0.deleteCalls|;
    var log0 := before.deleteCalls[n..];
    var log := after.deleteCalls[n..];
    assert log == log0 + [uri];
    assert after.deleteCalls[..n] == before.deleteCalls[..n];
    assert uri !in log0;
    assert s0.sizes[uri] == before.sizes[uri];
    assert after.sizes == s0.sizes - (s0.unused - after.unused);
  }

  /** add() when no other URI is unused: nothing is deleted. */
  method AddWithoutEviction(cache: URICache, uri: Uri, sizeBytes: nat)
    requires cache.Valid() && cache.unusedUris <= {uri}
    modifies cache
    ensures cache.Valid()
    ensures cache.usedUris == old(cache.usedUris) + {uri} && cache.unusedUris == {}
    ensures cache.uriSizes == old(cache.uriSizes)[uri := sizeBytes]
    ensures cache.totalSizeBytes == old(cache.totalSizeBytes)
      - (if uri in old(cache.uriSizes) then old(cache.uriSizes)[uri] else 0) + sizeBytes
    ensures cache.deleteCalls == old(cache.deleteCalls)
  {
    ghost var s := cache.State();
    cache.Add(uri, sizeBytes);
    AddWithNothingUnused(s, cache.State(), cache.maxTotalSizeBytes, uri, sizeBytes);
  }

  /** mark_unused() of the only URI that becomes unused, over the bound: it is deleted. */
  method MarkUnusedAndDelete(cache: URICache, uri: Uri)
    requires cache.Valid() && uri in cache.usedUris && cache.unusedUris == {}
    requires cache.totalSizeBytes > cache.maxTotalSizeBytes
    modifies cache
    ensures cache.Valid()
    ensures cache.usedUris == old(cache.usedUris) - {uri} && cache.unusedUris == {}
    ensures cache.uriSizes == old(cache.uriSizes) - {uri}
    ensures cache.totalSizeBytes == old(cache.totalSizeBytes) - old(cache.uriSizes)[uri]
    ensures cache.deleteCalls == old(cache.deleteCalls) + [uri]
  {
    ghost var s := cache.State();
    cache.MarkUnused(uri);
    MarkUnusedEvictsIt(s, cache.State(), cache.maxTotalSizeBytes, uri);
  }

  /** add() when exactly one other URI is unused and the bound is exceeded: that URI is deleted. */
  method AddEvictingOne(cache: URICache, uri: Uri, sizeBytes: nat, victim: Uri)
    requires cache.Valid() && cache.unusedUris - {uri} == {victim}
    requires cache.totalSizeBytes - (if uri in cache.uriSizes then cache.uriSizes[uri] else 0) + sizeBytes
             > cache.maxTotalSizeBytes
    modifies cache
    ensures cache.Valid()
    ensures cache.usedUris == old(cache.usedUris) + {uri} && cache.unusedUris == {}
    ensures cache.uriSizes == old(cache.uriSizes)[uri := sizeBytes] - {victim}
    ensures cache.totalSizeBytes == old(cache.totalSizeBytes)
      - (if uri in old(cache.uriSizes) then old(cache.uriSizes)[uri] else 0) + sizeBytes
      - old(cache.uriSizes)[victim]
    ensures cache.deleteCalls == old(cache.deleteCalls) + [victim]
  {
    ghost var s := cache.State();
    cache.Add(uri, sizeBytes);
    AddEvictsOnlyCandidate(s, cache.State(), cache.maxTotalSizeBytes, uri, sizeBytes, victim);
  }

  /** mark_unused() of a used URI that leaves the total within the bound: nothing is deleted. */
  method MarkUnusedWithoutEviction(cache: URICache, uri: Uri)
    requires cache.Valid() && uri in cache.usedUris && cache.totalSizeBytes <= cache.maxTotalSizeBytes
    modifies cache
    ensures cache.Valid()
    ensures cache.usedUris == old(cache.usedUris) - {uri}
    ensures cache.unusedUris == old(cache.unusedUris) + {uri}
    ensures cache.uriSizes == old(cache.uriSizes) && cache.totalSizeBytes == old(cache.totalSizeBytes)
    ensures cache.deleteCalls == old(cache.deleteCalls)
  {
    ghost var s := cache.State();
    cache.MarkUnused(uri);
    MarkUnusedWithinBound(s, cache.State(), cache.maxTotalSizeBytes, uri);
  }

  /**
   * test_zero_cache_size: with a bound of zero every URI is deleted as soon
   * as it is marked unused, so the total drops back to zero.
   */
  method ZeroCacheSize() returns (afterAdd: int, afterUnused: int, afterTwoAdds: int, atEnd: int)
    ensures afterAdd == 5 && afterUnused == 0 && afterTwoAdds == 8 && atEnd == 0
  {
    var cache := new URICache(0);
    AddWithoutEviction(cache, "5", 5);
    afterAdd := cache.GetTotalSizeBytes();
    MarkUnusedAndDelete(cache, "5");
    afterUnused := cache.GetTotalSizeBytes();
    AddWithoutEviction(cache, "3", 3);
    AddWithoutEviction(cache, "5", 5);
    afterTwoAdds := cache.GetTotalSizeBytes();
    assert cache.uriSizes["3"] == 3;
    MarkUnusedAndDelete(cache, "3");
    assert cache.uriSizes["5"] == 5;
    MarkUnusedAndDelete(cache, "5");
    atEnd := cache.GetTotalSizeBytes();
  }

  /**
   * test_nonzero_cache_size: with a bound of 10, adding a third URI of size
   * 4 deletes the one unused URI and keeps the two in use.
   */
  method NonzeroCacheSize() returns (aCachedWhileUnused: bool, total: int, aCached: bool, bCached: bool, cCached: bool)
    ensures aCachedWhileUnused && total == 8 && !aCached && bCached && cCached
  {
    var cache := new URICache(10);
    AddWithoutEviction(cache, "a", 4);
    AddWithoutEviction(cache, "b", 4);
    MarkUnusedWithoutEviction(cache, "a");
    aCachedWhileUnused := cache.Contains("a");
    assert cache.uriSizes["a"] == 4;
    AddEvictingOne(cache, "c", 4, "a");
    total := cache.GetTotalSizeBytes();
    aCached, bCached, cCached := cache.Contains("a"), cache.Contains("b"), cache.Contains("c");
  }

  /** test_mark_used_nonadded_uri_error: mark_used of a URI never added is an error. */
  method MarkUsedNonAddedUri(maxTotalSizeBytes: nat) returns (ok: bool)
    ensures !ok
  {
    var cache := new URICache(maxTotalSizeBytes);
    ok := cache.MarkUsed("nonadded_uri");
  }

  /**
   * test_mark_used: a URI marked used again survives the eviction that a
   * large addition triggers; the other unused URI is deleted instead, and
   * the large URI is deleted as soon as it is marked unused.
   */
  method MarkUsedProtects() returns (bothCached: bool, totalUnused: int, marked: bool,
                                     survivors: bool, totalAfterBig: int, bigCached: bool, atEnd: int)
    ensures bothCached && totalUnused == 6 && marked && survivors && totalAfterBig == 303
    ensures !bigCached && atEnd == 3
  {
    var cache := new URICache(10);
    AddWithoutEviction(cache, "a", 3);
    AddWithoutEviction(cache, "b", 3);
    MarkUnusedWithoutEviction(cache, "a");
    MarkUnusedWithoutEviction(cache, "b");
    bothCached := cache.Contains("a") && cache.Contains("b");
    totalUnused := cache.GetTotalSizeBytes();
    marked, survivors, totalAfterBig, bigCached, atEnd := MarkUsedThenAddBig(cache);
  }

  /**
   * The rest of test_mark_used, from a cache holding "a" and "b" (size 3
   * each), both unused.
   */
  method MarkUsedThenAddBig(cache: URICache)
    returns (marked: bool, survivors: bool, totalAfterBig: int, bigCached: bool, atEnd: int)
    requires cache.Valid() && cache.maxTotalSizeBytes == 10
    requires cache.usedUris == {} && cache.unusedUris == {"a", "b"}
    requires cache.uriSizes == map["a" := 3, "b" := 3] && cache.totalSizeBytes == 6
    modifies cache
    ensures marked && survivors && totalAfterBig == 303 && !bigCached && atEnd == 3
  {
    marked := cache.MarkUsed("a");
    AddEvictingOne(cache, "big", 300, "b");
    survivors := cache.Contains("a") && cache.Contains("big") && !cache.Contains("b");
    totalAfterBig := cache.GetTotalSizeBytes();
    MarkUnusedAndDelete(cache, "big");
    bigCached := cache.Contains("big");
    atEnd := cache.GetTotalSizeBytes();
  }

  /**
   * test_delete_fn_called: delete_fn is called once per deleted URI, only
   * while the bound is exceeded and only on unused URIs.
   */
  method DeleteFnCalled() returns (calls1: nat, calls2: nat, calls3: nat, calls4: nat, calls5: nat)
    ensures calls1 == 1 && calls2 == 2 && calls3 == 2 && calls4 == 3 && calls5 == 4
  {
    var cache := new URICache(10);
    AddWithoutEviction(cache, "a", 8);
    AddWithoutEviction(cache, "b", 6);
    MarkUnusedAndDelete(cache, "b");
    calls1 := |cache.deleteCalls|;
    calls2, calls3, calls4, calls5 := DeleteFnCalledWithOnlyAInUse(cache);
  }

  /**
   * The rest of test_delete_fn_called, from a cache that holds only "a"
   * (size 8, in use) after one deletion.
   */
  method DeleteFnCalledWithOnlyAInUse(cache: URICache) returns (calls2: nat, calls3: nat, calls4: nat, calls5: nat)
    requires cache.Valid() && cache.maxTotalSizeBytes == 10 && |cache.deleteCalls| == 1
    requires cache.usedUris == {"a"} && cache.unusedUris == {} && cache.uriSizes == map["a" := 8]
    requires cache.totalSizeBytes == 8
    modifies cache
    ensures calls2 == 2 && calls3 == 2 && calls4 == 3 && calls5 == 4
  {
    AddWithoutEviction(cache, "c", 4);
    MarkUnusedAndDelete(cache, "c");
    calls2 := |cache.deleteCalls|;
    MarkUnusedWithoutEviction(cache, "a");
    calls3 := |cache.deleteCalls|;
    AddEvictingOne(cache, "d", 20, "a");
    calls4 := |cache.deleteCalls|;
    MarkUnusedAndDelete(cache, "d");
    calls5 := |cache.deleteCalls|;
  }
}
