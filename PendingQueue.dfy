/**
 * The manager's pending_placement_groups_: an ordered multimap from rank (the
 * nanosecond time at which the group may next be scheduled) to the group and
 * the backoff that travels with it. It is modelled as a sequence sorted by
 * rank; a new entry goes after every entry whose rank is not larger (the
 * multimap's upper bound), so groups with equal ranks leave in insertion order.
 */
module PendingQueue {
  import opened Backoff

  type PgId = nat

  datatype Entry = Entry(rank: int, pg: PgId, backoff: ExponentialBackoff)

  ghost predicate Sorted(q: seq<Entry>) {
    forall i, j :: 0 <= i < j < |q| ==> q[i].rank <= q[j].rank
  }

  /** No group is queued twice. */
  ghost predicate Distinct(q: seq<Entry>) {
    forall i, j :: 0 <= i < j < |q| ==> q[i].pg != q[j].pg
  }

  /** Every queued backoff has a usable multiplier. */
  ghost predicate BackoffsWellFormed(q: seq<Entry>) {
    forall e :: e in q ==> e.backoff.WellFormed()
  }

  function Ids(q: seq<Entry>): set<PgId> {
    set e | e in q :: e.pg
  }

  /**
   * The multimap's upper_bound(rank): the first position whose rank is larger
   * than the given one.
   */
  function UpperBound(q: seq<Entry>, rank: int): (i: nat)
    requires Sorted(q)
    ensures i <= |q|
    ensures forall j :: 0 <= j < i ==> q[j].rank <= rank
    ensures forall j :: i <= j < |q| ==> q[j].rank > rank
  {
    if q == [] || q[0].rank > rank then 0 else 1 + UpperBound(q[1..], rank)
  }

  /**
   * emplace(rank, value) on the multimap: the result is still sorted, holds
   * exactly the old entries and the new one, keeps the old entries in their
   * order, and places the new entry after every old entry of rank <= its own
   * and before every old entry of larger rank.
   */
  function Insert(q: seq<Entry>, e: Entry): (r: seq<Entry>)
    requires Sorted(q)
    ensures Sorted(r)
    ensures |r| == |q| + 1
    ensures var i := UpperBound(q, e.rank);
      r[i] == e && r[..i] == q[..i] && r[i + 1..] == q[i..]
  {
    var i := UpperBound(q, e.rank);
    SplicePreservesOrder(q, e, i);
    q[..i] + [e] + q[i..]
  }

  /** The insertion holds exactly the old entries and the new one. */
  lemma InsertContents(q: seq<Entry>, e: Entry)
    requires Sorted(q)
    ensures multiset(Insert(q, e)) == multiset(q) + multiset{e}
    ensures Ids(Insert(q, e)) == Ids(q) + {e.pg}
  {
    SpliceContents(q, e, UpperBound(q, e.rank));
  }

  lemma SplicePreservesOrder(q: seq<Entry>, e: Entry, i: nat)
    requires Sorted(q) && i <= |q|
    requires forall j :: 0 <= j < i ==> q[j].rank <= e.rank
    requires forall j :: i <= j < |q| ==> q[j].rank > e.rank
    ensures Sorted(q[..i] + [e] + q[i..])
  {
    var r := q[..i] + [e] + q[i..];
    forall a, b | 0 <= a < b < |r|
      ensures r[a].rank <= r[b].rank
    {
      if a < i && b < i {
        assert r[a] == q[a] && r[b] == q[b];
      } else if a < i && b == i {
        assert r[a] == q[a];
      } else if a < i {
        assert r[a] == q[a] && r[b] == q[b - 1];
      } else if a == i {
        assert r[b] == q[b - 1];
      } else {
        assert r[a] == q[a - 1] && r[b] == q[b - 1];
      }
    }
  }

  lemma SpliceContents(q: seq<Entry>, e: Entry, i: nat)
    requires i <= |q|
    ensures multiset(q[..i] + [e] + q[i..]) == multiset(q) + multiset{e}
    ensures Ids(q[..i] + [e] + q[i..]) == Ids(q) + {e.pg}
  {
    var r := q[..i] + [e] + q[i..];
    assert q == q[..i] + q[i..];
    assert multiset(r) == multiset(q) + multiset{e};
    assert forall x :: x in r <==> x in multiset(r);
    assert forall x :: x in q <==> x in multiset(q);
  }

  /** An insertion of a group that is not queued keeps every group queued at most once. */
  lemma {:induction false} InsertKeepsDistinct(q: seq<Entry>, e: Entry)
    requires Sorted(q) && Distinct(q)
    requires e.pg !in Ids(q)
    ensures Distinct(Insert(q, e))
  {
    var r := Insert(q, e);
    var i := UpperBound(q, e.rank);
    InsertContents(q, e);
    forall a, b | 0 <= a < b < |r|
      ensures r[a].pg != r[b].pg
    {
      assert forall k :: 0 <= k < i ==> r[k] == q[k];
      assert forall k :: i < k < |r| ==> r[k] == q[k - 1];
      if a == i {
        assert r[b] in q;
      } else if b == i {
        assert r[a] in q;
      }
    }
  }

  /**
   * Ties keep insertion order: every queued entry whose rank equals the new
   * entry's rank still comes before it.
   */
  lemma {:induction false} InsertIsFifoAmongEqualRanks(q: seq<Entry>, e: Entry, k: nat)
    requires Sorted(q)
    requires k < |q| && q[k].rank == e.rank
    ensures k < UpperBound(q, e.rank)
    ensures Insert(q, e)[k] == q[k]
  {
  }

  /** An insertion of an entry with a well-formed backoff keeps every queued backoff well-formed. */
  lemma InsertKeepsBackoffsWellFormed(q: seq<Entry>, e: Entry)
    requires Sorted(q) && BackoffsWellFormed(q) && e.backoff.WellFormed()
    ensures BackoffsWellFormed(Insert(q, e))
  {
    var r := Insert(q, e);
    InsertContents(q, e);
    forall x | x in r
      ensures x.backoff.WellFormed()
    {
      assert x in multiset(r);
    }
  }

  /** Inserting into a queue of one entry: a rank that is not smaller goes behind it, a smaller one in front. */
  lemma InsertNextToOne(x: Entry, e: Entry)
    ensures Sorted([x])
    ensures Insert([x], e) == if x.rank <= e.rank then [x, e] else [e, x]
  {
    assert Sorted([x]);
    if x.rank <= e.rank {
      assert UpperBound([x], e.rank) == 1;
    } else {
      assert UpperBound([x], e.rank) == 0;
    }
  }

  /** Inserting into the empty queue. */
  lemma InsertIntoEmpty(e: Entry)
    ensures Sorted([])
    ensures Insert([], e) == [e]
  {
    assert Sorted([]);
  }

  /** The head of a sorted queue has the smallest rank. */
  lemma HeadIsMinimum(q: seq<Entry>, x: Entry)
    requires Sorted(q) && x in q
    ensures q[0].rank <= x.rank
  {
  }

  /** Removing the head (erase(begin())) keeps the queue sorted and distinct, and drops only that group. */
  lemma {:induction false} PopHead(q: seq<Entry>)
    requires Sorted(q) && Distinct(q) && q != []
    ensures Sorted(q[1..]) && Distinct(q[1..])
    ensures Ids(q[1..]) == Ids(q) - {q[0].pg}
    ensures BackoffsWellFormed(q) ==> BackoffsWellFormed(q[1..]) && q[0].backoff.WellFormed()
  {
    forall x | x in Ids(q) - {q[0].pg}
      ensures x in Ids(q[1..])
    {
      var e :| e in q && e.pg == x;
      assert e != q[0];
    }
    forall x | x in Ids(q[1..])
      ensures x != q[0].pg
    {
      var k :| 0 <= k < |q[1..]| && q[1..][k].pg == x;
      assert q[k + 1].pg == x;
    }
  }
}
