/**
 * The pending-queue part of the GCS placement-group manager: registration,
 * the scheduling pass, and the scheduler's retryable-failure continuation.
 * The clock is a parameter (`now`, in nanoseconds); the asynchronous store
 * write and the scheduler are reduced to explicit steps and a call log.
 */
module PlacementGroupManager {
  import opened Wrappers
  import opened Backoff
  import opened PendingQueue

  /** rpc::PlacementGroupTableData::PlacementGroupState. */
  datatype PlacementGroupState = Pending | Prepared | Created | Removed | Rescheduling

  /**
   * What ScheduleUnplacedBundles receives: the group, and (captured by its
   * failure continuation) the backoff the group was dequeued with.
   */
  datatype SchedulePgRequest = SchedulePgRequest(pg: PgId, backoff: ExponentialBackoff)

  class GcsPlacementGroupManager {
    // Retry configuration, in nanoseconds.
    const retryMinInterval: nat
    const retryMultiplier: nat
    const retryMaxInterval: nat

    /** pending_placement_groups_, sorted by rank. */
    var pendingPlacementGroups: seq<Entry>
    /** registered_placement_groups_ with each group's state. */
    var registeredPlacementGroups: map<PgId, PlacementGroupState>
    /** Groups whose store write has not been acknowledged (their register callbacks are still held). */
    var awaitingPersist: set<PgId>
    /** The request in flight, if any: the scheduling-in-progress marker. */
    var schedulingInProgress: Option<SchedulePgRequest>
    /** Every ScheduleUnplacedBundles call made so far, in order. */
    var scheduledRequests: seq<SchedulePgRequest>

    ghost predicate Valid()
      reads this
    {
      && retryMultiplier >= 1
      && Sorted(pendingPlacementGroups)
      && Distinct(pendingPlacementGroups)
      && BackoffsWellFormed(pendingPlacementGroups)
      && Ids(pendingPlacementGroups) <= registeredPlacementGroups.Keys
      && awaitingPersist <= registeredPlacementGroups.Keys
      && (schedulingInProgress.Some? ==>
            && schedulingInProgress.value.pg in registeredPlacementGroups
            && schedulingInProgress.value.pg !in Ids(pendingPlacementGroups)
            && schedulingInProgress.value.backoff.WellFormed())
    }

    /** CreateDefaultBackoff(): a fresh retry sequence from the configured intervals. */
    function DefaultBackoff(): (b: ExponentialBackoff)
      requires retryMultiplier >= 1
      ensures b.WellFormed() && Next(b).0 == retryMinInterval
    {
      Create(retryMinInterval, retryMultiplier, retryMaxInterval)
    }

    /**
     * The entry AddToPendingQueue makes: at `rank` with a fresh backoff, or
     * at `rank` plus the given backoff's next interval with that backoff
     * advanced.
     */
    function QueueEntry(pg: PgId, rank: int, backoff: Option<ExponentialBackoff>): (e: Entry)
      requires retryMultiplier >= 1
      requires backoff.Some? ==> backoff.value.WellFormed()
      ensures e.pg == pg && e.backoff.WellFormed()
      ensures backoff.None? ==> e.rank == rank && Next(e.backoff).0 == retryMinInterval
      ensures backoff.Some? ==> e.rank == rank + backoff.value.current
    {
      match backoff
      case None => Entry(rank, pg, DefaultBackoff())
      case Some(b) => Entry(rank + Next(b).0, pg, Next(b).1)
    }

    /** True when the scheduling pass at `now` dispatches the head of the queue. */
    ghost predicate HeadDispatchable(now: int)
      reads this
    {
      && schedulingInProgress.None?
      && pendingPlacementGroups != []
      && pendingPlacementGroups[0].rank <= now
    }

    constructor (minInterval: nat, multiplier: nat, maxInterval: nat)
      requires multiplier >= 1
      ensures Valid()
      ensures retryMinInterval == minInterval && retryMultiplier == multiplier
      ensures retryMaxInterval == maxInterval
      ensures pendingPlacementGroups == [] && registeredPlacementGroups == map[]
      ensures awaitingPersist == {} && schedulingInProgress == None && scheduledRequests == []
    {
      retryMinInterval, retryMultiplier, retryMaxInterval := minInterval, multiplier, maxInterval;
      pendingPlacementGroups := [];
      registeredPlacementGroups := map[];
      awaitingPersist := {};
      schedulingInProgress := None;
      scheduledRequests := [];
    }

    /**
     * AddToPendingQueue: without a backoff the group is queued with a fresh
     * one at the given rank; with one, the rank is pushed back by that
     * backoff's Next() interval and the advanced backoff is stored.
     */
    method AddToPendingQueue(pg: PgId, rank: int, backoff: Option<ExponentialBackoff>)
      requires Valid()
      requires pg in registeredPlacementGroups && pg !in Ids(pendingPlacementGroups)
      requires schedulingInProgress.Some? ==> schedulingInProgress.value.pg != pg
      requires backoff.Some? ==> backoff.value.WellFormed()
      modifies this
      ensures Valid()
      ensures pendingPlacementGroups == Insert(old(pendingPlacementGroups), QueueEntry(pg, rank, backoff))
      ensures registeredPlacementGroups == old(registeredPlacementGroups)
      ensures awaitingPersist == old(awaitingPersist)
      ensures schedulingInProgress == old(schedulingInProgress)
      ensures scheduledRequests == old(scheduledRequests)
    {
      var e := QueueEntry(pg, rank, backoff);
      InsertKeepsDistinct(pendingPlacementGroups, e);
      InsertKeepsBackoffsWellFormed(pendingPlacementGroups, e);
      InsertContents(pendingPlacementGroups, e);
      pendingPlacementGroups := Insert(pendingPlacementGroups, e);
    }

    /**
     * RegisterPlacementGroup: a new group is recorded as PENDING, its store
     * write is issued, and it is queued at once with rank `now` (before the
     * write is acknowledged). Nothing is dispatched. A group that is already
     * registered changes nothing.
     */
    method RegisterPlacementGroup(pg: PgId, now: int)
      requires Valid()
      modifies this
      ensures Valid()
      ensures old(pg in registeredPlacementGroups) ==>
        && pendingPlacementGroups == old(pendingPlacementGroups)
        && registeredPlacementGroups == old(registeredPlacementGroups)
        && awaitingPersist == old(awaitingPersist)
      ensures old(pg !in registeredPlacementGroups) ==>
        && registeredPlacementGroups == old(registeredPlacementGroups)[pg := Pending]
        && awaitingPersist == old(awaitingPersist) + {pg}
        && pendingPlacementGroups == Insert(old(pendingPlacementGroups), QueueEntry(pg, now, None))
      ensures schedulingInProgress == old(schedulingInProgress)
      ensures scheduledRequests == old(scheduledRequests)
    {
      if pg in registeredPlacementGroups {
        return;
      }
      assert pg !in Ids(pendingPlacementGroups);
      registeredPlacementGroups := registeredPlacementGroups[pg := Pending];
      awaitingPersist := awaitingPersist + {pg};
      AddToPendingQueue(pg, now, None);
    }

    /**
     * SchedulePendingPlacementGroups: nothing happens when the queue is
     * empty, when a request is already in flight, or when the head is not
     * due yet (its rank is after `now`). Otherwise exactly the head is
     * removed and handed to the scheduler, and it becomes the request in
     * flight: one group per pass.
     */
    method SchedulePendingPlacementGroups(now: int)
      requires Valid()
      modifies this
      ensures Valid()
      ensures old(HeadDispatchable(now)) ==>
        var head := old(pendingPlacementGroups)[0];
        var request := SchedulePgRequest(head.pg, head.backoff);
        && pendingPlacementGroups == old(pendingPlacementGroups)[1..]
        && schedulingInProgress == Some(request)
        && scheduledRequests == old(scheduledRequests) + [request]
      ensures old(HeadDispatchable(now)) ==>
        forall e :: e in old(pendingPlacementGroups) ==> old(pendingPlacementGroups)[0].rank <= e.rank
      ensures !old(HeadDispatchable(now)) ==>
        && pendingPlacementGroups == old(pendingPlacementGroups)
        && schedulingInProgress == old(schedulingInProgress)
        && scheduledRequests == old(scheduledRequests)
      ensures registeredPlacementGroups == old(registeredPlacementGroups)
      ensures awaitingPersist == old(awaitingPersist)
    {
      if pendingPlacementGroups == [] || schedulingInProgress.Some? {
        return;
      }
      var head := pendingPlacementGroups[0];
      if head.rank > now {
        return;
      }
      forall e | e in pendingPlacementGroups
        ensures head.rank <= e.rank
      {
        HeadIsMinimum(pendingPlacementGroups, e);
      }
      PopHead(pendingPlacementGroups);
      var request := SchedulePgRequest(head.pg, head.backoff);
      schedulingInProgress := Some(request);
      scheduledRequests := scheduledRequests + [request];
      pendingPlacementGroups := pendingPlacementGroups[1..];
    }

    /**
     * The continuation of the store write issued at registration, run on the
     * event loop: the register callback completes and a scheduling pass runs.
     */
    method OnPlacementGroupPersisted(pg: PgId, now: int)
      requires Valid()
      modifies this
      ensures Valid()
      ensures old(pg in registeredPlacementGroups && HeadDispatchable(now)) ==>
        var head := old(pendingPlacementGroups)[0];
        var request := SchedulePgRequest(head.pg, head.backoff);
        && pendingPlacementGroups == old(pendingPlacementGroups)[1..]
        && schedulingInProgress == Some(request)
        && scheduledRequests == old(scheduledRequests) + [request]
      ensures !old(pg in registeredPlacementGroups && HeadDispatchable(now)) ==>
        && pendingPlacementGroups == old(pendingPlacementGroups)
        && schedulingInProgress == old(schedulingInProgress)
        && scheduledRequests == old(scheduledRequests)
      ensures registeredPlacementGroups == old(registeredPlacementGroups)
      ensures awaitingPersist == old(awaitingPersist) - {pg}
    {
      if pg in registeredPlacementGroups {
        awaitingPersist := awaitingPersist - {pg};
        SchedulePendingPlacementGroups(now);
      }
    }

    /** GcsPlacementGroup::UpdateState on a registered group. */
    method UpdateState(pg: PgId, state: PlacementGroupState)
      requires Valid() && pg in registeredPlacementGroups
      modifies this
      ensures Valid()
      ensures registeredPlacementGroups == old(registeredPlacementGroups)[pg := state]
      ensures pendingPlacementGroups == old(pendingPlacementGroups)
      ensures awaitingPersist == old(awaitingPersist)
      ensures schedulingInProgress == old(schedulingInProgress)
      ensures scheduledRequests == old(scheduledRequests)
    {
      registeredPlacementGroups := registeredPlacementGroups[pg := state];
    }

    /**
     * The in-flight request's failure continuation with retryable == true
     * (OnPlacementGroupCreationFailed). The group's state at this moment
     * decides its new rank: RESCHEDULING puts it at rank 0, ahead of every
     * group queued at a real time, with a fresh backoff; PENDING (and
     * REMOVED) puts it at now + the request's next backoff interval and
     * stores the advanced backoff. The group is queued exactly once and the
     * scheduling-in-progress marker is cleared.
     */
    method OnPlacementGroupCreationFailed(now: int)
      requires Valid()
      requires schedulingInProgress.Some?
      requires registeredPlacementGroups[schedulingInProgress.value.pg] in {Pending, Rescheduling, Removed}
      modifies this
      ensures Valid()
      ensures var request := old(schedulingInProgress).value;
        pendingPlacementGroups == Insert(old(pendingPlacementGroups),
          if old(registeredPlacementGroups)[request.pg] == Rescheduling
          then QueueEntry(request.pg, 0, None)
          else QueueEntry(request.pg, now, Some(request.backoff)))
      ensures schedulingInProgress == None
      ensures registeredPlacementGroups == old(registeredPlacementGroups)
      ensures awaitingPersist == old(awaitingPersist)
      ensures scheduledRequests == old(scheduledRequests)
    {
      var request := schedulingInProgress.value;
      schedulingInProgress := None;
      if registeredPlacementGroups[request.pg] == Rescheduling {
        AddToPendingQueue(request.pg, 0, None);
      } else {
        AddToPendingQueue(request.pg, now, Some(request.backoff));
      }
    }
  }

  /**
   * The PendingQueuePriorityReschedule test: a registered group is queued at
   * once, alone, with a rank between the clock readings around the call and
   * nothing is dispatched; the store acknowledgement dispatches it exactly
   * once; a retryable failure while RESCHEDULING queues it again exactly
   * once, at a rank <= 0, and calls no scheduler.
   */
  method PendingQueuePriorityReschedule(
    minInterval: nat, multiplier: nat, maxInterval: nat,
    before: int, registeredAt: int, after: int, persistedAt: int, failedAt: int)
    returns (sizeAfterRegister: nat, queuedRank: int, callsBeforeAck: nat, callsAfterAck: nat,
             sizeAfterFailure: nat, rankAfterFailure: int, callsAfterFailure: nat)
    requires multiplier >= 1
    requires before <= registeredAt <= after <= persistedAt
    ensures sizeAfterRegister == 1 && before <= queuedRank <= after
    ensures callsBeforeAck == 0 && callsAfterAck == 1
    ensures sizeAfterFailure == 1 && rankAfterFailure <= 0 && callsAfterFailure == 1
  {
    var m := new GcsPlacementGroupManager(minInterval, multiplier, maxInterval);
    var pg: PgId := 1;
    m.RegisterPlacementGroup(pg, registeredAt);
    sizeAfterRegister := |m.pendingPlacementGroups|;
    queuedRank := m.pendingPlacementGroups[0].rank;
    callsBeforeAck := |m.scheduledRequests|;
    m.OnPlacementGroupPersisted(pg, persistedAt);
    callsAfterAck := |m.scheduledRequests|;
    m.UpdateState(pg, Rescheduling);
    m.OnPlacementGroupCreationFailed(failedAt);
    sizeAfterFailure := |m.pendingPlacementGroups|;
    rankAfterFailure := m.pendingPlacementGroups[0].rank;
    callsAfterFailure := |m.scheduledRequests|;
  }

  /**
   * The PendingQueuePriorityFailed test: a registered group is queued at
   * once, alone, with a rank between the clock readings around the call; a
   * retryable failure while PENDING queues it once at now + the minimum
   * interval; a pass before that
   * rank changes nothing and calls no scheduler; a pass after it dispatches
   * the group and empties the queue; a second PENDING failure queues it at
   * now + min(minimum * multiplier, maximum), which is at least
   * now + multiplier * minimum when that product is within the maximum, and
   * the scheduler has then been called exactly twice.
   */
  method PendingQueuePriorityFailed(
    minInterval: nat, multiplier: nat, maxInterval: nat,
    before: int, registeredAt: int, after: int, persistedAt: int, firstFailureAt: int,
    earlyPassAt: int, latePassAt: int, secondFailureAt: int)
    returns (sizeAfterRegister: nat, queuedRank: int,
             sizeAfterFirstFailure: nat, firstRank: int,
             sizeAfterEarlyPass: nat, rankAfterEarlyPass: int, callsAfterEarlyPass: nat,
             sizeAfterLatePass: nat, callsAfterLatePass: nat,
             sizeAfterSecondFailure: nat, secondRank: int, callsAfterSecondFailure: nat)
    requires multiplier >= 1
    requires before <= registeredAt <= after <= persistedAt <= firstFailureAt <= earlyPassAt
    requires earlyPassAt < firstFailureAt + minInterval <= latePassAt <= secondFailureAt
    ensures sizeAfterRegister == 1 && before <= queuedRank <= after
    ensures sizeAfterFirstFailure == 1 && firstRank == firstFailureAt + minInterval
    ensures sizeAfterEarlyPass == 1 && rankAfterEarlyPass == firstRank && callsAfterEarlyPass == 1
    ensures sizeAfterLatePass == 0 && callsAfterLatePass == 2
    ensures sizeAfterSecondFailure == 1 && callsAfterSecondFailure == 2
    ensures secondRank == secondFailureAt + Min(minInterval * multiplier, maxInterval)
    ensures minInterval * multiplier <= maxInterval ==> secondRank >= secondFailureAt + minInterval * multiplier
  {
    var m := new GcsPlacementGroupManager(minInterval, multiplier, maxInterval);
    var pg: PgId := 1;
    var initial := m.DefaultBackoff();
    m.RegisterPlacementGroup(pg, registeredAt);
    var e0 := m.QueueEntry(pg, registeredAt, None);
    InsertIntoEmpty(e0);
    assert m.pendingPlacementGroups == [e0] && m.HeadDispatchable(persistedAt);
    sizeAfterRegister, queuedRank := |m.pendingPlacementGroups|, m.pendingPlacementGroups[0].rank;
    m.OnPlacementGroupPersisted(pg, persistedAt);
    assert m.pendingPlacementGroups == [];
    assert m.schedulingInProgress == Some(SchedulePgRequest(pg, initial));
    assert m.scheduledRequests == [SchedulePgRequest(pg, initial)];

    // The first retryable failure while PENDING: rank = now + the minimum interval.
    m.UpdateState(pg, Pending);
    var e1 := m.QueueEntry(pg, firstFailureAt, Some(initial));
    m.OnPlacementGroupCreationFailed(firstFailureAt);
    InsertIntoEmpty(e1);
    assert m.pendingPlacementGroups == [e1];
    sizeAfterFirstFailure, firstRank := |m.pendingPlacementGroups|, m.pendingPlacementGroups[0].rank;
    assert firstRank == firstFailureAt + minInterval;

    // Not due yet: the pass changes nothing.
    assert !m.HeadDispatchable(earlyPassAt);
    m.SchedulePendingPlacementGroups(earlyPassAt);
    assert m.pendingPlacementGroups == [e1];
    sizeAfterEarlyPass, rankAfterEarlyPass := |m.pendingPlacementGroups|, m.pendingPlacementGroups[0].rank;
    callsAfterEarlyPass := |m.scheduledRequests|;
    assert sizeAfterEarlyPass == 1 && rankAfterEarlyPass == firstRank && callsAfterEarlyPass == 1;

    // Due: the pass dispatches it with the once-advanced backoff.
    assert m.HeadDispatchable(latePassAt);
    m.SchedulePendingPlacementGroups(latePassAt);
    assert m.pendingPlacementGroups == [];
    assert m.schedulingInProgress == Some(SchedulePgRequest(pg, e1.backoff));
    sizeAfterLatePass, callsAfterLatePass := |m.pendingPlacementGroups|, |m.scheduledRequests|;
    assert sizeAfterLatePass == 0 && callsAfterLatePass == 2;

    // The second retryable failure while PENDING: the interval has grown.
    m.UpdateState(pg, Pending);
    var e2 := m.QueueEntry(pg, secondFailureAt, Some(e1.backoff));
    m.OnPlacementGroupCreationFailed(secondFailureAt);
    InsertIntoEmpty(e2);
    assert m.pendingPlacementGroups == [e2];
    sizeAfterSecondFailure, secondRank := |m.pendingPlacementGroups|, m.pendingPlacementGroups[0].rank;
    callsAfterSecondFailure := |m.scheduledRequests|;
    assert e1.backoff.current == Min(minInterval * multiplier, maxInterval);
    assert secondRank == secondFailureAt + e1.backoff.current;
  }

  /**
   * The PendingQueuePriorityOrder test: two groups registered in order are
   * both queued before any store write is acknowledged; the acknowledgement
   * runs one pass, which dispatches the earlier group only; after that group
   * fails while PENDING both are queued, and the next pass dispatches the
   * later group and leaves the failed one queued.
   */
  method PendingQueuePriorityOrder(
    minInterval: nat, multiplier: nat, maxInterval: nat,
    firstAt: int, secondAt: int, persistedAt: int, failedAt: int, passAt: int)
    returns (sizeBeforeAck: nat, callsBeforeAck: nat, sizeAfterAck: nat, headAfterAck: PgId,
             sizeAfterFailure: nat, sizeAfterPass: nat, headAfterPass: PgId, dispatched: seq<PgId>, callsAtEnd: nat)
    requires multiplier >= 1
    requires firstAt <= secondAt <= persistedAt <= failedAt <= passAt
    ensures sizeBeforeAck == 2 && callsBeforeAck == 0 && sizeAfterAck == 1 && headAfterAck == 2
    ensures sizeAfterFailure == 2
    ensures sizeAfterPass == 1 && headAfterPass == 1
    ensures dispatched == [1, 2] && callsAtEnd == 2
  {
    var m := new GcsPlacementGroupManager(minInterval, multiplier, maxInterval);
    m.RegisterPlacementGroup(1, firstAt);
    var e1 := m.QueueEntry(1, firstAt, None);
    InsertIntoEmpty(e1);
    assert m.pendingPlacementGroups == [e1];
    m.RegisterPlacementGroup(2, secondAt);
    var e2 := m.QueueEntry(2, secondAt, None);
    InsertNextToOne(e1, e2);
    assert m.pendingPlacementGroups == [e1, e2];
    sizeBeforeAck, callsBeforeAck := |m.pendingPlacementGroups|, |m.scheduledRequests|;
    assert 2 in m.registeredPlacementGroups && m.HeadDispatchable(persistedAt);
    m.OnPlacementGroupPersisted(2, persistedAt);
    assert m.pendingPlacementGroups == [e2];
    assert m.schedulingInProgress == Some(SchedulePgRequest(1, e1.backoff));
    assert m.scheduledRequests == [SchedulePgRequest(1, e1.backoff)];
    sizeAfterAck, headAfterAck := |m.pendingPlacementGroups|, m.pendingPlacementGroups[0].pg;
    assert m.registeredPlacementGroups[1] == Pending;
    var e1' := m.QueueEntry(1, failedAt, Some(e1.backoff));
    m.OnPlacementGroupCreationFailed(failedAt);
    assert m.pendingPlacementGroups == Insert([e2], e1');
    assert e2.rank <= e1'.rank;
    InsertNextToOne(e2, e1');
    assert m.pendingPlacementGroups == [e2, e1'];
    assert m.scheduledRequests == [SchedulePgRequest(1, e1.backoff)];
    sizeAfterFailure := |m.pendingPlacementGroups|;
    assert m.HeadDispatchable(passAt);
    m.SchedulePendingPlacementGroups(passAt);
    assert m.pendingPlacementGroups == [e1'];
    assert m.scheduledRequests == [SchedulePgRequest(1, e1.backoff), SchedulePgRequest(2, e2.backoff)];
    sizeAfterPass, headAfterPass := |m.pendingPlacementGroups|, m.pendingPlacementGroups[0].pg;
    dispatched := [m.scheduledRequests[0].pg, m.scheduledRequests[1].pg];
    callsAtEnd := |m.scheduledRequests|;
  }
}
