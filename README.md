# Placement-group pending queue and runtime-env helpers, in Dafny

This project models two parts of Ray and proves properties of the model.

1. **The GCS placement-group manager's pending queue** (`PlacementGroupManager.dfy`, `PendingQueue.dfy`, `Backoff.dfy`).
   - `pending_placement_groups_` is a multimap ordered by an integer rank in nanoseconds. It is modelled as a sequence sorted by rank. Insertion goes at the upper bound of the rank, so groups with equal ranks keep their insertion order, as in `std::multimap`.
   - `RegisterPlacementGroup` records a group as PENDING and queues it at once, at rank `now`.
   - `SchedulePendingPlacementGroups` dispatches the head of the queue, if it is due and no request is in flight. It dispatches one group per pass.
   - The scheduler's retryable failure continuation puts the group back in the queue:
     - a group that is RESCHEDULING goes to rank 0, ahead of every group queued at a positive time (behind any already queued at rank 0 or below);
     - a PENDING group goes to `now` plus the next interval of its exponential backoff.
   - `ExponentialBackoff` is a value. `Next` returns the current interval and the advanced backoff, whose interval is `min(current * multiplier, max)`. Lemmas give the closed form of the k-th interval: `initial` for k = 0 and `min(initial * multiplier^k, max)` for k ≥ 1. When `initial ≤ max`, they prove it monotone and saturating.
   - The manager is a class. Its fields are:
     - the queue;
     - the registered groups with their states;
     - the groups whose store write is not yet acknowledged;
     - the request in flight (the scheduling-in-progress marker);
     - a log of every `ScheduleUnplacedBundles` call.
   - Three methods replay the three `PendingQueuePriority*` tests step by step, and state the tests' assertions as postconditions: the queue sizes, the ranks, the clock brackets and the scheduler call counts, including the counts that the gmock expectations (`WillOnce`, `Times(2)`) fix at the end of each test.

2. **The runtime-env helpers** (`UriCache.dfy`, `RuntimeEnvMerge.dfy`).
   - `URICache` is a class: used and unused URI sets, a size map, a running total and a log of `delete_fn` calls.
     - `add` and `mark_unused` then evict unused URIs while the total exceeds the bound.
     - Eviction is a loop that deletes an arbitrary unused URI per step. It is proved against a relation between the state before and after: only unused URIs go, each exactly once, one `delete_fn` call each, and only while the bound was exceeded.
     - Methods replay the `TestURICache` tests.
   - `_merge_runtime_env(parent, child, override)` is a pure function over maps from field names to values.
     - The `env_vars` field is merged variable by variable.
     - Without override, a field or a variable set on both sides makes the result None.
     - Lemmas state:
       - when the merge fails;
       - which fields and variables the result holds, and whose values win;
       - the behaviour with missing sides;
       - that the merge without override is commutative;
       - that override changes nothing when there is no conflict;
       - the concrete cases of `test_runtime_env_merge`.

The manager's implementation (`gcs_placement_group_mgr.cc`), `uri_cache.py` and `runtime_env.py` are not part of this model. The behaviour modelled is the one their tests pin down. Where a test leaves a detail open, the model makes its own choice, and each such choice is listed under "Left out".

## Model

| member | source | states |
|---|---|---|
| Backoff.Create | src/ray/gcs/gcs_server/test/gcs_placement_group_mgr_mock_test.cc:122-129 | A fresh backoff built from the minimum interval, multiplier and maximum interval yields the minimum interval on its first `Next()`. |
| Backoff.Next | src/ray/gcs/gcs_server/test/gcs_placement_group_mgr_mock_test.cc:126 | `Next()` returns the current interval. The advanced interval never exceeds the maximum, and it either grows or reaches the maximum. The configuration is unchanged. |
| Backoff.IntervalStep | src/ray/gcs/gcs_server/test/gcs_placement_group_mgr_mock_test.cc:145 | The closed form `min(initial * multiplier^k, max)` obeys the step rule: interval k+1 is min(interval k × multiplier, max). |
| Backoff.Advance | src/ray/gcs/gcs_server/test/gcs_placement_group_mgr_mock_test.cc:126-147 | k calls to `Next()` keep the configuration. After at least one call the interval is within the maximum, and it has not shrunk unless it sits at the maximum. |
| Backoff.AdvanceFromFresh | src/ray/gcs/gcs_server/test/gcs_placement_group_mgr_mock_test.cc:122-147 | After k calls to `Next()` on a fresh backoff, the current interval is the closed-form interval k. |
| Backoff.AdvanceSplit | src/ray/gcs/gcs_server/test/gcs_placement_group_mgr_mock_test.cc:126 | Advancing k+1 times is advancing k times and then once more. |
| Backoff.IntervalMonotone | src/ray/gcs/gcs_server/test/gcs_placement_group_mgr_mock_test.cc:145-147 | When the minimum does not exceed the maximum, the intervals never decrease and never exceed the maximum. |
| Backoff.IntervalSaturates | src/ray/gcs/gcs_server/test/gcs_placement_group_mgr_mock_test.cc:122-125 | Once an interval reaches the maximum, every later one stays at the maximum. |
| PendingQueue.UpperBound | src/ray/gcs/gcs_server/test/gcs_placement_group_mgr_mock_test.cc:85-87 | The multimap insertion point: every entry before it has rank ≤ the new rank, and every entry after it has a greater rank. |
| PendingQueue.Insert | src/ray/gcs/gcs_server/test/gcs_placement_group_mgr_mock_test.cc:169-172 | Insertion keeps the queue sorted and grows it by one. The new entry sits at the upper bound, and everything before and after it is unchanged. |
| PendingQueue.InsertContents | src/ray/gcs/gcs_server/test/gcs_placement_group_mgr_mock_test.cc:178-179 | Insertion adds exactly the new entry (as a multiset) and its group id. |
| PendingQueue.InsertKeepsDistinct | src/ray/gcs/gcs_server/test/gcs_placement_group_mgr_mock_test.cc:92-93 | Inserting a group that is not queued keeps every group queued at most once. |
| PendingQueue.InsertIsFifoAmongEqualRanks | src/ray/gcs/gcs_server/test/gcs_placement_group_mgr_mock_test.cc:169-177 | An entry already queued at the same rank stays ahead of the new one. |
| PendingQueue.InsertNextToOne | src/ray/gcs/gcs_server/test/gcs_placement_group_mgr_mock_test.cc:178-183 | Inserting next to a single entry places the new one after it when its rank is not smaller, and before it otherwise. |
| PendingQueue.HeadIsMinimum | src/ray/gcs/gcs_server/test/gcs_placement_group_mgr_mock_test.cc:94 | The head of the queue has the smallest rank. |
| PendingQueue.PopHead | src/ray/gcs/gcs_server/test/gcs_placement_group_mgr_mock_test.cc:140-141 | Erasing the head keeps the queue sorted and distinct, and removes only the head's group. |
| PlacementGroupManager.GcsPlacementGroupManager.DefaultBackoff | src/ray/gcs/gcs_server/test/gcs_placement_group_mgr_mock_test.cc:122-125 | The manager's default backoff, built from the configured minimum, multiplier and maximum, hands out the minimum interval first. |
| PlacementGroupManager.GcsPlacementGroupManager.QueueEntry | src/ray/gcs/gcs_server/test/gcs_placement_group_mgr_mock_test.cc:119-132 | Without a backoff, a group is queued at the given rank with a fresh backoff, whose first interval is the minimum. With a backoff, the rank is pushed back by that backoff's current interval. |
| PlacementGroupManager.GcsPlacementGroupManager.AddToPendingQueue | src/ray/gcs/gcs_server/test/gcs_placement_group_mgr_mock_test.cc:92-94 | The new queue is the old one with that entry inserted. Nothing else changes, and the manager invariant is kept. |
| PlacementGroupManager.GcsPlacementGroupManager.RegisterPlacementGroup | src/ray/gcs/gcs_server/test/gcs_placement_group_mgr_mock_test.cc:83-88 | A new group becomes PENDING, awaits its store write and is queued at rank `now`. No scheduler call is made. Registering a group twice changes nothing. |
| PlacementGroupManager.GcsPlacementGroupManager.SchedulePendingPlacementGroups | src/ray/gcs/gcs_server/test/gcs_placement_group_mgr_mock_test.cc:133-141 | If the head is due and nothing is in flight, exactly the head is removed, dispatched once and becomes the request in flight. The dispatched group had the least rank of all queued groups. Otherwise the queue, the in-flight marker and the call log are unchanged. |
| PlacementGroupManager.GcsPlacementGroupManager.OnPlacementGroupPersisted | src/ray/gcs/gcs_server/test/gcs_placement_group_mgr_mock_test.cc:89-90 | The store acknowledgement runs one scheduling pass, which dispatches the head exactly when it is due. |
| PlacementGroupManager.GcsPlacementGroupManager.UpdateState | src/ray/gcs/gcs_server/test/gcs_placement_group_mgr_mock_test.cc:91 | Only the group's state changes. |
| PlacementGroupManager.GcsPlacementGroupManager.OnPlacementGroupCreationFailed | src/ray/gcs/gcs_server/test/gcs_placement_group_mgr_mock_test.cc:91-94 | A retryable failure clears the in-flight marker and queues the group exactly once. A RESCHEDULING group goes to rank 0 with a fresh backoff. A PENDING group goes to now + the request's next interval, with the backoff advanced. |
| PlacementGroupManager.PendingQueuePriorityReschedule | src/ray/gcs/gcs_server/test/gcs_placement_group_mgr_mock_test.cc:70-95 | Registration queues one entry, whose rank lies between the clock readings around the call. There are no scheduler calls before the acknowledgement and exactly one after it. After a RESCHEDULING failure the queue holds one entry, with rank ≤ 0, and the call count is still one (`WillOnce`). |
| PlacementGroupManager.PendingQueuePriorityFailed | src/ray/gcs/gcs_server/test/gcs_placement_group_mgr_mock_test.cc:97-148 | Registration queues one entry, whose rank lies between the clock readings around the call. The first PENDING failure leaves one entry, at now + the minimum interval. A pass before that rank changes nothing and makes no call. A pass after it empties the queue with a second call. The second failure leaves one entry, at now + min(min × multiplier, max), which is ≥ now + multiplier × min when that product is within the maximum. The scheduler has then been called exactly twice (`Times(2)`). |
| PlacementGroupManager.PendingQueuePriorityOrder | src/ray/gcs/gcs_server/test/gcs_placement_group_mgr_mock_test.cc:150-184 | Both groups are queued before the acknowledgement. One pass dispatches group 1 and leaves group 2 at the head. The failed group 1 is queued behind group 2. The next pass dispatches group 2 and leaves group 1. Registration makes no scheduler call, and there are exactly two calls in all (`Times(2)`), in the order [1, 2]. |
| UriCache.TotalSizeRemove | python/ray/tests/test_runtime_env.py:482-483 | Removing any URI takes exactly its size off the total, whatever order the sum is taken in. |
| UriCache.TotalSizeUpdate | python/ray/tests/test_runtime_env.py:480-486 | Recording a URI with a size replaces its old size, if any, in the total. |
| UriCache.Added | python/ray/tests/test_runtime_env.py:479-486 | The first step of `add`: the URI becomes used with its size, and the total grows by that size (less any size it was recorded with). |
| UriCache.MarkedUnused | python/ray/tests/test_runtime_env.py:500-501 | The first step of `mark_unused`: a used URI becomes unused and nothing else changes. Any other URI leaves the state alone. |
| UriCache.Deleted | python/ray/tests/test_runtime_env.py:503-506 | One eviction step: an unused URI is dropped, its size leaves the total, and `delete_fn` is called on it once. |
| UriCache.EvictingFromStart | python/ray/tests/test_runtime_env.py:572-574 | An eviction that has not started has deleted nothing. |
| UriCache.EvictionStep | python/ray/tests/test_runtime_env.py:551-582 | Deleting one more unused URI while over the bound extends an eviction in progress. Only unused URIs are deleted, each once, with one `delete_fn` call each. |
| UriCache.UnchangedUnusedKeepsTotal | python/ray/tests/test_runtime_env.py:572-574 | An eviction that deleted nothing leaves the sizes and the total unchanged. |
| UriCache.SingleCandidateEvicted | python/ray/tests/test_runtime_env.py:503-506 | Over the bound with exactly one unused URI, eviction deletes exactly that URI, once, and takes its size off the total. |
| UriCache.NothingUnusedNothingEvicted | python/ray/tests/test_runtime_env.py:560-562 | With no unused URI, eviction changes nothing, even over the bound. |
| UriCache.ZeroBoundEmptiesTotal | python/ray/tests/test_runtime_env.py:487-489 | With a bound of zero and nothing in use, the total after eviction is zero. |
| UriCache.AddWithNothingUnused | python/ray/tests/test_runtime_env.py:484-486 | `add` when no other URI is unused deletes nothing, so the total is the old total plus the size. |
| UriCache.MarkUnusedEvictsIt | python/ray/tests/test_runtime_env.py:580-582 | `mark_unused` of the one URI that becomes unused, over the bound, deletes that URI and calls `delete_fn` once. |
| UriCache.AddEvictsOnlyCandidate | python/ray/tests/test_runtime_env.py:527-531 | `add` over the bound with exactly one other URI unused deletes that URI only. The URIs in use, including one just marked used, stay. |
| UriCache.MarkUnusedWithinBound | python/ray/tests/test_runtime_env.py:572-574 | `mark_unused` that leaves the total within the bound deletes nothing. |
| UriCache.URICache.Contains | python/ray/tests/test_runtime_env.py:501 | A URI is in the cache exactly when it has a recorded size. |
| UriCache.URICache.GetTotalSizeBytes | python/ray/tests/test_runtime_env.py:481 | The total is the sum of the recorded sizes. |
| UriCache.URICache.Add | python/ray/tests/test_runtime_env.py:479-486 | The new state is an eviction, run to completion, from the state with the URI added as used. |
| UriCache.URICache.MarkUnused | python/ray/tests/test_runtime_env.py:482-483 | The new state is an eviction, run to completion, from the state with the URI marked unused. |
| UriCache.URICache.MarkUsed | python/ray/tests/test_runtime_env.py:508-511 | The call fails (ValueError) exactly when the URI is not cached, and then changes nothing. Otherwise the URI becomes used. Sizes, total and the delete log never change. |
| UriCache.URICache.EvictIfNeeded | python/ray/tests/test_runtime_env.py:551-582 | The loop ends in a state where the total fits or nothing is unused. It deleted only unused URIs, each once with one `delete_fn` call, and only while the total exceeded the bound. |
| UriCache.ZeroCacheSize | python/ray/tests/test_runtime_env.py:473-489 | The totals are 5, 0, 8 and 0 at the test's four checks. |
| UriCache.NonzeroCacheSize | python/ray/tests/test_runtime_env.py:491-506 | The unused "a" stays while the total fits. Adding "c" deletes "a", keeps "b" and "c", and leaves the total at 8. The test's `"b" and "c" in cache` does not in fact check "b" (it parses as `"b" and ("c" in cache)`); the model checks it too. |
| UriCache.MarkUsedNonAddedUri | python/ray/tests/test_runtime_env.py:508-511 | `mark_used` of a URI never added fails. |
| UriCache.MarkUsedProtects | python/ray/tests/test_runtime_env.py:513-535 | Both unused URIs stay at total 6. After "a" is marked used, adding "big" deletes only "b", leaving total 303. Marking "big" unused deletes it, leaving total 3. |
| UriCache.DeleteFnCalled | python/ray/tests/test_runtime_env.py:551-582 | The count of `delete_fn` calls is 1, 2, 2, 3 and 4 at the test's five checks. |
| RuntimeEnvMerge.PopEnvVarsLosesNothing | python/ray/tests/test_runtime_env.py:100-107 | Splitting an environment into its variables (`pop("env_vars", {})`) and its other fields loses nothing. The other fields set no variables. Putting the variables back under `env_vars` gives the environment again, and without `env_vars` the other fields are the whole environment. |
| RuntimeEnvMerge.MergeRuntimeEnv | python/ray/tests/test_runtime_env.py:72-98 | A missing environment counts as empty, so the merge fails only when both sides are present and override is off. The result is well formed. `MergeOfNothingIsEmpty` and `MergeWithMissingIsIdentity` give its value with missing sides. |
| RuntimeEnvMerge.Merge | python/ray/tests/test_runtime_env.py:72-134 | Only a merge without override can fail. A successful merge yields a well-formed environment. |
| RuntimeEnvMerge.MergeFailsIffShared | python/ray/tests/test_runtime_env.py:109-117 | The merge fails exactly when override is off and both sides set the same field other than `env_vars`, or the same variable. |
| RuntimeEnvMerge.MergeFields | python/ray/tests/test_runtime_env.py:100-107 | A successful merge holds exactly the fields of both sides, with the child's value where both set one. |
| RuntimeEnvMerge.MergeEnvVars | python/ray/tests/test_runtime_env.py:119-134 | A successful merge has `env_vars` exactly when some variable is set. It then holds every variable of both sides, with the child's value where both set one. |
| RuntimeEnvMerge.MergeOfNothingIsEmpty | python/ray/tests/test_runtime_env.py:73-88 | Two missing or empty environments merge to `{}`. |
| RuntimeEnvMerge.MergeWithMissingIsIdentity | python/ray/tests/test_runtime_env.py:90-98 | Merging an environment with a missing one, on either side, gives it back, provided its `env_vars`, if present, is non-empty. |
| RuntimeEnvMerge.EmptyEnvVarsIsDropped | python/ray/tests/test_runtime_env.py:90-98 | An empty `env_vars` field is dropped, so the proviso above is needed. |
| RuntimeEnvMerge.MergeWithoutOverrideCommutes | python/ray/tests/test_runtime_env.py:100-117 | Without override, swapping parent and child gives the same result. |
| RuntimeEnvMerge.OverrideOnlyResolvesConflicts | python/ray/tests/test_runtime_env.py:119-134 | With override the merge always succeeds. Without a conflict it equals the merge without override. |
| RuntimeEnvMerge.MergeDisjointExample | python/ray/tests/test_runtime_env.py:100-107 | The test's successful case yields the union of fields and of variables. |
| RuntimeEnvMerge.MergeSharedFieldExample | python/ray/tests/test_runtime_env.py:109-112 | The test's shared "pip" case yields None. |
| RuntimeEnvMerge.MergeSharedVariableExample | python/ray/tests/test_runtime_env.py:114-117 | The test's shared "A" case yields None. |
| RuntimeEnvMerge.MergeOverrideFieldExample | python/ray/tests/test_runtime_env.py:119-125 | With override, the child's "pip" wins and the variables are unioned. |
| RuntimeEnvMerge.MergeOverrideVariableExample | python/ray/tests/test_runtime_env.py:127-134 | With override, the child's "pip" and "A" win and its "conda" is added. |

## Left out

- The clock (`absl::GetCurrentTimeNanos`) and sleeping are not modelled. Every operation takes `now` as a parameter, and the tests' clock readings become ordered parameters of the scenario methods.
- The asynchronous plumbing is reduced to explicit steps. This covers the store write, the posted callback and `io_context_.poll()`. The model runs no scheduling pass of its own after a failure; the tests call `SchedulePendingPlacementGroups` explicitly. The store acknowledgement is `OnPlacementGroupPersisted`. The gmock expectations on `ScheduleUnplacedBundles` become the `scheduledRequests` log.
- Integer widths are not modelled. Ranks are `int64_t` nanoseconds and backoff intervals `uint64_t` in the source, cast when a group is queued; here both are unbounded integers, so overflow is not modelled. No realistic clock value comes near it.
- `CounterMap` state metrics are not modelled. They only observe state changes.
- Backoff.Next: the multiplier is a natural number, not the source's `double`. The test reads the multiplier from the configuration, so its value is a parameter of the model. Intervals are whole nanoseconds. The test's `ASSERT_DOUBLE_EQ` and its `multiplier * next` are compared on integers.
- Several manager paths are not exercised by the tests and are not modelled:
  - the non-retryable (infeasible) failure path;
  - the success path;
  - placement-group removal;
  - named groups;
  - statistics and the register callbacks' status.
- PlacementGroupManager.GcsPlacementGroupManager.SchedulePendingPlacementGroups: the tests pin down one dispatch per pass. That nothing is dispatched while a request is in flight is the model's own choice; no test runs a pass while a request is in flight. Removal is not modelled, so the model's pass is straight-line and handles at most one group. Skipping groups that were removed while queued is not modelled.
- PlacementGroupManager.GcsPlacementGroupManager.RegisterPlacementGroup: that a second registration of the same group changes nothing is the model's own choice; no test registers a group twice.
- PlacementGroupManager.GcsPlacementGroupManager.OnPlacementGroupCreationFailed: the tests pin only the rank of a RESCHEDULING group (≤ 0). The model chooses rank exactly 0 and gives the group a fresh backoff. Keeping the old backoff would fit the tests equally well; the model does not keep it. A REMOVED group that fails is re-queued like a PENDING one; this is the model's own choice, and no test uses REMOVED.
- The per-URI size map (`uriSizes`) is the model's own bookkeeping. A URI that is already cached and is added again gets its size replaced. The tests never add a URI that is still cached: `test_zero_cache_size` adds "5" again only after it has been deleted.
- `delete_fn`'s return value is taken to be the recorded size of the URI, as in every test. The cache subtracts the recorded size.
- The default maximum cache size is not modelled. `URICache()` takes the bound as a parameter, so `test_many_URIs` (which relies on the default) is not modelled. The cache's logging is not modelled.
- The choice of the next URI to evict is arbitrary (`:|`). The model proves what holds for every order, not Python's set iteration order.
- The rest of `test_runtime_env.py` is not modelled:
  - the cluster tests (`ray.init`, remote tasks and actors, plugins, network access, subprocesses);
  - `_validate_no_local_paths`;
  - the wheel URL helpers;
  - serialization and the `RuntimeEnv` accessors.
  All of these are I/O or foreign libraries.
- `timezone_utils.py` is not modelled: it is wall-clock and floating-point arithmetic.
- `test_callbacks_on_env_runner.py` is not modelled: it is an RL training integration test.
- RuntimeEnvMerge.Merge: field values other than `env_vars` are opaque (a type parameter). The model does not deep-copy, because nothing is shared.
