# Codex Switch Safe: the route-state store, verified

Codex Switch Safe is a CLIProxyAPI plugin. Codex conversations carry opaque, route-bound state: encrypted
reasoning and compaction items and `previous_response_id`. Such state is only usable on the *route* (credential,
model and format) that produced it. The plugin watches every request, remembers per session which route last
succeeded, and removes or refuses route-bound state that would reach a route it does not belong to.

This project models the core of the plugin in Dafny 4.11 and proves what that core keeps over every call, every run
and every interleaving. `dafny verify dfyconfig.toml` checks all of it.

## How the model is built

| modules | what they hold |
|---|---|
| `Text`, `Routes`, `Identity` | strings, values and pure rules; what the fingerprints are taken over |
| `Eviction`, `Retirement` | the eviction order and the retirement barrier, as mathematics |
| `Protocol` | the commit protocol on values: one `Event` per critical section, `Next` the state after it |
| `Footprint`, `Events`, `Invariant` | what an event may touch, and what every event keeps |
| `Runs`, `Discipline`, `Tainting`, `Barrier`, `Recovery` | safety and liveness-like properties of the protocol over runs |
| `Sweeping`, `Amortised`, `EagerTwin` | why skipping the expiry sweep changes nothing, and why decisions are local |
| `Meanwhile` | what a session keeps while the store serves others |
| `Witness`, `ScopeOverwrite` | how concrete runs are built; a run in which an item gets past the barrier |
| `PendingIndex`, `Store` | the per-session counters, and the class `RouteStateStore` that refines the protocol |
| `Sanitize`, `Interceptor` | the class `PayloadInspection` with its two strips; the class `Plugin` that joins it to the store |
| `Requests` | safety over runs in terms of the requests: credential, model, caller, identity and id |
| `Persistence`, `Restarts`, `BlankSession` | validation, load, round trip; safety across a restart; the one way a store cannot be loaded again |
| `Writer`, `Shutdown` | the debounced writer as interleaved steps; the store and its writer together |

The protocol knows neither the in-flight counters nor the sweep schedule: its in-flight tests scan, and a sweep is
either done or provably needless. The class `RouteStateStore` has both, and each of its public methods is proved to
be one event of the protocol: the whole new state is `Next` of the old one, and the answer is the protocol's answer.
So everything proved about events and runs holds of the store.

What a call reads from its surroundings is a parameter, and the lemmas quantify over it: the clock on entry and while
trimming, whether the sweep ran, and the order in which Go iterated the in-flight map. Loops over maps pick keys in
any order. Runs begin with an empty store or with one a load restored.

## Hypotheses

- Time is in nanoseconds and 0 is Go's zero time. The clock never goes back, and it is more than one TTL past zero.
- `Config.Valid`: TTL of at least a minute, both caps at least 1 (config.go:107-122).
- A known route has a non-empty digest, and no digest is empty. Identity lemmas assume that the keyed hash does not
  collide on the two inputs they compare; nothing else assumes that digests differ.
- Sequence numbers are unbounded.
- A snapshot is a value: the retired maps that `persistNow` shares with the store (persistence.go:373-390) are taken
  to be as they were when copied.
- JSON encoding may fail; what it encodes decodes to what it was.

## What turned out otherwise

- *Snapshot closure fails for blank sessions.* A success on an unknown route with nothing to retire, whose session
  has left the store, stores Go's zero session; the validator refuses it, and with it the whole file
  (state.go:457-484, persistence.go:217). `BlankSession.BlankArisesExactly` says exactly when that happens, by a test of
  the store before the success; `SnapshotClosure` that nothing else is refused; and `BlankIsReachable` gives a run.
- *A file that loads need not be one the store could have written*: the validator lets stamps be up to five minutes
  ahead and does not compare the overflow mark with the items (persistence.go:217-249). `Persistence.LoadedBegins` says
  exactly which files restore a store a run can begin with, `AheadFileLoads` gives one that does not.
- *A failed write is not repeated* until the next change wakes the writer, so the file can stay stale.
  `Writer.FailedWriteIsNotRepeated` and `RestingFileIsCurrent` say exactly when, `StaleFileIsReachable` gives a run.
- *Re-retiring an item under another route overwrites its scope* (state.go:368-373): the barrier is last retirement
  wins, so `Barrier.RetirementBarrier` holds until then. `Barrier.GuardHolds` says exactly when an item gets past it, and
  `ScopeOverwrite` gives a run.
- *The taint of a conflicting request is not stored* when the request has a blank id and is only stripped
  (state.go:304-306); `Tainting.ConcurrencyTaints` says exactly when it is.
- *The full strip removes more than the detector flags*: an item whose `id` does not decode is invisible to the
  detector but not to the strip (`Sanitize.StripCoversDetector`). If nothing else in the body is route-bound such an item
  is passed on; `Interceptor.HiddenItemsPassAlone` says exactly when, and `HiddenItemIsPassedOn` gives a body.
- README.md and CHANGELOG.md of the repository describe release 1.0.0, the code is 0.4.0 (main.go:8). There, `block`
  rejects only when compaction is present (state.go:288, state.go:341), and a retired item replayed on its own route
  is stripped under either policy. The model follows the code.

## Model

| member | source | states |
|---|---|---|
| Text.TrimIsExact | session.go:191-192 | trimming takes exactly the white space around, wherever it is applied |
| Text.MentionIsExact | state.go:696-701 | searching the lower-cased text finds exactly the places where the word stands in some case |
| Text.LessIsLexicographic | state.go:643-651 | the order that decides between equal stamps is the lexicographic one |
| Routes.RefusalIsExact | state.go:696-701 | a failure is a refusal of encrypted content exactly when its message mentions one of the three phrases, in any case |
| Routes.Distinct | state.go:382-405 | the result holds each non-empty fingerprint once, and nothing else |
| Routes.Bounded | state.go:382-405 | overflow exactly above 256 observed fingerprints; otherwise exactly the non-empty ones are carried |
| Routes.Matches | state.go:415-435 | exactly the observed fingerprints barred from this route, without repetition |
| Routes.DistinctInOrder | state.go:382-405 | the distinct fingerprints come in order of first appearance |
| Routes.MatchesInOrder | state.go:415-435 | and so do the barred ones |
| Eviction.OldestExists | state.go:636-657 | a non-empty map has a least entry in the eviction order, so a trim loop always finds a victim |
| Eviction.OldestIsUnique | state.go:636-657 | the victim does not depend on map iteration order |
| Eviction.TrimKeepsNewest | state.go:628-658 | trimming leaves exactly min(size, cap) sessions, and everything evicted goes before everything kept: idle before active, then by the older stamp, then by the smaller key |
| Eviction.TrimPrefersIdle | state.go:632-655 | an active session is evicted only when every kept session is active too |
| Retirement.RetireSpec | state.go:349-380 | overflow exactly when too many items were observed or would be remembered, sticky; otherwise the items join under their scope with fresh sequences; bounds and scope-subset kept |
| Retirement.BarredAfterRetire | state.go:349-435 | for every item and route, barred afterwards exactly when just retired for that route or none, or barred before and not re-scoped |
| Footprint.PurgeIsBackground | state.go:602-626 | a sweep only removes candidates, and changes a session only by removing it or tainting it for a lost candidate of its own |
| Footprint.TrimPendingIsBackground | state.go:660-684 | the same for trimming candidates, through the session evictions it triggers |
| Footprint.TrimPendingKeepsNewest | state.go:660-673 | trimming leaves exactly min(size, cap) candidates, each as it was, and every one that left was observed before every one that stays, or at the same time under a smaller key |
| Footprint.OnlyExpiredLeave | state.go:618-625 | a sweep takes a candidate out of flight only when more time than the TTL passed since it was observed |
| Footprint.SweepIsFresh | state.go:602-626 | after a sweep, in whatever order, no candidate and no session but a blank one is past its TTL |
| Footprint.PurgeIsFresh | state.go:587-626 | the same after the purge of any call, swept or skipped |
| Footprint.PurgeTakesExactly | state.go:587-626 | what is in flight after the purge of any call is exactly what was and has not been longer than the TTL, to the nanosecond, and no session but a blank one is older |
| Events.EventEffect | state.go:218-334 | after the sweep a call writes one session; any other change is eviction or a taint for a lost candidate |
| Events.CandidatesAfter | state.go:218-260 | a candidate in flight afterwards was registered by this call or was there before, unchanged and not concerned |
| Events.SettlesExactly | state.go:451-455 | a completion settles a candidate exactly when its id is not blank and has one in flight that is not past its TTL: an expired candidate never commits |
| Events.EntrantIsExact | state.go:239-333 | every field of the candidate a prepare puts in flight, from the request, the session it finds and the answer |
| Events.RegisteredEnters | state.go:247-334 | it replaces what its request had in flight and stays, unless the cap is exceeded and it is the oldest; the counter goes up by one |
| Events.SessionIsolation | state.go:437-504 | a call leaves every session it is not about unchanged, gone, or tainted because one of its own candidates was past its TTL in the sweep or trimmed by the registration; a discard changes no session |
| Invariant.EventKeepsInv | state.go:123-142 | every call keeps caps, no empty keys, well-formed barriers and candidates, distinct pending sequences bounded by the counter and different from committed ones |
| Invariant.SequenceGrows | state.go:247-320 | sequences never decrease except by reset |
| Runs.LatestCandidateOnly | state.go:229-260 | in every run, what is in flight under a request is its most recent prepare's candidate, with no completion or discard since |
| Runs.RoutesAfter | state.go:462-503 | a session has a route after a call only if this call committed it or it had the same one before |
| Runs.RouteProvenance | state.go:462-477 | in every run, a committed route comes from the success of some request's latest candidate, or was in the store the run began with; replaced, rejected, failed, expired, trimmed or discarded candidates never commit |
| Runs.DecisionIsExact | state.go:262-347 | relation, reject, strip and blocked items of every answer, each exactly, by a decision table over whether the session is reusable on the route |
| Runs.LetThroughIsTrusted | state.go:262-302 | state let through implies an untainted session bound to the route and touched within the TTL, no conflicting request in flight, and every barred item blocked |
| Runs.RunSafety | state.go:218-334 | the same in every run, with the commit that bound the route; from an empty store that commit lies in the run |
| Discipline.NoRollback | state.go:469-477 | while a session stays and keeps a route its committed sequence never decreases |
| Discipline.LargestSequenceWins | state.go:462-484 | successes of one session in any order, with any events that leave the session to itself in between, leave the binding of the largest sequence, committed or completed |
| Discipline.CommitOrderConfluence | state.go:320-331 | any two such runs with the same successes leave the same binding |
| Discipline.TaintClearsExactly | state.go:478-482 | a session that stays loses its taint if and only if the call is a clean restart: a success of a clean, exclusive candidate whose route is then bound |
| Discipline.TaintDiscipline | state.go:314-331 | in every run, the candidate that clears a taint was prepared clean, on a tainted session, with nothing else of the session in flight |
| Discipline.TaintContains | state.go:287-302 | while tainted, route-bound requests are rejected or stripped, and which of the two |
| Tainting.RefusalUncommits | state.go:488-503 | an invalid-encrypted-content failure taints, and drops the binding exactly when it is the refused route's and no later one |
| Tainting.OtherFailuresSpareSessions | state.go:488-490 | any other failure leaves binding, taint and barrier of every session as they were, unless swept or tainted for an expired candidate of its own |
| Tainting.OtherFailuresSpareCandidates | state.go:488-490 | and takes only the failed candidate out of flight; every other within its TTL stays as it is |
| Tainting.ConcurrencyTaints | state.go:263-312 | a request that finds its session in flight on another or unknown route is not let through, and leaves the session tainted if and only if it was, or the request has an id or is rejected |
| Tainting.TrimmedOwnersAreTainted | state.go:660-684 | a candidate trimmed out of flight leaves its session tainted or evicted |
| Tainting.ExpiredOwnersAreTainted | state.go:618-625 | a candidate swept out of flight leaves its session tainted or evicted, in every visiting order |
| Tainting.PurgedOwnersAreTainted | state.go:587-626 | the same for the purge of any call |
| Tainting.RegisteringTaintsTrimmed | state.go:248-257 | the same for the trim of any registering call |
| Barrier.GuardHolds | state.go:349-380 | through any call that does not remove its session, a barred item stays behind the barrier if and only if it is not re-scoped or the barrier overflows, and it overflows if and only if it had or too many items were observed or would be remembered; all told before the call |
| Barrier.GuardHoldsOverRuns | state.go:349-380 | the same over any continuation of a run |
| ScopeOverwrite.OverwriteIsReachable | state.go:288-299 | from an empty store a run can retire an item for one route and then, by a rejection, for another |
| ScopeOverwrite.ScopeOverwriteUnbars | state.go:368-373 | before the rejection the item is blocked on the first route, after it it is let through there |
| Barrier.RetirementBarrier | state.go:272-302 | once behind the barrier, an item is blocked, stripped or rejected on its route until its session is removed or it is re-scoped |
| Barrier.RejectionBars | state.go:288-299 | a rejected request's items are barred from the route it was rejected for |
| Barrier.StrippedItemsAreCarried | state.go:314-331 | a stripped candidate carries every item it lost, or the fact that there were too many |
| Barrier.SuccessBars | state.go:463-467 | when it succeeds they are barred from its route, or from every route if that is unknown |
| Recovery.RouteRecovery | state.go:262-333 | a request accepted alone that succeeds within the TTL below the caps leaves its session untainted on its route, whether the session was new, tainted or bound elsewhere and whatever the store does for other sessions in between |
| Recovery.RecoveredPasses | state.go:272-302 | the session's next request on that route within the TTL, whatever the store does for others in between, is answered Same, never rejected, and loses only barred items, or all if the barrier overflowed |
| Meanwhile.ElsewhereKeeps | state.go:218-504 | over any run of events about other sessions that take none of its candidates, a session keeps its candidates, and its entry until that expires |
| Meanwhile.UncrowdedIsUndisturbing | state.go:587-673 | below the caps, an event about another session and other requests is such an event, told before it happens |
| Sweeping.SkippedSweepIsExact | state.go:587-626 | where the schedule skips, a sweep would have changed nothing if and only if no session is blank, and otherwise removed only those |
| Sweeping.SweepClosedForm | state.go:618-625 | below the cap a sweep drops the overdue candidates and taints exactly their owners, evicting nobody |
| Sweeping.SweepIsExact | state.go:602-626 | below the cap a session is there after a sweep exactly if it was touched within the TTL or loses a candidate of its own; it is tainted in the latter case and as it was otherwise |
| Sweeping.SweepOrderIsIrrelevant | state.go:618-625 | below the cap map iteration order does not matter |
| Sweeping.DecisionIsLocal | state.go:262-302 | away from eviction two stores that agree on one session and its candidates answer alike |
| Amortised.EagerStep | state.go:587-600 | one call: sweeping where the store skips changes neither answer nor state |
| Amortised.AmortisedRefinesEager | state.go:587-626 | every run without a blank session is matched event by event by one that sweeps on every call and ends in the same state |
| Amortised.EagerAnswers | state.go:587-626 | and answers alike |
| EagerTwin.TwinStep | state.go:587-626 | below the caps, blank sessions or not, a call on a store that skips sweeps and on one that sweeps every time leaves them equal but for blank entries, and is answered alike |
| EagerTwin.AmortisedAgreesUpToBlanks | state.go:587-626 | the same over every run below the caps |
| EagerTwin.TwinAnswers | state.go:587-626 | and every request of such a run is answered alike |
| PendingIndex.ExactIsUnique | fuzz_test.go:166-197 | an exact index is determined by the in-flight map |
| PendingIndex.CountedIsExact | state.go:541-551 | counting one more candidate keeps the index exact |
| PendingIndex.UncountedIsExact | state.go:564-578 | uncounting a removed one keeps it exact, with no zero entry left |
| PendingIndex.InFlightByCount | state.go:691-694 | the constant-time in-flight test is the scan |
| PendingIndex.MismatchByCount | state.go:686-689 | the constant-time mismatch test is the scan |
| Store.RouteStateStore.constructor | state.go:167-179 | an empty store is valid |
| Store.RouteStateStore.Restored | persistence.go:93-98 | a store that starts from a restored state is valid, with nothing in flight and the first sweep due at once |
| Store.RouteStateStore.RemovePendingIndex | state.go:564-578 | decrements in place and removes entries at zero |
| Store.RouteStateStore.DeletePending | state.go:554-562 | removes the candidate, keeps the index exact, reports whether it was there |
| Store.RouteStateStore.SetPending | state.go:537-552 | sets or replaces the candidate and keeps the index exact |
| Store.RouteStateStore.HasPending | state.go:691-694 | equals a scan of the in-flight map |
| Store.RouteStateStore.HasConcurrentRouteMismatch | state.go:686-689 | equals a scan for a candidate on another or unknown route |
| Store.RouteStateStore.OldestSession | state.go:637-655 | the loop finds the least session not skipped, in stamp and key order, whatever the iteration order |
| Store.RouteStateStore.EvictSession | state.go:637-656 | the two passes together evict the unique least session in (active, stamp, key) order |
| Store.RouteStateStore.TrimSessions | state.go:628-658 | the loop ends and computes the eviction function, whose kept sessions are the newest |
| Store.RouteStateStore.OldestPending | state.go:662-669 | the loop finds the candidate observed before every other, or at the same time under a smaller key |
| Store.RouteStateStore.EvictPending | state.go:661-672 | evicts that candidate and taints its session |
| Store.RouteStateStore.TrimPending | state.go:660-673 | computes the trimming whose survivors TrimPendingKeepsNewest states |
| Store.RouteStateStore.TaintSession | state.go:675-684 | taints and stamps the session, then trims |
| Store.RouteStateStore.MaybePurgeExpired | state.go:587-600 | sweeps exactly when none is scheduled later than now, and then schedules the next within a minute and no later than any expiry; swept or not, nothing but blank sessions is left past its TTL |
| Store.RouteStateStore.PurgeExpired | state.go:602-626 | the two loops are a sweep in some order, and schedule every survivor's expiry |
| Store.RouteStateStore.BoundedUniqueFingerprints | state.go:382-405 | the loop computes the bounded distinct fingerprints; its inner overflow test never fires |
| Store.RouteStateStore.RetiredItemMatches | state.go:415-435 | the loop computes the barred fingerprints |
| Store.RouteStateStore.RetireItems | state.go:349-380 | the loop computes the retirement whose effect RetireSpec states |
| Store.RouteStateStore.DecideTracked | state.go:272-302 | the branches compute the decision DecisionIsExact states |
| Store.RouteStateStore.Prepare | state.go:218-334 | is one prepare event, under the digest of the trimmed request id, or under none exactly when that is blank: new state and answer are the protocol's, and the store stays valid |
| Store.RouteStateStore.Complete | state.go:437-504 | is one completion event, under the same key; tracked exactly when that key is in flight and within its TTL |
| Store.RouteStateStore.Settle | state.go:457-503 | success, refusal and other failures end as the protocol says |
| Store.RouteStateStore.DiscardPending | state.go:520-527 | is one discard event, under the same key, also for a blank id |
| Store.RouteStateStore.ResetState | state.go:506-518 | is one reset event: all maps empty, counter and schedule at zero, and the store valid |
| Store.RouteStateStore.TakeSnapshot | state.go:193-214 | is one snapshot event, with the counts of live, in-flight, tainted and overflowed entries |
| Identity.Normalize | session.go:191-202 | trims; refuses exactly what is empty, over 256 bytes or holds a control character, so never yields a NUL |
| Identity.NormalizeIsExact | session.go:191-202 | the same with the character ranges and the bound written out |
| Identity.FramingIsInjective | state.go:71-81 | the NUL-separated frame determines namespace and all parts |
| Identity.RouteIdentity | state.go:45-53 | equal route fingerprints if and only if credential and model agree |
| Identity.RouteIsExact | state.go:45-53 | when a route is known, and the bytes it is the digest of |
| Identity.SessionKeyIsExact | session.go:18-24 | when a session is known, and the bytes it is the digest of |
| Identity.ConversationIsExact | session.go:157-164 | when a conversation identity is known, and the bytes it is the digest of |
| Identity.SessionIdentity | session.go:18-24 | equal session keys if and only if caller scope, kind and identity agree |
| Identity.ConversationIdentityIsInjective | session.go:157-164 | equal conversation identities if and only if session and thread agree |
| Identity.PendingIdentity | state.go:533-535 | equal digests of request ids if and only if the trimmed ids agree |
| Identity.InFlightIdentity | state.go:229-235 | a request has an in-flight key exactly when its id is not blank, the digest of the trimmed id; two requests share one if and only if the trimmed ids agree |
| Identity.NamespacesAreApart | state.go:71-81 | fingerprints of different namespaces differ |
| Sanitize.ItemIdentity | sanitize.go:97-117 | equal fingerprints if and only if the items are of one kind and have the same non-blank id; or neither has one and they have the same non-empty encrypted content; or neither has that either and their canonical texts agree |
| Sanitize.FingerprintIsExact | sanitize.go:97-117 | the bytes a fingerprint is the digest of, for each way an item is identified |
| Sanitize.KindIsExact | sanitize.go:95-104 | which type members name reasoning and compaction, to the strip and to the detector |
| Sanitize.InspectionIsExact | sanitize.go:56-81 | both flags, the previous response and the fingerprints of the detected items in their order, from the members of the body |
| Sanitize.SignalsAreConsistent | sanitize.go:68-79 | fingerprints are reported exactly with reasoning or compaction, and none is empty |
| Sanitize.StripCoversDetector | sanitize.go:139-156 | the full strip drops exactly what the detector flags and items whose id alone hid them from it |
| Sanitize.KeepKeepsOrder | sanitize.go:199-213 | a filtering loop keeps exactly the items that stay, as they are, at increasing positions |
| Sanitize.FullStripIsClean | sanitize.go:128-174 | after a full strip inspection finds nothing; exactly the items not called reasoning or compaction are kept, unchanged and in order; every other member of the body is as it was |
| Sanitize.FullStripIsIdempotent | fuzz_test.go:38-45 | stripping again changes nothing |
| Sanitize.FullStatsAreExact | sanitize.go:137-168 | removed counts and survivors add up to the input; a strip that was called for removes something |
| Sanitize.FullCountsAreExact | sanitize.go:133-156 | the counts are the numbers of reasoning and of compaction items, and whether there was a previous response |
| Sanitize.SelectiveStripIsExact | sanitize.go:199-213 | the fingerprints left are exactly the unblocked ones; exactly the items without a blocked fingerprint are kept, unchanged and in order; previous_response_id and all other members stay |
| Sanitize.SelectiveStatsAreExact | sanitize.go:201-216 | counts add up, and something is removed if and only if a blocked fingerprint is present |
| Sanitize.SelectiveCountsAreExact | sanitize.go:199-213 | the counts are the numbers of reasoning and of compaction items with a blocked fingerprint |
| Sanitize.PayloadInspection.Inspect | sanitize.go:44-82 | succeeds exactly on a top-level object, and reports, member by member, what InspectionIsExact states |
| Sanitize.PayloadInspection.Scan | sanitize.go:68-80 | the loop computes both flags and the fingerprints in order |
| Sanitize.PayloadInspection.StripRouteBoundState | sanitize.go:128-174 | edits the root in place to the full strip with exact counts, or reports that encoding failed |
| Sanitize.PayloadInspection.StripRetiredItems | sanitize.go:184-227 | edits the root in place to the selective strip with exact counts, or reports that encoding failed |
| Interceptor.PrepareIsExact | interceptor.go:72-74 | the prepare of a request is judged on the route of its own credential and model, in the session of its own caller and identity, under its own id, for what its body holds |
| Interceptor.SentBodyIsExact | interceptor.go:80-110 | the body sent: as it was; or without reasoning, compaction and previous response; or without exactly the blocked items; everything else kept, in order |
| Interceptor.TargetIsExact | interceptor.go:142-144 | which formats are Codex targets |
| Interceptor.LikelihoodIsExact | sanitize.go:229-234 | an unparseable body counts as holding state exactly when it mentions one of the three quoted words, in any case |
| Interceptor.SentStateIsTrusted | interceptor.go:55-110 | a body sent upstream carries route-bound state only for a trusted session, and then nothing barred from the route |
| Interceptor.UntrustedRouteSendsNothing | interceptor.go:80-110 | on a changed, unknown or tainted route the body sent re-inspects with no route-bound state |
| Interceptor.HiddenItemsPassAlone | sanitize.go:88-100 | on a changed or unknown route the body sent has no reasoning or compaction item, by the strip's own decoding, if and only if the request was route-bound or had no such item with an undecodable id |
| Interceptor.HiddenItemIsPassedOn | sanitize.go:88-100 | a body with one reasoning item whose id is no string is passed on whole, whatever the route |
| Interceptor.DecidedStripsChange | interceptor.go:84-98 | every strip the store asks for removes something, so the no-change half of the failure branch is dead |
| Interceptor.Plugin.InterceptRequestAfterAuth | interceptor.go:28-111 | exactly one of pass, reject, full strip or selective strip, from one prepare made from the request itself; unparseable bodies that mention state are refused with 400, rejections with 409; a sanitize failure only if encoding fails, and then the candidate is discarded |
| Interceptor.Plugin.RespondTo | interceptor.go:59-110 | acts on the decision; the candidate is discarded only if encoding fails, and then the answer is a conflict |
| Interceptor.Plugin.HandleRequestComplete | interceptor.go:113-123 | one completion event under the request's key if enabled, none otherwise |
| Requests.RequestsAreTold | state.go:45-53 | of any two intercepted requests: a route is known exactly for a usable credential and model on a Codex target, and two known routes are one if and only if both agree; likewise sessions, by caller, kind and identity |
| Requests.SentStateHasItsRoute | interceptor.go:55-110 | in every run of intercepted requests, a body sent with route-bound state follows the success, reported under the same id, of an earlier request of the same credential, model, caller and identity, unless the store was restored with that route bound |
| Persistence.AcceptedIsRestorable | persistence.go:203-259 | what is accepted of any file, written out: version 1, stamps at most five minutes ahead, the session cap, 64 hexadecimal digits, no sequence beyond the file's, at most 256 retired items, a scope only for an item, a route exactly if committed |
| Persistence.Validate | persistence.go:203-251 | reports an error exactly on a body that is not so, whatever the iteration order |
| Persistence.ValidateSession | persistence.go:213-249 | reports an error exactly on an unacceptable session |
| Persistence.Load | persistence.go:145-189 | restores exactly from such a file when it is intact: same sequence, nothing in flight, exactly the sessions touched within the TTL |
| Persistence.LoadedBegins | persistence.go:93-98 | any file that loads, whoever wrote it, restores a store a run can begin with if and only if no session kept is stamped ahead of the clock or remembers items beside an overflow |
| Persistence.AheadFileLoads | persistence.go:217-219 | a file with one session stamped just ahead of the clock loads, and no run can begin with it |
| Persistence.ExpireOnLoad | persistence.go:183-187 | the loop keeps exactly the unexpired sessions |
| Persistence.EventKeepsOpaque | persistence.go:253-259 | every identity a store of intercepted requests holds is a well-formed digest |
| Persistence.SavedIsAcceptable | persistence.go:366-377 | what a sound store saves is acceptable if and only if no session is blank |
| Persistence.SnapshotClosure | persistence.go:203-251 | the same for every run of intercepted requests |
| Persistence.RoundTrip | persistence.go:93-100 | loading what a sound store saved succeeds if and only if no session is blank, and then restores the sequence and exactly the unexpired sessions; otherwise the next start is empty |
| Persistence.IdleRestartIsInvisible | persistence.go:93-98 | with nothing in flight, the first call that reads the clock answers after a restart and leaves the state as without it |
| Persistence.ClocklessCallsCommute | state.go:506-527 | discards, resets and completions with a blank id before that do to the restarted store what they do to the other |
| Persistence.IdleRestartLeavesNoTrace | persistence.go:93-98 | so whatever calls come first, nothing later tells the stores apart |
| Restarts.RestartIsTransparent | state.go:218-334 | with requests in flight and no blank session, a later request of a session with none of its own is judged after a restart as it would have been, however many requests of others either store serves in between, below the caps |
| Restarts.UntrackedIsTransparent | state.go:238-260 | a request without a session or a known route is judged by its body alone |
| Restarts.RestartBegins | persistence.go:93-98 | whatever a restart makes of a saved run, a run can begin with it, and every session in it is one the last run ended with |
| Restarts.RunSafetyAcrossRestart | persistence.go:93-98 | run safety holds after a restart, and the commit that bound the route lies after it or before it |
| BlankSession.BlankStays | state.go:628-658 | a zero entry put into the store survives trimming if and only if there is room, or it is active and an idle session is there |
| BlankSession.BlankArisesExactly | state.go:457-484 | a blank session arises if and only if an unknown-route success with nothing to retire finds its session gone and either room for one more, or another request of the session in flight and an idle session to evict |
| BlankSession.RunsWithoutBlankAreSaved | persistence.go:203-251 | every run in which that never happens ends in an acceptable snapshot |
| BlankSession.BlankIsReachable | persistence.go:217-219 | a run of intercepted requests whose snapshot the validator refuses, for every TTL and start time |
| Writer.RunIsSafe | persistence.go:278-408 | every interleaving of critical sections, writer and stop callers keeps the writer invariant |
| Writer.NoLostUpdate | persistence.go:316-359 | before shutdown, a change the last copy misses has a wake token queued or a writer that must still copy |
| Writer.RestingFileIsCurrent | persistence.go:316-408 | at rest the file is stale if and only if the last write failed or none was made, and the last good one held something else than what was last copied |
| Writer.FailedWriteIsNotRepeated | persistence.go:399-417 | recording a write leaves the writer at rest with a stale file if and only if it failed with no change since and no earlier file of the same content |
| Writer.StaleFileIsReachable | persistence.go:316-408 | a run that ends so: one change, whose write fails |
| Writer.ChannelsCloseOnce | persistence.go:278-296 | neither stop nor done is closed twice |
| Writer.StopFlushes | persistence.go:278-333 | when the stop call that closed the channel returns, the writer is gone and a successful last write holds every change made before the flag |
| Writer.ShutdownTerminates | persistence.go:326-349 | once stop is closed the writer can always move, each of its moves brings it closer to done, nothing pushes it back, and after it has seen stop it makes exactly four more |
| Shutdown.RequestWakes | persistence.go:351-359 | a request queues a wake token exactly if the writer is not stopped and the request is no discard and no completion with a blank id |
| Shutdown.RunsStayLinked | persistence.go:361-377 | in every joint run of store and writer the history is of storable states ending in the store's own |
| Shutdown.MovesAreNeverBlocked | persistence.go:351-359 | no request is ever refused by the writer protocol |
| Shutdown.StartIsLinked | persistence.go:298-314 | an empty or restored store with a fresh writer is where joint runs begin |
| Shutdown.FlushedFileLoads | persistence.go:203-251 | the file a successful shutdown leaves is a state from the stopped flag or later; the next start accepts it exactly when it holds no blank session, and then goes on with its sequence and unexpired sessions, else with an empty store |
| Shutdown.ShutdownRestarts | persistence.go:278-333 | the same from a fresh or restored store, through every interleaving |

## Left out

- Foreign calls, host wiring, registration, status output, diagnostics and metrics (abi.go, registration.go, management.go, diagnostics.go, metrics.go).
- HMAC and SHA-256, key files, permissions, symlink checks, temporary files and rename: integrity is a predicate, the file one cell whose write may fail.
- JSON bytes: a body is a text with a decoded root, an item the members the plugin decodes; duplicate keys, case-insensitive member names and the size limit of the state file are not modelled.
- YAML parsing of the configuration; only its numeric bounds appear, as preconditions.
- The precedence of headers, payload and metadata in session.go:30-151: which kind and identity it selects is a parameter.
- Identity.Normalize: strings are sequences of characters with their UTF-8 length; invalid UTF-8 is not modelled.
- The per-session index is a map of values; in the source it is a map of pointers updated in place.
- Sharing of retired maps between the store and a snapshot being encoded (persistence.go:373-390).
- Wrap-around of the 64-bit sequence counter.
- A store whose key file failed to load has persistence but no writer (persistence.go:85-89); its mutators mark nothing and its stop call returns at once.
- Writer.NoLostUpdate: speaks of the last copy, not of the file, because a failed write is not repeated.
- Recovery.RouteRecovery: below the caps only, because eviction may take the session in between.
- Restarts.RestartIsTransparent: below the caps only, because a sweep's taints may evict.
- EagerTwin.AmortisedAgreesUpToBlanks: below the caps only, because a blank entry takes room; without blank entries `Amortised.AmortisedRefinesEager` has no such bound.
- Sweeping.DecisionIsLocal: needs room for every session that has an entry or a candidate, because a sweep's taints may evict.
- Only `Fresh` inspections are stripped: the source never strips one inspection twice.
- The `nil` receivers and the process-wide digester of a store without persistence.
