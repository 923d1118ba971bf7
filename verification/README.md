# cnpg-ha failover, modelled and proved in Dafny

cnpg-ha is a Kubernetes operator that keeps one CloudNativePG Cluster per site and
moves the primary role between sites. This project models one `Reconcile` of an
HACluster, with every API call it makes, and proves what holds of whole runs: who
may accept writes, in which order a promotion touches the sites, how often an
automatic failover can act and that it does, and how a split-brain ends.

`dafny verify dfyconfig.toml` checks the whole project.

## How the model works

- A federation is a map from site name to that site's CNPG Cluster and `-rw`
  Service (`Objects`). Distinct sites are distinct objects.
- Every API call has its own *fate*, chosen by the environment: served, refused,
  committed with the reply lost, or preceded by somebody deleting the object. A
  theorem without a hypothesis on fates holds for every pattern of failures.
- Every committed change adds a snapshot to a trace. The snapshots are the states a
  crash can leave, so a statement about every snapshot is a statement about every
  crash point.
- Clock readings, SQL probe answers and fates are inputs of a Reconcile. Time is in
  nanoseconds; a persisted timestamp is cut to whole seconds, as Kubernetes
  serialises it.
- What a definition means is also said without it: `Selects`, `CarriesRoute`, `TwoClaims`,
  `ClaimsAs`, `Candidate`, `PrimaryFailed` and `Yields` speak of raw fields only, and the
  lemmas named `...Exactly` tie the code's own tests to them.
- The source's imperative code is written as imperative code: `Federation` (the
  promotion steps), `HAClusterReconciler`, `Cache` and `Collectors` are classes, and
  the loops of the controller are methods with invariants over buffers that change in
  place. Each is proved equal to a function, and the theorems are about those
  functions.

| module | content |
|---|---|
| `Objects`, `HACluster` | documents, API calls and fates; spec, status, effective parameters |
| `Promotion` | Fence, Promote, Reconfigure, FlipCiliumService and their algebra |
| `Observation` | probing, deciding the primary, choosing a target, mirroring an effect |
| `Failover`, `Rerun` | runPromotion: order of its writes, restart after a crash |
| `Topology` | reconcileReplicaTopology |
| `Controller`, `Reconciler` | one Reconcile as a function, and as the source's object |
| `Safety`, `Runs` | single writer, recorded primary, manual rejoin |
| `SecondWriter` | exactly when a second writer appears, in one Reconcile and over runs |
| `Pacing` | failure counters and cooldown |
| `Convergence` | the end of a split-brain, and that an outage ends in a failover |
| `Witnesses` | concrete runs: where a promise fails, and an outage the progress theorem speaks of |
| `ClientCache`, `Lsn`, `Metrics` | remote client cache, WAL positions, gauges |

## Where a promise fails

- *Fencing keeps a single writer* (docs/ARCHITECTURE.md:266-274). If the Promote
  write lands and anything after it fails, the new primary is not recorded and the
  failure count is kept. The next Reconcile still takes the old site for the primary
  and promotes another replica. No API failure is needed: a target without a `-rw`
  Service is enough. `Witnesses.MissingServiceMakesTwoWriters` is such a run.
  Both exact conditions are in terms of what a Reconcile is given:
  `SecondWriter.OneWriterExactly` and `SecondWriter.OneWriterOverRunsExactly` for at
  most one writer, `Safety.RecordedWriterKeptExactly` for the recorded one.
  `Runs.ObservedWriterIsRecorded`, `Convergence.SplitBrainHeals` and
  `Convergence.SplitBrainEndsForGood` say how such a state heals.
- *The status names the target after a promotion.* The handlers' assignment is always
  overwritten by the decision. `Runs.PromotionIsPersistedExactly` gives the exact
  condition; the second Reconcile of `Witnesses.MissingServiceMakesTwoWriters`
  completes a promotion and leaves the old name.
- *FailoverInProgress is removed at the end* (docs/ARCHITECTURE.md:302). It stays
  raised when the annotation of a completed manual promotion cannot be cleared, until
  the next attempt: `Runs.ProgressFlagExactly`, and
  `Witnesses.FlagStaysRaised` for such a run.
- *The cache key identifies the Secret.* For one reference exactly when it is free of
  stray separators (`ClientCache.CacheKeyIsOwnExactly`), which every name Kubernetes
  admits is. The cache is transparent exactly for sets of references that do not
  collide (`ClientCache.TransparentExactly`).
- *The failure threshold is at least 3* (docs/ARCHITECTURE.md:270). The code accepts 2
  and replaces only smaller values by 3: `HACluster.EffectiveThreshold`.

## Model

| member | source | states |
|---|---|---|
| Promotion.Apply | internal/promotion/promotion.go:95-204 | one step touches only its site's Cluster, commits at most once, on success the edit is in force, NotFound means the Cluster is gone, and nothing but the edit or a deletion can be the change |
| Promotion.Flip | internal/promotion/promotion.go:238-258 | the same for the `-rw` Service: one object, one commit, success means routed, and nothing but the routing or a deletion can be the change |
| Promotion.ApplyExactly | internal/promotion/promotion.go:95-204 | a step succeeds iff its read is served, the Cluster is there, the edit is accepted, and the write is served or not needed; and exactly when it reports a missing Cluster |
| Promotion.FlipExactly | internal/promotion/promotion.go:238-258 | the same for the Service |
| Promotion.RouteExactly | internal/promotion/promotion.go:76-87 | the new primary's Service carries global "true" and affinity "local", the old one's "remote", nothing else changes |
| Promotion.SelectedExactly | internal/promotion/promotion.go:206-226 | the external cluster a source means is the first object of that name or, without a name, the only element; nothing else is selected |
| Promotion.ReconfigureExactly | internal/promotion/promotion.go:154-204 | Reconfigure is accepted iff the host is not empty and such an object exists, and what a Cluster streams from is that object's host |
| Promotion.Federation.FenceCluster | internal/promotion/promotion.go:95-113 | the code of Fence does exactly the Fence step, writing only a difference |
| Promotion.Federation.PromoteCluster | internal/promotion/promotion.go:120-139 | the code of Promote does exactly the Promote step, including a malformed flag |
| Promotion.Federation.ReconfigureCluster | internal/promotion/promotion.go:154-204 | the code of Reconfigure does exactly the Reconfigure step, including every refusal |
| Promotion.Federation.ExternalClusterIndex | internal/promotion/promotion.go:209-226 | the loop finds the first external object of that name, or the only one when no source is set |
| Promotion.Federation.FlipCiliumService | internal/promotion/promotion.go:238-258 | the code does exactly the Flip step |
| Promotion.ReviseIdempotent | internal/promotion/promotion.go:11-14 | each edit is idempotent |
| Promotion.ApplyTwiceWritesOnce | internal/promotion/promotion.go:11-14 | a step that succeeded commits nothing when repeated, whatever fails then short of a deletion |
| Promotion.FenceCommutes | internal/promotion/promotion.go:95-204 | Fence commutes with Promote and Reconfigure, success included |
| Promotion.ReviseFrame | internal/promotion/promotion.go:141-153 | what each edit writes and leaves: Fence only the fence annotation, Promote only a true flag to false, Reconfigure only the selected external's host and the role flag; no edit lifts a fence |
| Promotion.RepointKeepsSelection | internal/promotion/promotion.go:206-226 | rewriting the host keeps the selection, so the Cluster streams from the new host |
| Observation.ParsedWal | internal/postgres/probe.go:83-104 | a position is known iff the answer's text parses, and is then its value |
| Observation.Probe | internal/health/health.go:71-103 | reachable iff the read is served and the Cluster exists; primary iff the flag is not true, ready iff an instance is ready; a WAL position and a lag iff ready and the answer parses |
| Observation.PrimaryReadyCandidates | internal/controller/hacluster_controller.go:1128-1139 | the loop lists the reachable, primary and ready sites in order |
| Observation.ClaimantsInOrder | internal/controller/hacluster_controller.go:1128-1139 | the names of the claims, in order |
| Observation.SplitBrainExactly | internal/controller/hacluster_controller.go:1114-1123 | a split-brain is reported iff two sites are reachable, primary and ready |
| Observation.DecideExact | internal/controller/hacluster_controller.go:1103-1109 | the only claimant is the decision |
| Observation.DecidedHasWitness | internal/controller/hacluster_controller.go:1103-1123 | a decision comes from exactly one claiming observation |
| Observation.SetObservationRole | internal/controller/hacluster_controller.go:676-693 | in place, the first observation of that name changes role and loses readiness when demoted |
| Observation.ApplyPromotionEffect | internal/controller/hacluster_controller.go:666-672 | in place, demotion then promotion, nothing for the zero effect |
| Observation.EffectExactly | internal/controller/hacluster_controller.go:654-693 | the promoted site is primary with the readiness it had, the demoted one neither primary nor ready, everything else as observed |
| Observation.PromotionIsReflected | internal/controller/hacluster_controller.go:654-693 | after an effect the promoted site is decided iff nobody but the demoted site claimed before, and then without split-brain |
| Observation.MoreAdvancedIsStrictWeakOrder | internal/controller/hacluster_controller.go:392-400 | irreflexive, asymmetric, transitive, and incomparability is transitive |
| Observation.AdvancedByWords | internal/controller/hacluster_controller.go:392-400 | of two known positions the more advanced has the greater (high, low) pair in its text |
| Observation.ChooseIsStableBest | internal/controller/hacluster_controller.go:350-390 | the target is exactly the earliest eligible replica nobody eligible beats (first eligible under another policy); none iff none is eligible |
| Observation.ChooseTarget | internal/controller/hacluster_controller.go:362-390 | the loop computes that choice |
| HACluster.ReplicationEndpointFor | internal/controller/hacluster_controller.go:494-504 | the loop finds the endpoint of the named site |
| HACluster.EndpointIsDeclared | internal/controller/hacluster_controller.go:492-504 | the first site of that name gives its endpoint, an unknown name has none |
| Failover.SiteClientAndRef | internal/controller/hacluster_controller.go:510-533 | the declared primary always resolves, a replica iff its client is built, an unknown site never |
| Failover.ResolvesByKind | internal/controller/hacluster_controller.go:510-533 | declared primary, replica, unknown site: always, iff its client is built, never |
| Failover.StepIsCalm | internal/promotion/promotion.go:95-204 | only Promote makes a primary, only Reconfigure unmakes one, no step lifts a fence |
| Failover.PromotionStages | internal/controller/hacluster_controller.go:706-754 | every execution is two calm moves on the old site, at most one Promote behind a fenced or missing old Cluster, one calm move on the target |
| Failover.FenceBeforePromote | internal/controller/hacluster_controller.go:706-754 | under any failures, at every crash point: only the target turns primary, once, after the old Cluster is fully fenced or gone, and that stays so |
| Failover.PromotionOutcome | internal/controller/hacluster_controller.go:706-754 | after success the old site is fenced and its Service remote, as far as they exist, the target is primary and its Service local, every other site as it was |
| Failover.PromotionIsOrdered | internal/controller/hacluster_controller.go:735-753 | in every snapshot: the old Service is turned away only behind a fence, the target's Cluster touched only behind both, its Service only once it is primary |
| Rerun.CleanRunSettles | internal/controller/hacluster_controller.go:706-754 | without failures the result is the declared goal, and it succeeds iff the target has a promotable Cluster and a Service |
| Rerun.InterruptedRunConverges | internal/controller/hacluster_controller.go:735-753 | crash after any committed write under any failures, rerun cleanly: same Clusters, Services and result as one clean run |
| Topology.ReconcileReplicaTopology | internal/controller/hacluster_controller.go:416-490 | the loop computes the pass, with its error outcome |
| Topology.PassEndsSplitBrain | internal/controller/hacluster_controller.go:402-490 | after a successful pass from any state every reached site is a fenced stray or a replica of the endpoint and no writer; the primary's site is untouched |
| Topology.FailedPassIsOrdered | internal/controller/hacluster_controller.go:441-488 | stopped at entry k, the visited entries before are converged and those after untouched |
| Topology.PassStopsExactly | internal/controller/hacluster_controller.go:440-489 | the pass stops at the first entry it acts on that does not yield, and runs to the end iff there is none |
| Topology.PassLeavesUnreached | internal/controller/hacluster_controller.go:445-463 | a site without a client or without a fresh read is left alone |
| Topology.PassReachesFixpoint | internal/controller/hacluster_controller.go:402-415 | a second pass that reaches no further site commits nothing |
| Topology.PassIgnoresObservedRoles | internal/controller/hacluster_controller.go:450-460 | two buffers with the same names give the same Clusters and the same outcome |
| Controller.HandlersMakeOneAttempt | internal/controller/hacluster_controller.go:184-198 | the two handlers make at most one attempt; the sites are what runPromotion left, the effect is reported iff it completed, the status is not written early |
| Controller.PromoteHandlerShape | internal/controller/hacluster_controller.go:544-615 | every branch of the manual handler: refused requests only clear the annotation, an accepted one is one attempt |
| Controller.AutomaticHandlerShape | internal/controller/hacluster_controller.go:263-348 | every branch of the automatic handler: no attempt leaves sites and status alone, otherwise one attempt |
| Controller.ObserveSite | internal/controller/hacluster_controller.go:945-998 | reachable iff client and read are served and the Cluster exists; role and readiness are the Cluster's, the position is the parsed answer |
| Controller.TargetHasGreatestPosition | internal/controller/hacluster_controller.go:350-400 | under MostAdvancedLSN no eligible replica reports a greater (high, low) pair than the target of an automatic failover |
| Controller.TargetBreaksTies | internal/controller/hacluster_controller.go:350-400 | without positions the greatest timeline wins, among equals and under another policy the first in spec order |
| Controller.UnhealthyExactly | internal/controller/hacluster_controller.go:275-306 | the primary counts as failed iff no two sites claim, the cooldown is over, and the recorded primary is not reachable, primary and ready |
| Controller.ManualAttemptExactly | internal/controller/hacluster_controller.go:544-588 | a manual promotion is attempted iff the mode is Manual, the annotation names a replica observed reachable, ready and not primary, and no two sites claim |
| Controller.SplitBrainSuspends | internal/controller/hacluster_controller.go:275-279 | while two sites claim nothing is attempted, manually or automatically |
| Controller.DemotesThePrimary | internal/controller/hacluster_controller.go:617-637 | the recorded primary is demoted, else the only claimant, else the declared primary |
| Reconciler.HAClusterReconciler.Promote | internal/controller/hacluster_controller.go:706-754 | the code of runPromotion is the function |
| Reconciler.HAClusterReconciler.HandlePromoteAnnotation | internal/controller/hacluster_controller.go:544-615 | the code of the manual handler is the function |
| Reconciler.HAClusterReconciler.HandleAutomaticFailover | internal/controller/hacluster_controller.go:263-348 | the code of the automatic handler is the function |
| Reconciler.HAClusterReconciler.ClearPromoteAnnotation | internal/controller/hacluster_controller.go:770-781 | the merge patch and what its reply does to the object in memory |
| Reconciler.HAClusterReconciler.BumpFailCount | internal/controller/hacluster_controller.go:883-891 | one more for that key, returned; other keys as before |
| Reconciler.HAClusterReconciler.ResetFailCount | internal/controller/hacluster_controller.go:893-897 | that key removed; other keys as before |
| Reconciler.HAClusterReconciler.ReconcileOnce | internal/controller/hacluster_controller.go:159-249 | the code of Reconcile leaves exactly the sites, trace, hub, counters, gauges and outcome of the function |
| Safety.PromotionExactly | internal/controller/hacluster_controller.go:706-754 | from its inputs alone: the target turns primary iff `Commits`, and runPromotion succeeds iff `Commits` and `Routes` |
| Safety.PromotionKeepsOneWriter | internal/controller/hacluster_controller.go:706-754 | at most one writer at every crash point; after success only the target |
| Safety.OneWriterAtEveryInstant | internal/controller/hacluster_controller.go:159-249 | from a single-writer state, at every instant of a Reconcile and under any failures at most one site can accept writes |
| Safety.RecordedWriterKeptExactly | internal/controller/hacluster_controller.go:159-249 | one Reconcile keeps the recorded primary the only writer iff it does not commit a promotion it fails to complete and save |
| Safety.PassMakesNoWriter | internal/controller/hacluster_controller.go:416-490 | no snapshot of a pass has a writer the start did not have |
| SecondWriter.OneWriterExactly | internal/controller/hacluster_controller.go:159-249 | from at most one writer, whoever it is, a Reconcile keeps at most one at every instant iff it does not commit a promotion that demotes somebody else |
| SecondWriter.OneWriterOverRunsExactly | internal/controller/hacluster_controller.go:159-249 | the same iff over every run |
| Runs.SingleWriterOverRuns | internal/controller/hacluster_controller.go:159-249 | over every run without a stranded promotion: only the recorded primary can write after each Reconcile, at most one site at every instant |
| Runs.OnePromotionBehindAFence | internal/controller/hacluster_controller.go:184-198 | at most one site per Reconcile turns primary, the attempt's target, behind a fenced or missing old Cluster |
| Runs.PromotionIsPersistedExactly | internal/controller/hacluster_controller.go:199-214 | a completed promotion is decided and persisted iff no site but the demoted one claimed; otherwise the prior primary stays |
| Runs.ProgressFlagExactly | internal/controller/hacluster_controller.go:589-609 | the FailoverInProgress flag a saved Reconcile leaves: raised by an attempt iff it is manual, commits and routes but its annotation is not cleared; otherwise untouched without an attempt and lowered by one |
| Runs.AnnotationExactly | internal/controller/hacluster_controller.go:544-615 | the annotation is gone after a Reconcile iff its patch commits and no manual promotion failed, or it was not there |
| Runs.ObservedWriterIsRecorded | internal/controller/hacluster_controller.go:201-214 | a lone writer observed ready becomes the recorded primary in the next saved Reconcile that attempts nothing, and stays the only writer |
| Runs.ManualRejoinDiscardsNothing | internal/controller/hacluster_controller.go:435-487 | unless AutoReplica, no single change of a Reconcile turns a primary Cluster into a replica, the one just promoted included |
| Runs.RecordedPrimaryIsJustified | internal/controller/hacluster_controller.go:202-214 | the recorded primary is never cleared and changes only to the only reachable, primary, ready site |
| Runs.RecordedPrimaryIsSticky | internal/controller/hacluster_controller.go:169-173 | over every run: once recorded always recorded, always a declared site |
| Witnesses.MissingServiceMakesTwoWriters | internal/controller/hacluster_controller.go:747-752 | two Reconciles without an API failure after which two sites accept writes and the status does not name the target just promoted |
| Witnesses.FlagStaysRaised | internal/controller/hacluster_controller.go:602-604 | a completed manual promotion whose flag is still raised after the next Reconcile has cleared the annotation |
| Witnesses.OutageCanHappen | internal/controller/hacluster_controller.go:297-323 | two consecutive Reconciles that meet the hypotheses of `Convergence.FailoverHappens` |
| Witnesses.StartIsSafe | internal/controller/hacluster_controller.go:297-323 | that run starts from a state meeting every hypothesis of the safety theorem |
| HACluster.EffectiveThreshold | internal/controller/hacluster_controller.go:902-907 | at least 2: the value given, or 3 for a smaller one |
| HACluster.Cooldown | internal/controller/hacluster_controller.go:909-926 | the larger of 30 s and three intervals, without int64 overflow for any int32 interval |
| Pacing.CounterIsItsHistory | internal/controller/hacluster_controller.go:272-310 | for every interleaving over many HAClusters and restarts, a key's count is the number of its failures since its last reset |
| Pacing.AttemptNeedsThreshold | internal/controller/hacluster_controller.go:297-323 | an automatic attempt happens iff the call is a failure, the threshold is reached since the last reset, and a replica is eligible |
| Pacing.AutomaticAttemptExactly | internal/controller/hacluster_controller.go:272-323 | the same in terms of the count held in memory |
| Pacing.HealthyPrimaryIsLeftAlone | internal/controller/hacluster_controller.go:297-306 | while the recorded primary is reachable, primary and ready no automatic promotion is attempted and no failure is left counted |
| Pacing.FailoversArePaid | internal/controller/hacluster_controller.go:308-345 | n completed automatic failovers take at least n times the threshold handled calls |
| Pacing.MarkIsHonest | internal/controller/hacluster_controller.go:287-295 | the recorded time changes only to that of a saved promotion, and an automatic attempt has waited out the cooldown |
| Pacing.CooldownHolds | internal/controller/hacluster_controller.go:281-295 | over every run and across restarts no automatic promotion starts within the cooldown of the last recorded one |
| Pacing.PromotionsAreSpreadOut | internal/controller/hacluster_controller.go:338-345 | n recorded automatic promotions push the recorded time by at least n times the smallest cooldown in force, manual ones between them or not |
| Convergence.ReconcileSucceedsExactly | internal/controller/hacluster_controller.go:199-248 | a Reconcile succeeds iff an annotation found is cleared, a promotion attempted goes through, the status is saved, and every site the pass gets through to yields |
| Convergence.ServedReconcileSucceeds | internal/controller/hacluster_controller.go:229-248 | with every call served, nothing to promote and every Cluster repointable it succeeds, decided or not |
| Convergence.SplitBrainHeals | internal/controller/hacluster_controller.go:229-238 | from any state in which sites claim against each other, one Reconcile with its calls served succeeds, keeps the recorded primary, and leaves it the only possible writer |
| Convergence.ReconcileEndsSplitBrain | internal/controller/hacluster_controller.go:199-236 | from any state, after a successful Reconcile whose recorded primary has an endpoint every other site it got through to is a fenced stray or a replica of that endpoint, and no writer |
| Convergence.ReconcileEstablishesSingleWriter | internal/controller/hacluster_controller.go:402-490 | such a Reconcile that gets through to every site leaves the recorded primary the only possible writer |
| Convergence.SplitBrainEndsForGood | internal/controller/hacluster_controller.go:159-249 | after it, over every run without a stranded promotion, that stays so |
| Convergence.FailoverHappens | internal/controller/hacluster_controller.go:297-348 | an outage of as many Reconciles as the threshold asks for, with the way clear, ends in a promotion that is decided, recorded and in force |
| ClientCache.CacheKeyInjective | internal/remoteclient/remoteclient.go:173-175 | the key determines the reference when namespaces hold no '/' and names no '#' |
| ClientCache.CacheKeyCollides | internal/remoteclient/remoteclient.go:173-175 | every reference with a stray separator shares its key with another one |
| ClientCache.CacheKeyIsOwnExactly | internal/remoteclient/remoteclient.go:173-175 | a reference shares its key with no other iff it has no stray separator |
| ClientCache.Cache.GetOrCreate | internal/remoteclient/remoteclient.go:79-116 | a call that read the Secret returns what its own version builds, unless a colliding reference left an entry of that version; otherwise the cached client, if any; entries stay faithful |
| ClientCache.UninterruptedCall | internal/remoteclient/remoteclient.go:79-116 | a call that nothing interrupts is the sequential one, the fallback on the cached client included |
| ClientCache.InvalidatedIsNotServed | internal/remoteclient/remoteclient.go:118-125 | after an invalidation a call that cannot read its Secret has no client to fall back on; other entries stay |
| ClientCache.Cache.Invalidate | internal/remoteclient/remoteclient.go:121-125 | removes that entry only |
| ClientCache.CacheIsTransparent | internal/remoteclient/remoteclient.go:45-125 | in every interleaving of calls and invalidations between critical sections, entries and results are what their own versions build, for references that do not collide |
| ClientCache.TransparentExactly | internal/remoteclient/remoteclient.go:45-125 | that holds for all contents and interleavings iff no two references in use collide |
| Lsn.ParseAccepts | internal/postgres/probe.go:108-122 | every pair of 32-bit hex words is accepted with value high * 2^32 + low below 2^64 |
| Lsn.ParseAcceptsOnly | internal/postgres/probe.go:108-122 | nothing else is accepted |
| Lsn.DigitExactly | internal/postgres/probe.go:113-120 | the digits are 0-9, A-F and a-f, with their values, and no others |
| Lsn.Join | internal/postgres/probe.go:121-121 | the uint64 computation does not wrap |
| Lsn.ParseOrders | internal/postgres/probe.go:106-122 | values order as (high, low) |
| Lsn.RenderThenParse | internal/postgres/probe.go:106-122 | parsing inverts the rendering of every 64-bit position, in upper or lower case, low word padded to any width |
| Metrics.PublishedRowsForgetThePast | internal/controller/hacluster_controller.go:832-879 | after a pass the rows of its sites depend on that pass's observations alone; other rows are untouched |
| Metrics.LagIsDistanceBehind | internal/controller/hacluster_controller.go:838-864 | a byte lag is max(0, primary - site), present iff both positions are known |
| Metrics.OnePrimaryGauge | internal/controller/hacluster_controller.go:848-850 | the primary gauge is 1 for the current primary and 0 for every other site; reachability, readiness, lag and position are what was observed |
| Metrics.OneSeriesOverRuns | internal/metrics/metrics.go:193-214 | over every sequence of publications at most one lsn series per site |
| Metrics.Collectors.SetSite | internal/metrics/metrics.go:147-151 | the three site gauges, that label only |
| Metrics.Collectors.SetReplicaLag | internal/metrics/metrics.go:154-162 | sets the replay lag gauge of that label, or deletes it |
| Metrics.Collectors.SetSiteCurrentLSNBytes | internal/metrics/metrics.go:183-191 | sets the WAL position gauge of that label, or deletes it |
| Metrics.Collectors.SetSiteLSNInfo | internal/metrics/metrics.go:197-214 | leaves the site exactly the given series |
| Metrics.Collectors.PublishMetrics | internal/controller/hacluster_controller.go:832-879 | the code publishes exactly that board and the split-brain gauge |

## Assumptions

- Site names are non-empty and unique where `ValidNames` or `UniqueNames` is required
  (api/v1alpha1/hacluster_types.go:170-174); the observation buffer lists the declared
  primary and then the replicas in spec order.
- For single-writer theorems, a fenced Cluster has no ready instance when a Reconcile
  starts (`Quiet`), and between Reconciles the environment makes no new writer.
- For `Pacing.PromotionsAreSpreadOut`, clock readings do not decrease along the run.
- For `Convergence.FailoverHappens`, the outage is seen by consecutive Reconciles of one
  operator process whose calls are served (`Clear`, `Undisturbed`).
- A probe read that is not served, for whatever reason, counts as unreachable.
- A resourceVersion identifies one content of a Secret, and a kubeconfig builds one
  client.

## Left out

- The first read of the HACluster (internal/controller/hacluster_controller.go:162-165): a Reconcile whose read fails does nothing.
- Stale reads of the HACluster from the manager's cache, and leader election.
- Environment changes inside a Reconcile other than the deletion of an object a call is about to touch.
- The SQL connection, its connection string and the Secrets it reads: the answer of the query is an input, parsed as the prober parses it.
- Available, SplitBrain and Degraded conditions, events, log and condition messages, and the per-site status list: no hard property.
- Requeue periods: they only pace the calls, and the theorems hold for any pace.
- Lag in milliseconds and float64 rounding of gauges above 2^53: gauges are exact numbers.
- Failover counters and the duration histogram: plain increments.
- PutForTest (internal/remoteclient/remoteclient.go:131-135) breaks the cache invariant on purpose.
- Malformed documents other than a non-boolean `spec.replica.enabled` and a non-object external cluster.
- What CNPG, PostgreSQL and Cilium do after a document changes.
