/** What Reconciles reach: an end to split-brain, and an automatic failover in time. */
module Convergence {
  import opened Objects
  import opened HACluster
  import opened Promotion
  import opened Observation
  import opened Failover
  import opened Topology
  import opened Controller
  import opened Safety
  import opened Runs
  import opened Pacing

  // ---- The end of a split-brain ----

  /** The topology pass gets through to the `i`-th site. */
  predicate Reaches(spec: Spec, i: nat, fates: Fates)
    requires i < |SiteSpecs(spec)|
  {
    Resolves(spec, SiteSpecs(spec)[i].name, fates(TopologyClient(i))) && fates(TopologyProbe(i)) == Go
  }

  /** A Reconcile that succeeds has saved its primary and completed a pass for it. */
  lemma {:induction false} SuccessMeansPass(
      spec: Spec, prior: string, all: seq<Obs>, decided: string, ph: Phase, input: Inputs)
    requires Decided(spec, prior, all, decided, ph, input).ok
    ensures var o := Decided(spec, prior, all, decided, ph, input); var primary := o.hub.status.current;
      primary == (if decided != "" then decided else prior)
      && Pass(spec, all, primary, ph.store, input.fates) == (o.store, |all|)
  {
  }

  /** The federation the handlers leave to the topology pass. */
  function HandedOn(spec: Spec, a: Option<Attempt>, sites: Sites, f: Fates): Sites {
    if a.None? then sites else RunPromotion(spec, a.value.former, a.value.target, Store(sites, []), f).0.sites
  }

  lemma {:induction false} DecidedSucceedsExactly(
      spec: Spec, prior: string, all: seq<Obs>, decided: string, ph: Phase, input: Inputs)
    requires UniqueNames(all)
    ensures var o := Decided(spec, prior, all, decided, ph, input); var primary := o.hub.status.current;
      o.ok <==> && !ph.failed && input.fates(StatusUpdate) == Go
                && (primary != "" && Endpoint(spec, primary) != "" ==>
                      forall j :: 0 <= j < |all| ==>
                        Passes(spec, all, primary, Endpoint(spec, primary), j, ph.store.sites, input.fates))
  {
    var primary := if decided != "" then decided else prior;
    if primary != "" && Endpoint(spec, primary) != "" {
      PassStopsExactly(spec, all, primary, Endpoint(spec, primary), 0, ph.store, input.fates);
    }
  }

  /** Exactly when a Reconcile succeeds: an annotation found is cleared, a promotion
      attempted goes through, the status is saved, and, if the primary it then records
      has an endpoint, every other site the pass gets through to yields. */
  lemma {:induction false} ReconcileSucceedsExactly(spec: Spec, key: Key, w: World, input: Inputs)
    requires ValidNames(spec)
    ensures var o := Reconcile(spec, key, w, input); var primary := o.hub.status.current;
      var a := AttemptOf(spec, key, w, Observe(spec, w.sites, input), input);
      var sites := HandedOn(spec, a, w.sites, input.fates);
      o.ok <==> && (w.hub.promote.Some? ==> input.fates(ClearPatch) == Go)
                && (a.Some? ==> Commits(spec, a.value, w.sites, input.fates) && Routes(a.value, w.sites, input.fates))
                && input.fates(StatusUpdate) == Go
                && (primary != "" && Endpoint(spec, primary) != "" ==>
                      forall j :: 0 <= j < |o.all| ==>
                        Passes(spec, o.all, primary, Endpoint(spec, primary), j, sites, input.fates))
  {
    var seen := Observe(spec, w.sites, input);
    var ph := Handle(spec, key, w, seen, input);
    ObservedNamesAreUnique(spec, w.sites, input);
    HandlersSucceedExactly(spec, key, w, input);
    var all := ApplyEffect(seen, ph.effect);
    DecidedSucceedsExactly(spec, w.hub.status.current, all, Decide(all), ph, input);
    DecidedShape(spec, w.hub.status.current, all, Decide(all), ph, input);
  }

  lemma {:induction false} HandlersSucceedExactly(spec: Spec, key: Key, w: World, input: Inputs)
    ensures var seen := Observe(spec, w.sites, input); var ph := Handle(spec, key, w, seen, input);
      var a := AttemptOf(spec, key, w, seen, input);
      && ph.hub.status == w.hub.status
      && ph.store.sites == HandedOn(spec, a, w.sites, input.fates)
      && (!ph.failed <==>
            && (w.hub.promote.Some? ==> input.fates(ClearPatch) == Go)
            && (a.Some? ==> Commits(spec, a.value, w.sites, input.fates) && Routes(a.value, w.sites, input.fates)))
  {
    var seen := Observe(spec, w.sites, input);
    HandlersMakeOneAttempt(spec, key, w, seen, input);
    match AttemptOf(spec, key, w, seen, input) {
      case None =>
      case Some(a) =>
        var _ := AttemptIsObserved(spec, key, w, input, a);
        PromotionExactly(spec, a, w.sites, input.fates);
    }
  }

  /** The site is no writer, and what it holds follows the endpoint. */
  ghost predicate Subdued(rejoin: RejoinPolicy, sites: Sites, n: string, endpoint: string) {
    !WriterAt(sites, n) && (At(sites, n).cluster.Some? ==> Follows(rejoin, At(sites, n).cluster.value, endpoint))
  }

  lemma {:induction false} PassSubdues(spec: Spec, all: seq<Obs>, primary: string, st: Store, fates: Fates, i: nat)
    requires UniqueNames(all) && primary != "" && Endpoint(spec, primary) != ""
    requires Pass(spec, all, primary, st, fates).1 == |all|
    requires i < |all| == |SiteSpecs(spec)| && all[i].name == SiteSpecs(spec)[i].name != primary
    requires Reaches(spec, i, fates)
    ensures var after := Pass(spec, all, primary, st, fates).0.sites;
            Subdued(spec.failover.rejoin, after, all[i].name, Endpoint(spec, primary))
  {
    PassEndsSplitBrain(spec, all, primary, st, fates);
    PassKeepsClusters(spec, all, primary, Endpoint(spec, primary), 0, st, fates);
  }

  /** One Reconcile ends any split-brain: from any state whatever, if it succeeds and the
      primary it records has an endpoint, then every other site its topology pass got
      through to is a fenced stray or a replica of that endpoint, and no writer. */
  lemma {:induction false} ReconcileEndsSplitBrain(spec: Spec, key: Key, w: World, input: Inputs, i: nat)
    requires ValidNames(spec) && i < |SiteSpecs(spec)| && Reaches(spec, i, input.fates)
    requires var o := Reconcile(spec, key, w, input);
             && o.ok && o.hub.status.current !in {"", SiteSpecs(spec)[i].name}
             && Endpoint(spec, o.hub.status.current) != ""
    ensures var o := Reconcile(spec, key, w, input);
            Subdued(spec.failover.rejoin, o.store.sites, SiteSpecs(spec)[i].name, Endpoint(spec, o.hub.status.current))
  {
    var seen := Observe(spec, w.sites, input);
    ObservedNamesAreUnique(spec, w.sites, input);
    ConcludeEndsSplitBrain(spec, w.hub.status.current, seen, Handle(spec, key, w, seen, input), input, i);
  }

  lemma {:induction false} ConcludeEndsSplitBrain(
      spec: Spec, prior: string, seen: seq<Obs>, ph: Phase, input: Inputs, i: nat)
    requires UniqueNames(seen) && i < |seen| == |SiteSpecs(spec)| && seen[i].name == SiteSpecs(spec)[i].name
    requires Reaches(spec, i, input.fates)
    requires var o := Conclude(spec, prior, seen, ph, input);
             && o.ok && o.hub.status.current !in {"", seen[i].name}
             && Endpoint(spec, o.hub.status.current) != ""
    ensures var o := Conclude(spec, prior, seen, ph, input);
            Subdued(spec.failover.rejoin, o.store.sites, seen[i].name, Endpoint(spec, o.hub.status.current))
  {
    var all := ApplyEffect(seen, ph.effect);
    SuccessMeansPass(spec, prior, all, Decide(all), ph, input);
    PassSubdues(spec, all, Conclude(spec, prior, seen, ph, input).hub.status.current, ph.store, input.fates, i);
  }

  lemma {:induction false} PromotionCreatesNothing(
      spec: Spec, former: string, target: string, s0: Sites, f: Fates, n: string)
    ensures At(RunPromotion(spec, former, target, Store(s0, []), f).0.sites, n).cluster.Some? ==> n in s0
  {
    var s1, s2, s3 := PromotionStages(spec, former, target, Store(s0, []), f);
    assert s2.sites.Keys == s0.Keys;
  }

  lemma {:induction false} ReconcileCreatesNothing(spec: Spec, key: Key, w: World, input: Inputs, n: string)
    ensures At(Reconcile(spec, key, w, input).store.sites, n).cluster.Some? ==> n in w.sites
  {
    var seen := Observe(spec, w.sites, input);
    var ph := Handle(spec, key, w, seen, input);
    HandlersMakeOneAttempt(spec, key, w, seen, input);
    match AttemptOf(spec, key, w, seen, input) {
      case None =>
      case Some(a) => PromotionCreatesNothing(spec, a.former, a.target, w.sites, input.fates, n);
    }
    var primary, all := ConcludeShape(spec, w.hub.status.current, seen, ph, input);
    PassKeepsClusters(spec, all, primary, Endpoint(spec, primary), 0, ph.store, input.fates);
  }

  /** From any state, with any number of writers: a Reconcile that succeeds, gets through
      to every site and records a primary with an endpoint leaves nobody but that primary
      able to accept writes -- the invariant that runs then keep. */
  lemma {:induction false} ReconcileEstablishesSingleWriter(spec: Spec, key: Key, w: World, input: Inputs)
    requires ValidNames(spec) && forall n :: n in w.sites ==> Declared(spec, n)
    requires forall i: nat :: i < |SiteSpecs(spec)| ==> Reaches(spec, i, input.fates)
    requires var o := Reconcile(spec, key, w, input);
             o.ok && o.hub.status.current != "" && Endpoint(spec, o.hub.status.current) != ""
    ensures RecordedWriterOnly(spec, EndWorld(Reconcile(spec, key, w, input)))
  {
    var o := Reconcile(spec, key, w, input);
    forall n | WriterAt(o.store.sites, n)
      ensures n == o.hub.status.current
    {
      ReconcileCreatesNothing(spec, key, w, input, n);
      var i := DeclaredAt(spec, n);
      if n != o.hub.status.current {
        ReconcileEndsSplitBrain(spec, key, w, input, i);
      }
    }
  }

  /** With every call served, nothing to promote and every Cluster repointable, a
      Reconcile succeeds, whether or not it can tell who the primary is. */
  lemma {:induction false} ServedReconcileSucceeds(spec: Spec, key: Key, w: World, input: Inputs)
    requires ValidNames(spec) && forall s :: input.fates(s) == Go
    requires AttemptOf(spec, key, w, Observe(spec, w.sites, input), input).None?
    requires forall n :: At(w.sites, n).cluster.Some? ==> Repointable(At(w.sites, n).cluster.value)
    ensures Reconcile(spec, key, w, input).ok
  {
    ReconcileSucceedsExactly(spec, key, w, input);
  }

  /** A split-brain heals by itself: whatever the sites hold and however many of them
      claim, one Reconcile whose calls are served, with a recorded primary and an
      endpoint for every site, leaves the primary it records the only possible writer. */
  lemma {:induction false} SplitBrainHeals(spec: Spec, key: Key, w: World, input: Inputs)
    requires ValidNames(spec) && (forall s :: input.fates(s) == Go) && TwoClaims(Observe(spec, w.sites, input))
    requires forall n :: n in w.sites ==> Declared(spec, n)
    requires forall n :: At(w.sites, n).cluster.Some? ==> Repointable(At(w.sites, n).cluster.value)
    requires Declared(spec, w.hub.status.current) && forall n :: Declared(spec, n) ==> Endpoint(spec, n) != ""
    ensures Reconcile(spec, key, w, input).ok
    ensures Reconcile(spec, key, w, input).hub.status.current == w.hub.status.current
    ensures RecordedWriterOnly(spec, EndWorld(Reconcile(spec, key, w, input)))
  {
    var seen := Observe(spec, w.sites, input);
    SplitBrainSuspends(spec, key, w, seen, input);
    ServedReconcileSucceeds(spec, key, w, input);
    SplitBrainKeepsRecord(spec, key, w, input);
    var _ := DeclaredAt(spec, w.hub.status.current);
    EverySiteIsReached(spec, input.fates);
    ReconcileEstablishesSingleWriter(spec, key, w, input);
  }

  lemma {:induction false} EverySiteIsReached(spec: Spec, fates: Fates)
    requires forall s :: fates(s) == Go
    ensures forall i: nat :: i < |SiteSpecs(spec)| ==> Reaches(spec, i, fates)
  {
  }

  /** While two sites claim, the recorded primary stays what it was. */
  lemma {:induction false} SplitBrainKeepsRecord(spec: Spec, key: Key, w: World, input: Inputs)
    requires TwoClaims(Observe(spec, w.sites, input))
    ensures Reconcile(spec, key, w, input).hub.status.current == w.hub.status.current
  {
    var seen := Observe(spec, w.sites, input);
    SplitBrainSuspends(spec, key, w, seen, input);
    SplitBrainExactly(seen);
    HandlersMakeOneAttempt(spec, key, w, seen, input);
    var ph := Handle(spec, key, w, seen, input);
    var _, _ := ConcludeShape(spec, w.hub.status.current, seen, ph, input);
  }

  lemma {:induction false} DeclaredAt(spec: Spec, n: string) returns (i: nat)
    requires Declared(spec, n)
    ensures i < |SiteSpecs(spec)| && SiteSpecs(spec)[i].name == n
  {
    if n == spec.primary.name {
      i := 0;
    } else {
      var j :| 0 <= j < |spec.replicas| && spec.replicas[j].name == n;
      i := j + 1;
    }
  }

  /** A Reconcile that succeeds, gets through to every site, and records a primary with
      an endpoint, where no site but the declared ones holds anything. */
  ghost predicate Stabilises(key: Key, t: Tick) {
    && (forall n :: n in t.w.sites ==> Declared(t.spec, n))
    && (forall j: nat :: j < |SiteSpecs(t.spec)| ==> Reaches(t.spec, j, t.input.fates))
    && Ended(key, t).ok && Ended(key, t).hub.status.current != ""
    && Endpoint(t.spec, Ended(key, t).hub.status.current) != ""
  }

  lemma {:induction false} StabilisedNext(key: Key, t: Tick, t': Tick)
    requires ValidNames(t.spec) && Stabilises(key, t) && SafeGap(key, t, t')
    ensures RecordedWriterOnly(t'.spec, t'.w)
  {
    ReconcileEstablishesSingleWriter(t.spec, key, t.w, t.input);
    GapKeepsRecordedWriter(key, t, t');
  }

  /** Self-stabilisation: once one such Reconcile has run, a run that starts from any
      state has the recorded primary as its only writer for good. */
  lemma {:induction false} SplitBrainEndsForGood(key: Key, run: seq<Tick>, i: nat)
    requires SafeRun(key, run) && 0 < i < |run| && Stabilises(key, run[0])
    requires forall j :: 0 < j < |run| ==> !Strands(run[j].spec, key, run[j].w, run[j].input)
    ensures RecordedWriterOnly(run[i].spec, EndWorld(Ended(key, run[i])))
    ensures OneWriterThroughout(Ended(key, run[i]).store)
  {
    assert SafeGap(key, run[0], run[0 + 1]);
    StabilisedNext(key, run[0], run[1]);
    SingleWriterOverRuns(key, run, 1, i);
  }

  // ---- An automatic failover happens ----

  function EventOf(key: Key, t: Tick): Event {
    Reconciled(key, t.spec, t.w.sites, t.w.hub, t.input)
  }

  /** Nothing stands in the way of a failover: calls are served, the recorded primary is
      a declared site, nobody claims to be primary, some replica is eligible, and the
      eligible ones have a `-rw` Service. */
  ghost predicate Clear(t: Tick) {
    var seen := Observe(t.spec, t.w.sites, t.input);
    var former := Recorded(t.spec, t.w.hub.status);
    && ValidNames(t.spec) && Declared(t.spec, former)
    && (forall s :: t.input.fates(s) == Go)
    && (forall j :: 0 <= j < |seen| ==> !Claims(seen[j]))
    && (exists i :: 0 < i < |seen| && Candidate(seen[i], former))
    && (forall i :: 0 < i < |seen| && Candidate(seen[i], former) ==> At(t.w.sites, seen[i].name).service.Some?)
  }

  /** Neither the status nor the count of this HACluster changes in between. */
  ghost predicate Undisturbed(key: Key, t: Tick, t': Tick) {
    StatusPersists(key, t, t') && Count(t'.w.counters, key) == Count(Ended(key, t).counters, key)
  }

  /** An outage: Reconciles that all find the primary failed, with the way clear. */
  ghost predicate Outage(key: Key, run: seq<Tick>) {
    && (forall i :: 0 <= i < |run| ==> Failure(EventOf(key, run[i]), key) && Clear(run[i]))
    && (forall i, j :: 0 <= i && j == i + 1 < |run| ==> Undisturbed(key, run[i], run[j]))
  }

  /** The promotion of `target` is in force: decided, recorded and in primary mode. */
  ghost predicate Installs(key: Key, t: Tick, target: string) {
    var o := Ended(key, t);
    && Records(key, t) && o.effect == Effect(Recorded(t.spec, t.w.hub.status), target)
    && o.hub.status.current == target && o.decided == target && PrimaryAt(o.store.sites, target)
  }

  /** A call without an attempt counts one more failure. */
  lemma {:induction false} QuietFailureCounts(key: Key, t: Tick)
    requires Failure(EventOf(key, t), key) && !AttemptsAutomatically(key, t)
    ensures Count(Ended(key, t).counters, key) == Count(t.w.counters, key) + 1
  {
    ReconcileCounts(t.spec, key, t.w, t.input);
    NoAttemptNoEffect(t.spec, key, t.w, t.input);
  }

  lemma {:induction false} NoAttemptNoEffect(spec: Spec, key: Key, w: World, input: Inputs)
    requires AttemptOf(spec, key, w, Observe(spec, w.sites, input), input).None?
    ensures Reconcile(spec, key, w, input).effect == NO_EFFECT
  {
    var seen := Observe(spec, w.sites, input);
    HandlersMakeOneAttempt(spec, key, w, seen, input);
    var _, _ := ConcludeShape(spec, w.hub.status.current, seen, Handle(spec, key, w, seen, input), input);
  }

  lemma {:induction false} ClearAttemptCompletes(key: Key, t: Tick, a: Attempt)
    requires Clear(t) && !a.manual
    requires AttemptOf(t.spec, key, t.w, Observe(t.spec, t.w.sites, t.input), t.input) == Some(a)
    ensures a.former == Recorded(t.spec, t.w.hub.status) && Completed(t.spec, a, t.w, t.input)
  {
    var i := TargetIsCandidate(t.spec, key, t.w, t.input, a);
    assert At(t.w.sites, a.target).service.Some?;
    var _ := DeclaredAt(t.spec, a.former);
    ServedPromotionCompletes(t.spec, a, t.w.sites, t.input.fates);
  }

  lemma {:induction false} TargetIsCandidate(spec: Spec, key: Key, w: World, input: Inputs, a: Attempt) returns (i: nat)
    requires AttemptOf(spec, key, w, Observe(spec, w.sites, input), input) == Some(a) && !a.manual
    ensures a.former == Recorded(spec, w.hub.status) && 0 < i < |SiteSpecs(spec)|
    ensures var o := Observe(spec, w.sites, input)[i]; o.name == a.target && Candidate(o, a.former)
  {
    var seen := Observe(spec, w.sites, input);
    i := AutomaticTarget(spec, w.hub.status, Count(w.counters, key), seen, input.check).value + 1;
    assert seen[1..][i - 1] == seen[i] && SiteSpecs(spec)[i].name == a.target;
  }

  /** The topology pass leaves the site just decided alone. */
  lemma {:induction false} DecidedIsLeftAlone(
      spec: Spec, prior: string, all: seq<Obs>, decided: string, ph: Phase, input: Inputs)
    requires decided != ""
    ensures At(Decided(spec, prior, all, decided, ph, input).store.sites, decided) == At(ph.store.sites, decided)
  {
    PassFrame(spec, all, decided, Endpoint(spec, decided), 0, ph.store, input.fates);
  }

  /** An attempt with the way clear goes through. */
  lemma {:induction false} ClearAttemptInstalls(key: Key, t: Tick) returns (target: string)
    requires Clear(t) && AttemptsAutomatically(key, t)
    ensures Installs(key, t, target)
  {
    var seen := Observe(t.spec, t.w.sites, t.input);
    var a := AttemptOf(t.spec, key, t.w, seen, t.input).value;
    target := a.target;
    ClearAttemptCompletes(key, t, a);
    PromotionIsPersistedExactly(t.spec, key, t.w, t.input, a);
    var _ := AttemptIsObserved(t.spec, key, t.w, t.input, a);
    PromotionExactly(t.spec, a, t.w.sites, t.input.fates);
    HandlersMakeOneAttempt(t.spec, key, t.w, seen, t.input);
    var ph := Handle(t.spec, key, t.w, seen, t.input);
    var _, _ := ConcludeShape(t.spec, t.w.hub.status.current, seen, ph, t.input);
    var all := ApplyEffect(seen, ph.effect);
    DecidedIsLeftAlone(t.spec, t.w.hub.status.current, all, Decide(all), ph, t.input);
  }

  /** With the way clear, a failure without an attempt is one below the threshold. */
  lemma {:induction false} QuietTickWaits(key: Key, t: Tick)
    requires Failure(EventOf(key, t), key) && Clear(t) && !AttemptsAutomatically(key, t)
    ensures Count(Ended(key, t).counters, key) == Count(t.w.counters, key) + 1 < EffectiveThreshold(t.spec.failover)
  {
    QuietFailureCounts(key, t);
    AutomaticAttemptExactly(t.spec, key, t.w, Observe(t.spec, t.w.sites, t.input), t.input);
  }

  lemma {:induction false} AttemptComesUp(key: Key, run: seq<Tick>, i: nat) returns (k: nat)
    requires Outage(key, run) && i < |run| && Count(run[i].w.counters, key) >= i
    requires forall j :: 0 <= j < |run| ==> EffectiveThreshold(run[j].spec.failover) <= |run|
    ensures k < |run| && AttemptsAutomatically(key, run[k])
    decreases |run| - i
  {
    if AttemptsAutomatically(key, run[i]) {
      return i;
    }
    QuietTickWaits(key, run[i]);
    assert i + 1 < |run|;
    assert Undisturbed(key, run[i], run[i + 1]);
    k := AttemptComesUp(key, run, i + 1);
  }

  /** Progress: an outage that lasts as many Reconciles as the threshold asks for ends
      in an automatic failover, decided, recorded and in force. */
  lemma {:induction false} FailoverHappens(key: Key, run: seq<Tick>) returns (k: nat, target: string)
    requires Outage(key, run) && run != []
    requires forall j :: 0 <= j < |run| ==> EffectiveThreshold(run[j].spec.failover) <= |run|
    ensures k < |run| && Installs(key, run[k], target)
  {
    k := AttemptComesUp(key, run, 0);
    target := ClearAttemptInstalls(key, run[k]);
  }
}
