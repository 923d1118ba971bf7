/** Theorems about whole Reconciles and whole runs of one HACluster. */
module Runs {
  import opened Objects
  import opened HACluster
  import opened Promotion
  import opened Observation
  import opened Failover
  import opened Topology
  import opened Controller
  import opened Safety

  // ---- Promotions within one Reconcile ----

  lemma {:induction false} PassTurnsNobody(
      s0: Sites, spec: Spec, all: seq<Obs>, primary: string, endpoint: string, i: nat, st: Store, fates: Fates)
    requires i <= |all| && Linked(s0, st)
    ensures var r := PassFrom(spec, all, primary, endpoint, i, st, fates);
      && Linked(s0, r.0) && st.trace <= r.0.trace
      && (forall k: nat, n :: TurnAt(s0, r.0.trace, k, n) ==> TurnAt(s0, st.trace, k, n))
    decreases |all| - i
  {
    if i < |all| {
      if !Visits(spec, all, primary, i, st.sites, fates) {
        PassTurnsNobody(s0, spec, all, primary, endpoint, i + 1, st, fates);
      } else {
        var n := all[i].name;
        var e := Wanted(spec.failover.rejoin, At(st.sites, n).cluster.value, endpoint);
        var r := VisitSite(spec, all, endpoint, i, st, fates);
        StepIsCalm(e, n, st, fates(TopologyGet(i)), fates(TopologyUpdate(i)));
        MoveTurns(s0, st, r.0, n);
        if r.1.Ok? {
          PassTurnsNobody(s0, spec, all, primary, endpoint, i + 1, r.0, fates);
        }
      }
    }
  }

  lemma {:induction false} ConcludeTurnsNobody(
      s0: Sites, spec: Spec, prior: string, seen: seq<Obs>, ph: Phase, input: Inputs)
    requires Linked(s0, ph.store) && ph.hub.status.current == prior
    ensures var o := Conclude(spec, prior, seen, ph, input);
      && Linked(s0, o.store) && ph.store.trace <= o.store.trace
      && (forall k: nat, n :: TurnAt(s0, o.store.trace, k, n) ==> TurnAt(s0, ph.store.trace, k, n))
  {
    var primary, all := ConcludeShape(spec, prior, seen, ph, input);
    PassTurnsNobody(s0, spec, all, primary, Endpoint(spec, primary), 0, ph.store, input.fates);
  }

  /** In any one Reconcile, whatever fails, at most one site turns from replica to
      primary; it is the target of the attempt, and the site it replaces is fully
      fenced or gone before that happens. */
  lemma {:induction false} OnePromotionBehindAFence(spec: Spec, key: Key, w: World, input: Inputs)
    ensures var trace := Reconcile(spec, key, w, input).store.trace;
      var attempt := AttemptOf(spec, key, w, Observe(spec, w.sites, input), input);
      && (forall i: nat, n :: TurnAt(w.sites, trace, i, n) ==>
            && attempt.Some? && n == attempt.value.target != attempt.value.former
            && FencedOrGone(Before(w.sites, trace, i), attempt.value.former))
      && (forall i: nat, j: nat, m, n :: TurnAt(w.sites, trace, i, m) && TurnAt(w.sites, trace, j, n) ==>
            i == j && m == n)
  {
    var seen := Observe(spec, w.sites, input);
    var ph := Handle(spec, key, w, seen, input);
    HandlersMakeOneAttempt(spec, key, w, seen, input);
    match AttemptOf(spec, key, w, seen, input) {
      case None =>
      case Some(a) => FenceBeforePromote(spec, a.former, a.target, w.sites, input.fates);
    }
    ConcludeTurnsNobody(w.sites, spec, w.hub.status.current, seen, ph, input);
  }

  // ---- What a promotion leaves in the status ----

  /** The promotion goes through and, if manual, its annotation is cleared. */
  predicate Completed(spec: Spec, a: Attempt, w: World, input: Inputs) {
    && Commits(spec, a, w.sites, input.fates) && Routes(a, w.sites, input.fates)
    && (a.manual ==> input.fates(ClearPatch) == Go)
  }

  lemma {:induction false} ConcludeRecords(spec: Spec, prior: string, seen: seq<Obs>, ph: Phase, input: Inputs)
    requires Saves(input)
    ensures var o := Conclude(spec, prior, seen, ph, input);
      o.all == ApplyEffect(seen, ph.effect) && o.decided == Decide(o.all)
      && o.hub.status == NextStatus(ph.mem, prior, o.decided)
  {
  }

  /** A completed promotion is decided, reported without split-brain and persisted
      in the same Reconcile exactly when no site other than the demoted one was
      observed as a healthy primary; otherwise the previous primary stays recorded. */
  lemma {:induction false} PromotionIsPersistedExactly(spec: Spec, key: Key, w: World, input: Inputs, a: Attempt)
    requires ValidNames(spec) && Saves(input)
    requires AttemptOf(spec, key, w, Observe(spec, w.sites, input), input) == Some(a) && Completed(spec, a, w, input)
    ensures var seen := Observe(spec, w.sites, input); var o := Reconcile(spec, key, w, input);
      var alone := forall j :: 0 <= j < |seen| && Claims(seen[j]) ==> seen[j].name == a.former;
      && (o.hub.status.current == a.target <==> alone)
      && (alone ==> o.decided == a.target && !SplitBrain(o.all))
      && (!alone ==> o.hub.status.current == w.hub.status.current)
  {
    var seen := Observe(spec, w.sites, input);
    ObservedNamesAreUnique(spec, w.sites, input);
    HandlersMakeOneAttempt(spec, key, w, seen, input);
    var _ := AttemptIsObserved(spec, key, w, input, a);
    AttemptTargetsReplica(spec, key, w, input, a);
    PromotionExactly(spec, a, w.sites, input.fates);
    var ph := Handle(spec, key, w, seen, input);
    EffectConclude(spec, w.hub.status.current, seen, ph, input, Effect(a.former, a.target));
  }

  /** The end of a Reconcile that mirrors the effect of a promotion. */
  lemma {:induction false} EffectConclude(
      spec: Spec, prior: string, seen: seq<Obs>, ph: Phase, input: Inputs, e: Effect)
    requires UniqueNames(seen) && Saves(input) && ph.effect == e
    requires e.promoted != "" && e.promoted != e.demoted && prior != e.promoted
    requires var t := Find(seen, e.promoted); t < |seen| && seen[t].reachable && seen[t].ready && !seen[t].primary
    ensures var o := Conclude(spec, prior, seen, ph, input);
      var alone := forall j :: 0 <= j < |seen| && Claims(seen[j]) ==> seen[j].name == e.demoted;
      && (o.hub.status.current == e.promoted <==> alone)
      && (alone ==> o.decided == e.promoted && !SplitBrain(o.all))
      && (!alone ==> o.hub.status.current == prior)
  {
    PromotionIsReflected(seen, e);
    SomebodyElseClaims(seen, e);
    ConcludeRecords(spec, prior, seen, ph, input);
  }

  /** If another site claims as well, nothing is decided. */
  lemma {:induction false} SomebodyElseClaims(all: seq<Obs>, e: Effect)
    requires UniqueNames(all) && e.promoted != "" && e.promoted != e.demoted
    requires var t := Find(all, e.promoted); t < |all| && all[t].reachable && all[t].ready && !all[t].primary
    ensures (exists j :: 0 <= j < |all| && Claims(all[j]) && all[j].name != e.demoted) ==>
              Decide(ApplyEffect(all, e)) == ""
  {
    var all' := ApplyEffect(all, e);
    if j :| 0 <= j < |all| && Claims(all[j]) && all[j].name != e.demoted {
      var t := Find(all, e.promoted);
      ClaimsAfterEffect(all, e, j);
      ClaimsAfterEffect(all, e, t);
      if |Claimants(all')| == 1 {
        var i := DecidedHasWitness(all');
      }
    }
  }

  /** The FailoverInProgress condition a saved Reconcile leaves: after an attempt it
      is raised exactly when a manual promotion went through but its annotation
      could not be cleared; without an attempt it stays as it was, so a flag raised
      that way is not lowered before the next attempt. */
  lemma {:induction false} ProgressFlagExactly(spec: Spec, key: Key, w: World, input: Inputs)
    requires Saves(input)
    ensures var flag := Reconcile(spec, key, w, input).hub.status.inProgress;
      match AttemptOf(spec, key, w, Observe(spec, w.sites, input), input)
      case None => flag == w.hub.status.inProgress
      case Some(a) =>
        flag <==> && a.manual && input.fates(ClearPatch) != Go
                  && Commits(spec, a, w.sites, input.fates) && Routes(a, w.sites, input.fates)
  {
    var seen := Observe(spec, w.sites, input);
    HandlersMakeOneAttempt(spec, key, w, seen, input);
    match AttemptOf(spec, key, w, seen, input) {
      case None =>
      case Some(a) =>
        var _ := AttemptIsObserved(spec, key, w, input, a);
        PromotionExactly(spec, a, w.sites, input.fates);
    }
    ConcludeRecords(spec, w.hub.status.current, seen, Handle(spec, key, w, seen, input), input);
  }

  /** What a Reconcile does to the annotation: it is gone afterwards exactly when it was
      not there, or the patch that clears it commits and no manual promotion failed. */
  lemma {:induction false} AnnotationExactly(spec: Spec, key: Key, w: World, input: Inputs)
    ensures var a := AttemptOf(spec, key, w, Observe(spec, w.sites, input), input);
      var done := a.Some? && a.value.manual ==>
        Commits(spec, a.value, w.sites, input.fates) && Routes(a.value, w.sites, input.fates);
      Reconcile(spec, key, w, input).hub.promote ==
        if input.fates(ClearPatch) in {Go, Lost} && done then None else w.hub.promote
  {
    var seen := Observe(spec, w.sites, input);
    HandlersClear(spec, key, w, seen, input);
    ConcludeKeepsAnnotation(spec, w.hub.status.current, seen, Handle(spec, key, w, seen, input), input);
    match AttemptOf(spec, key, w, seen, input) {
      case None =>
      case Some(a) =>
        var _ := AttemptIsObserved(spec, key, w, input, a);
        PromotionExactly(spec, a, w.sites, input.fates);
    }
  }

  lemma {:induction false} ConcludeKeepsAnnotation(spec: Spec, prior: string, seen: seq<Obs>, ph: Phase, input: Inputs)
    ensures Conclude(spec, prior, seen, ph, input).hub.promote == ph.hub.promote
  {
  }

  /** A stranded promotion heals: once its target is the only writer and is observed
      ready, a saved Reconcile that attempts nothing records it. */
  lemma {:induction false} ObservedWriterIsRecorded(spec: Spec, key: Key, w: World, input: Inputs, i: nat)
    requires ValidNames(spec) && Quiet(w.sites) && Saves(input) && i < |SiteSpecs(spec)|
    requires OnlyWriter(w.sites, SiteSpecs(spec)[i].name)
    requires Claims(Observe(spec, w.sites, input)[i])
    requires AttemptOf(spec, key, w, Observe(spec, w.sites, input), input).None?
    ensures Reconcile(spec, key, w, input).hub.status.current == SiteSpecs(spec)[i].name
    ensures RecordedWriterOnly(spec, EndWorld(Reconcile(spec, key, w, input)))
  {
    var seen := Observe(spec, w.sites, input);
    var ph := Handle(spec, key, w, seen, input);
    HandlersMakeOneAttempt(spec, key, w, seen, input);
    forall j | 0 <= j < |seen| && Claims(seen[j])
      ensures j == i
    {
      assert WriterAt(w.sites, SiteSpecs(spec)[j].name);
    }
    assert OnlyClaimant(seen, i);
    DecideExact(seen, i);
    ConcludeRecords(spec, w.hub.status.current, seen, ph, input);
    ConcludeMakesNoWriter(spec, w.hub.status.current, seen, ph, input);
  }

  // ---- Manual rejoin discards nothing ----

  /** No Cluster appears, and no primary becomes a replica. */
  ghost predicate PrimariesKept(s: Sites, s': Sites) {
    forall n :: At(s', n).cluster.Some? ==>
      At(s, n).cluster.Some? && (PrimaryAt(s, n) ==> PrimaryAt(s', n))
  }

  /** That holds of every single change, from `s0` to the present. */
  ghost predicate PrimariesKeptThroughout(s0: Sites, st: Store) {
    && Linked(s0, st)
    && forall i: nat :: i < |st.trace| ==> PrimariesKept(Before(s0, st.trace, i), st.trace[i])
  }

  lemma {:induction false} MoveKeepsPrimaries(s0: Sites, st: Store, st': Store, k: string)
    requires PrimariesKeptThroughout(s0, st) && OneMove(st, st', k) && PrimariesKept(st.sites, st'.sites)
    ensures PrimariesKeptThroughout(s0, st')
  {
    forall i: nat | i < |st'.trace|
      ensures PrimariesKept(Before(s0, st'.trace, i), st'.trace[i])
    {
      if i < |st.trace| {
        assert Before(s0, st'.trace, i) == Before(s0, st.trace, i) && st'.trace[i] == st.trace[i];
      } else {
        assert Before(s0, st'.trace, i) == st.sites;
      }
    }
  }

  lemma {:induction false} StepKeepsPrimaries(e: Edit, n: string, st: Store, get: Fate, update: Fate)
    requires e.Reconfigure? ==> !PrimaryAt(st.sites, n)
    ensures PrimariesKept(st.sites, Apply(e, n, st, get, update).0.sites)
  {
  }

  lemma {:induction false} FlipKeepsPrimaries(n: string, role: Role, st: Store, get: Fate, update: Fate)
    ensures PrimariesKept(st.sites, Flip(n, role, st, get, update).0.sites)
  {
  }

  lemma {:induction false} PromotionKeepsPrimaries(spec: Spec, former: string, target: string, s0: Sites, f: Fates)
    ensures PrimariesKeptThroughout(s0, RunPromotion(spec, former, target, Store(s0, []), f).0)
  {
    var st := Store(s0, []);
    var s1 := Apply(Fence, former, st, f(FenceGet), f(FenceUpdate));
    StepKeepsPrimaries(Fence, former, st, f(FenceGet), f(FenceUpdate));
    MoveKeepsPrimaries(s0, st, s1.0, former);
    var s2 := Flip(former, RoleRemote, s1.0, f(DrainGet), f(DrainUpdate));
    FlipKeepsPrimaries(former, RoleRemote, s1.0, f(DrainGet), f(DrainUpdate));
    MoveKeepsPrimaries(s0, s1.0, s2.0, former);
    var s3 := Apply(Promote, target, s2.0, f(PromoteGet), f(PromoteUpdate));
    StepKeepsPrimaries(Promote, target, s2.0, f(PromoteGet), f(PromoteUpdate));
    MoveKeepsPrimaries(s0, s2.0, s3.0, target);
    var s4 := Flip(target, RoleLocal, s3.0, f(RouteGet), f(RouteUpdate));
    FlipKeepsPrimaries(target, RoleLocal, s3.0, f(RouteGet), f(RouteUpdate));
    MoveKeepsPrimaries(s0, s3.0, s4.0, target);
  }

  lemma {:induction false} VisitKeepsPrimaries(
      s0: Sites, spec: Spec, all: seq<Obs>, endpoint: string, i: nat, st: Store, fates: Fates)
    requires i < |all| && spec.failover.rejoin != AutoReplica && PrimariesKeptThroughout(s0, st)
    requires At(st.sites, all[i].name).cluster.Some?
    ensures PrimariesKeptThroughout(s0, VisitSite(spec, all, endpoint, i, st, fates).0)
  {
    var n := all[i].name;
    var e := Wanted(spec.failover.rejoin, At(st.sites, n).cluster.value, endpoint);
    StepKeepsPrimaries(e, n, st, fates(TopologyGet(i)), fates(TopologyUpdate(i)));
    MoveKeepsPrimaries(s0, st, VisitSite(spec, all, endpoint, i, st, fates).0, n);
  }

  lemma {:induction false} PassKeepsPrimaries(
      s0: Sites, spec: Spec, all: seq<Obs>, primary: string, endpoint: string, i: nat, st: Store, fates: Fates)
    requires i <= |all| && spec.failover.rejoin != AutoReplica && PrimariesKeptThroughout(s0, st)
    ensures PrimariesKeptThroughout(s0, PassFrom(spec, all, primary, endpoint, i, st, fates).0)
    decreases |all| - i
  {
    if i < |all| {
      var next := st;
      if Visits(spec, all, primary, i, st.sites, fates) {
        var r := VisitSite(spec, all, endpoint, i, st, fates);
        VisitKeepsPrimaries(s0, spec, all, endpoint, i, st, fates);
        if r.1.Err? {
          return;
        }
        next := r.0;
      }
      PassKeepsPrimaries(s0, spec, all, primary, endpoint, i + 1, next, fates);
    }
  }

  /** Unless the policy is AutoReplica, no single change of a Reconcile turns a Cluster
      in primary mode into a replica: neither one that was primary when it started
      nor the one it has just promoted. */
  lemma {:induction false} ManualRejoinDiscardsNothing(spec: Spec, key: Key, w: World, input: Inputs)
    requires spec.failover.rejoin != AutoReplica
    ensures PrimariesKeptThroughout(w.sites, Reconcile(spec, key, w, input).store)
  {
    var seen := Observe(spec, w.sites, input);
    var ph := Handle(spec, key, w, seen, input);
    HandlersMakeOneAttempt(spec, key, w, seen, input);
    match AttemptOf(spec, key, w, seen, input) {
      case None =>
      case Some(a) => PromotionKeepsPrimaries(spec, a.former, a.target, w.sites, input.fates);
    }
    ConcludeKeepsPrimaries(w.sites, spec, w.hub.status.current, seen, ph, input);
  }

  lemma {:induction false} ConcludeKeepsPrimaries(
      s0: Sites, spec: Spec, prior: string, seen: seq<Obs>, ph: Phase, input: Inputs)
    requires PrimariesKeptThroughout(s0, ph.store) && spec.failover.rejoin != AutoReplica
    requires ph.hub.status.current == prior
    ensures PrimariesKeptThroughout(s0, Conclude(spec, prior, seen, ph, input).store)
  {
    var primary, all := ConcludeShape(spec, prior, seen, ph, input);
    PassKeepsPrimaries(s0, spec, all, primary, Endpoint(spec, primary), 0, ph.store, input.fates);
  }

  // ---- Runs ----

  /** One Reconcile of a run: the spec then in force, the world it starts from,
      and what the environment decides during it. */
  datatype Tick = Tick(spec: Spec, w: World, input: Inputs)

  function Ended(key: Key, t: Tick): Outcome {
    Reconcile(t.spec, key, t.w, t.input)
  }

  /** Between two Reconciles only the operator writes the status; sites, Services,
      annotation, failover parameters, replica list and (by a restart) counters may
      all change. */
  ghost predicate StatusPersists(key: Key, t: Tick, t': Tick) {
    t'.w.hub.status == Ended(key, t).hub.status
  }

  /** In between, the environment makes no new writer (it neither promotes nor
      unfences) and leaves fenced instances not ready; the declared primary keeps
      its name. */
  ghost predicate SafeGap(key: Key, t: Tick, t': Tick) {
    && StatusPersists(key, t, t')
    && NoNewWriter(Ended(key, t).store.sites, t'.w.sites)
    && t'.spec.primary.name == t.spec.primary.name
  }

  ghost predicate SafeRun(key: Key, run: seq<Tick>) {
    && (forall i :: 0 <= i < |run| ==> ValidNames(run[i].spec) && Quiet(run[i].w.sites))
    && (forall i :: 0 <= i < |run| - 1 ==> SafeGap(key, run[i], run[i + 1]))
  }

  /** Single writer over every run: once nobody but the recorded primary can accept
      writes and no Reconcile strands a promotion any more, then this holds after
      every Reconcile, and at every instant inside one at most one site can accept
      writes -- through failed promotions, chained failovers, restarts, spec
      changes and both rejoin policies. */
  lemma {:induction false} SingleWriterOverRuns(key: Key, run: seq<Tick>, start: nat, i: nat)
    requires SafeRun(key, run) && start <= i < |run|
    requires RecordedWriterOnly(run[start].spec, run[start].w)
    requires forall j :: start <= j < |run| ==> !Strands(run[j].spec, key, run[j].w, run[j].input)
    ensures RecordedWriterOnly(run[i].spec, run[i].w)
    ensures OneWriterThroughout(Ended(key, run[i]).store)
    ensures RecordedWriterOnly(run[i].spec, EndWorld(Ended(key, run[i])))
  {
    ReachesSafely(key, run, start, i);
    TickIsSafe(key, run[i]);
  }

  lemma {:induction false} ReachesSafely(key: Key, run: seq<Tick>, start: nat, i: nat)
    requires SafeRun(key, run) && start <= i < |run|
    requires RecordedWriterOnly(run[start].spec, run[start].w)
    requires forall j :: start <= j < i ==> !Strands(run[j].spec, key, run[j].w, run[j].input)
    ensures RecordedWriterOnly(run[i].spec, run[i].w)
  {
    if i > start {
      var k := i - 1;
      ReachesSafely(key, run, start, k);
      assert SafeGap(key, run[k], run[k + 1]);
      TickIsSafe(key, run[k]);
      GapKeepsRecordedWriter(key, run[k], run[i]);
    }
  }

  lemma {:induction false} TickIsSafe(key: Key, t: Tick)
    requires ValidNames(t.spec) && Quiet(t.w.sites) && RecordedWriterOnly(t.spec, t.w)
    requires !Strands(t.spec, key, t.w, t.input)
    ensures OneWriterThroughout(Ended(key, t).store) && RecordedWriterOnly(t.spec, EndWorld(Ended(key, t)))
  {
    OneWriterAtEveryInstant(t.spec, key, t.w, t.input);
    RecordedWriterKeptExactly(t.spec, key, t.w, t.input);
  }

  lemma {:induction false} GapKeepsRecordedWriter(key: Key, t: Tick, t': Tick)
    requires SafeGap(key, t, t') && RecordedWriterOnly(t.spec, EndWorld(Ended(key, t)))
    ensures RecordedWriterOnly(t'.spec, t'.w)
  {
  }

  // ---- The recorded primary ----

  /** The recorded primary is never cleared and changes only to a site that was the
      only reachable, primary and ready one in the observations it was decided from. */
  lemma {:induction false} RecordedPrimaryIsJustified(spec: Spec, key: Key, w: World, input: Inputs)
    ensures var o := Reconcile(spec, key, w, input); var was := w.hub.status.current; var now := o.hub.status.current;
      && (was != "" ==> now != "")
      && (now != was ==> exists i :: OnlyClaimant(o.all, i) && o.all[i].name == now && Declared(spec, now))
  {
    var seen := Observe(spec, w.sites, input);
    var ph := Handle(spec, key, w, seen, input);
    HandlersMakeOneAttempt(spec, key, w, seen, input);
    var o := Conclude(spec, w.hub.status.current, seen, ph, input);
    var _, _ := ConcludeShape(spec, w.hub.status.current, seen, ph, input);
    if o.hub.status.current != w.hub.status.current {
      var i := DecidedHasWitness(o.all);
      assert o.all[i].name == seen[i].name == SiteSpecs(spec)[i].name;
    }
  }

  ghost predicate StatusRun(key: Key, run: seq<Tick>) {
    forall i :: 0 <= i < |run| - 1 ==>
      StatusPersists(key, run[i], run[i + 1]) && SiteSpecs(run[i + 1].spec) == SiteSpecs(run[i].spec)
  }

  /** Over every run with a fixed list of sites: once recorded, a primary stays
      recorded, and it always names a declared site if it did at the start. */
  lemma {:induction false} RecordedPrimaryIsSticky(key: Key, run: seq<Tick>, i: nat, j: nat)
    requires StatusRun(key, run) && i <= j < |run|
    ensures SiteSpecs(run[j].spec) == SiteSpecs(run[i].spec)
    ensures var was := run[i].w.hub.status.current; var now := Ended(key, run[j]).hub.status.current;
      && (was != "" ==> now != "")
      && (was == "" || Declared(run[i].spec, was) ==> now == "" || Declared(run[i].spec, now))
    decreases j
  {
    RecordedPrimaryIsJustified(run[j].spec, key, run[j].w, run[j].input);
    if i < j {
      RecordedPrimaryIsSticky(key, run, i, j - 1);
      assert StatusPersists(key, run[j - 1], run[j - 1 + 1]);
    }
    SameSitesSameDeclared(run[i].spec, run[j].spec);
  }

  lemma {:induction false} SameSitesSameDeclared(a: Spec, b: Spec)
    requires SiteSpecs(a) == SiteSpecs(b)
    ensures a.primary == b.primary && a.replicas == b.replicas
  {
    assert SiteSpecs(a)[0] == SiteSpecs(b)[0];
    assert a.replicas == SiteSpecs(a)[1..] == SiteSpecs(b)[1..] == b.replicas;
  }
}
