/** Single-writer safety of whole runs. */
module Safety {
  import opened Objects
  import opened HACluster
  import opened Promotion
  import opened Observation
  import opened Failover
  import opened Topology
  import opened Controller

  /** Nobody but the recorded primary can accept writes. */
  ghost predicate RecordedWriterOnly(spec: Spec, w: World) {
    forall n :: WriterAt(w.sites, n) ==> n == Recorded(spec, w.hub.status)
  }

  /** Fenced instances are not ready. */
  ghost predicate Quiet(sites: Sites) {
    forall n :: At(sites, n).cluster.Some? && IsFenced(At(sites, n).cluster.value) ==>
      At(sites, n).cluster.value.readyInstances <= 0
  }

  ghost predicate NoNewWriter(s: Sites, s': Sites) {
    forall n :: WriterAt(s', n) ==> WriterAt(s, n)
  }

  ghost predicate OnlyWriter(s: Sites, who: string) {
    forall n :: WriterAt(s, n) ==> n == who
  }

  // ---- The topology pass makes no writer ----

  lemma {:induction false} PassMakesNoWriter(
      spec: Spec, all: seq<Obs>, primary: string, endpoint: string, i: nat, st: Store, fates: Fates)
    requires i <= |all|
    ensures var r := PassFrom(spec, all, primary, endpoint, i, st, fates);
      NoNewWriter(st.sites, r.0.sites) && forall x :: x in r.0.trace ==> x in st.trace || NoNewWriter(st.sites, x)
    decreases |all| - i
  {
    if i < |all| {
      if !Visits(spec, all, primary, i, st.sites, fates) {
        PassMakesNoWriter(spec, all, primary, endpoint, i + 1, st, fates);
      } else {
        var n := all[i].name;
        var e := Wanted(spec.failover.rejoin, At(st.sites, n).cluster.value, endpoint);
        var r := VisitSite(spec, all, endpoint, i, st, fates);
        StepIsCalm(e, n, st, fates(TopologyGet(i)), fates(TopologyUpdate(i)));
        assert NoNewWriter(st.sites, r.0.sites);
        if r.1.Ok? {
          PassMakesNoWriter(spec, all, primary, endpoint, i + 1, r.0, fates);
        }
      }
    }
  }

  // ---- A promotion keeps at most one writer ----

  ghost predicate OneWriterThroughout(st: Store) {
    AtMostOneWriter(st.sites) && forall x :: x in st.trace ==> AtMostOneWriter(x)
  }

  lemma {:induction false} CalmMoveWriters(st: Store, st': Store, k: string, who: string)
    requires CalmMove(st, st', k) && OnlyWriter(st.sites, who)
    ensures OnlyWriter(st'.sites, who)
    ensures (forall x :: x in st.trace ==> AtMostOneWriter(x)) ==> (forall x :: x in st'.trace ==> AtMostOneWriter(x))
  {
    forall n | WriterAt(st'.sites, n)
      ensures n == who
    {
      assert WriterAt(st.sites, n);
    }
  }

  lemma {:induction false} StagedWriters(
      former: string, target: string, s0: Sites, s1: Store, s2: Store, s3: Store, s4: Store)
    requires OnlyWriter(s0, former)
    requires CalmMove(Store(s0, []), s1, former) && CalmMove(s1, s2, former) && CalmMove(s3, s4, target)
    requires OneMove(s2, s3, target)
    requires s3 != s2 ==> FencedOrGone(s2.sites, former)
    requires forall n :: PrimaryAt(s3.sites, n) ==> PrimaryAt(s2.sites, n) || n == target
    requires forall n :: FencedOrGone(s2.sites, n) ==> FencedOrGone(s3.sites, n)
    ensures OneWriterThroughout(s4)
    ensures s3 == s2 ==> OnlyWriter(s4.sites, former)
    ensures FencedOrGone(s2.sites, former) ==> OnlyWriter(s4.sites, target)
  {
    CalmMoveWriters(Store(s0, []), s1, former, former);
    CalmMoveWriters(s1, s2, former, former);
    if s3 == s2 {
      CalmMoveWriters(s3, s4, target, former);
    }
    if FencedOrGone(s2.sites, former) {
      assert forall n :: !WriterAt(s2.sites, n);
      forall n | WriterAt(s3.sites, n)
        ensures n == target
      {
        assert !WriterAt(s2.sites, n);
      }
      CalmMoveWriters(s3, s4, target, target);
    }
  }

  /** From a state whose only possible writer is the site to demote, runPromotion
      keeps at most one writer at every crash point and ends with the target as
      the only possible one if it succeeds, else with one of the two. */
  lemma {:induction false} PromotionKeepsOneWriter(spec: Spec, former: string, target: string, s0: Sites, fates: Fates)
    requires OnlyWriter(s0, former)
    ensures var r := RunPromotion(spec, former, target, Store(s0, []), fates);
      && OneWriterThroughout(r.0)
      && (r.1.Ok? ==> OnlyWriter(r.0.sites, target))
      && (OnlyWriter(r.0.sites, former) || OnlyWriter(r.0.sites, target))
  {
    var st := Store(s0, []);
    var s1, s2, s3 := PromotionStages(spec, former, target, st, fates);
    StepIsCalm(Promote, target, s2, fates(PromoteGet), fates(PromoteUpdate));
    StagedWriters(former, target, s0, s1, s2, s3, RunPromotion(spec, former, target, st, fates).0);
  }

  // ---- Exactly when a promotion commits and completes ----

  /** A best-effort step goes through: the object is (or turns out) missing, it is
      as wanted already, or the write is served. */
  predicate GoesThrough(nothingToDo: bool, get: Fate, update: Fate) {
    get == Vanish || (get == Go && (nothingToDo || update in {Go, Vanish}))
  }

  predicate FenceGoesThrough(site: Site, f: Fates) {
    GoesThrough(site.cluster.None? || IsFenced(site.cluster.value), f(FenceGet), f(FenceUpdate))
  }

  predicate DrainGoesThrough(site: Site, f: Fates) {
    GoesThrough(site.service.None? || Routed(site.service.value, RoleRemote) == site.service.value,
                f(DrainGet), f(DrainUpdate))
  }

  /** The Promote write reaches the target's API server. */
  predicate Commits(spec: Spec, a: Attempt, sites: Sites, f: Fates) {
    && a.former != "" && a.former != a.target
    && Resolves(spec, a.former, f(OldClient)) && f(NewClient) == Go
    && FenceGoesThrough(At(sites, a.former), f) && DrainGoesThrough(At(sites, a.former), f)
    && f(PromoteGet) == Go && f(PromoteUpdate) in {Go, Lost}
  }

  /** The Promote write is acknowledged and traffic reaches the target's Service. */
  predicate Routes(a: Attempt, sites: Sites, f: Fates) {
    && f(PromoteUpdate) == Go
    && f(RouteGet) == Go && At(sites, a.target).service.Some?
    && (var s := At(sites, a.target).service.value; Routed(s, RoleLocal) == s || f(RouteUpdate) == Go)
  }

  /** Everything after the Promote write is served too, up to the saved status. */
  predicate Completes(a: Attempt, sites: Sites, f: Fates) {
    Routes(a, sites, f) && (a.manual ==> f(ClearPatch) == Go) && f(StatusUpdate) in {Go, Lost}
  }

  /** Served in every call that runPromotion makes, a promotion to a site with a Service
      goes through. */
  lemma {:induction false} ServedPromotionCompletes(spec: Spec, a: Attempt, sites: Sites, f: Fates)
    requires forall s :: s != ClearPatch ==> f(s) == Go
    requires a.former != "" && a.former != a.target && Declared(spec, a.former) && At(sites, a.target).service.Some?
    ensures Commits(spec, a, sites, f) && Routes(a, sites, f)
  {
  }

  lemma {:induction false} FenceTolerance(n: string, st: Store, f: Fates)
    ensures Tolerated(Apply(Fence, n, st, f(FenceGet), f(FenceUpdate)).1) <==> FenceGoesThrough(At(st.sites, n), f)
  {
  }

  lemma {:induction false} DrainTolerance(n: string, st: Store, f: Fates)
    ensures Tolerated(Flip(n, RoleRemote, st, f(DrainGet), f(DrainUpdate)).1) <==> DrainGoesThrough(At(st.sites, n), f)
  {
  }

  /** runPromotion, from its inputs alone: the target turns primary exactly when
      `Commits`, and it succeeds exactly when the target is routed to as well. */
  lemma {:induction false} PromotionExactly(spec: Spec, a: Attempt, s0: Sites, f: Fates)
    requires ReplicaAt(s0, a.target)
    ensures var r := RunPromotion(spec, a.former, a.target, Store(s0, []), f);
      && (PrimaryAt(r.0.sites, a.target) <==> Commits(spec, a, s0, f))
      && (Commits(spec, a, s0, f) ==>
            At(r.0.sites, a.target).cluster == Some(At(s0, a.target).cluster.value.(flag := Enabled(false))))
      && (r.1.Ok? <==> Commits(spec, a, s0, f) && Routes(a, s0, f))
  {
    var st := Store(s0, []);
    if a.former == "" || a.former == a.target || !Resolves(spec, a.former, f(OldClient)) || f(NewClient) != Go {
      return;
    }
    var s1 := Apply(Fence, a.former, st, f(FenceGet), f(FenceUpdate));
    FenceTolerance(a.former, st, f);
    if !Tolerated(s1.1) {
      return;
    }
    var s2 := Flip(a.former, RoleRemote, s1.0, f(DrainGet), f(DrainUpdate));
    DrainTolerance(a.former, s1.0, f);
    if !Tolerated(s2.1) {
      return;
    }
    assert At(s2.0.sites, a.target) == At(s0, a.target);
    PromoteTail(a.target, s2.0, f);
  }

  lemma {:induction false} PromoteTail(target: string, st: Store, f: Fates)
    requires ReplicaAt(st.sites, target)
    ensures var s3 := Apply(Promote, target, st, f(PromoteGet), f(PromoteUpdate));
      var s4 := Flip(target, RoleLocal, s3.0, f(RouteGet), f(RouteUpdate));
      var site := At(st.sites, target);
      && (PrimaryAt(s3.0.sites, target) <==> f(PromoteGet) == Go && f(PromoteUpdate) in {Go, Lost})
      && (PrimaryAt(s3.0.sites, target) ==>
            At(s3.0.sites, target).cluster == Some(site.cluster.value.(flag := Enabled(false))))
      && (s3.1.Ok? <==> f(PromoteGet) == Go && f(PromoteUpdate) == Go)
      && At(s4.0.sites, target).cluster == At(s3.0.sites, target).cluster
      && (s4.1.Ok? <==> && f(RouteGet) == Go && site.service.Some?
                        && (Routed(site.service.value, RoleLocal) == site.service.value || f(RouteUpdate) == Go))
  {
  }

  // ---- What Reconcile decides in a single-writer world ----

  /** Whoever is observed as a healthy primary is the recorded one. */
  lemma {:induction false} ClaimantIsRecorded(spec: Spec, w: World, input: Inputs, i: nat)
    requires RecordedWriterOnly(spec, w) && Quiet(w.sites)
    requires i < |SiteSpecs(spec)| && Claims(Observe(spec, w.sites, input)[i])
    ensures Observe(spec, w.sites, input)[i].name == Recorded(spec, w.hub.status)
  {
    assert WriterAt(w.sites, SiteSpecs(spec)[i].name);
  }

  lemma {:induction false} ObservedNamesAreUnique(spec: Spec, sites: Sites, input: Inputs)
    requires ValidNames(spec)
    ensures UniqueNames(Observe(spec, sites, input))
  {
  }

  /** Without a completed promotion the decision is the recorded primary or none. */
  lemma {:induction false} DecisionIsRecorded(spec: Spec, w: World, input: Inputs)
    requires RecordedWriterOnly(spec, w) && Quiet(w.sites)
    ensures |Claimants(Observe(spec, w.sites, input))| == 1 ==>
              Claimants(Observe(spec, w.sites, input))[0] == Recorded(spec, w.hub.status)
  {
    var all := Observe(spec, w.sites, input);
    if |Claimants(all)| == 1 {
      var i := DecidedHasWitness(all);
      ClaimantIsRecorded(spec, w, input, i);
    }
  }

  /** Every attempt targets a replica that was observed reachable and ready. */
  lemma {:induction false} AttemptIsObserved(spec: Spec, key: Key, w: World, input: Inputs, a: Attempt) returns (i: nat)
    requires AttemptOf(spec, key, w, Observe(spec, w.sites, input), input) == Some(a)
    ensures 0 < i < |SiteSpecs(spec)| && SiteSpecs(spec)[i].name == a.target
    ensures var o := Observe(spec, w.sites, input)[i]; o.name == a.target && o.reachable && o.ready && !o.primary
    ensures ReplicaAt(w.sites, a.target) && At(w.sites, a.target).cluster.value.readyInstances > 0
  {
    var all := Observe(spec, w.sites, input);
    var manual := ManualTarget(spec, w.hub, all);
    if manual.Some? {
      i := manual.value + 1;
    } else {
      i := AutomaticTarget(spec, w.hub.status, Count(w.counters, key), all, input.check).value + 1;
      assert all[1..][i - 1] == all[i];
    }
    assert all[i] == ObserveSite(spec, w.sites, input, i);
  }

  /** In the observations, its name leads to it. */
  lemma {:induction false} AttemptTargetsReplica(spec: Spec, key: Key, w: World, input: Inputs, a: Attempt)
    requires ValidNames(spec)
    requires AttemptOf(spec, key, w, Observe(spec, w.sites, input), input) == Some(a)
    ensures a.target != ""
    ensures var all := Observe(spec, w.sites, input); var t := Find(all, a.target);
            t < |all| && all[t].reachable && all[t].ready && !all[t].primary
  {
    var i := AttemptIsObserved(spec, key, w, input, a);
    assert Find(Observe(spec, w.sites, input), a.target) == i;
  }

  /** Every attempt demotes the recorded primary and promotes an unfenced replica. */
  lemma {:induction false} AttemptIsSound(spec: Spec, key: Key, w: World, input: Inputs, a: Attempt)
    requires ValidNames(spec) && RecordedWriterOnly(spec, w) && Quiet(w.sites)
    requires AttemptOf(spec, key, w, Observe(spec, w.sites, input), input) == Some(a)
    ensures a.former == Recorded(spec, w.hub.status)
    ensures ReplicaAt(w.sites, a.target) && !FencedOrGone(w.sites, a.target)
  {
    DecisionIsRecorded(spec, w, input);
    var _ := AttemptIsObserved(spec, key, w, input, a);
  }

  /** A completed promotion is what Reconcile then decides and records. */
  lemma {:induction false} CompletedPromotionIsDecided(spec: Spec, key: Key, w: World, input: Inputs, a: Attempt)
    requires ValidNames(spec) && RecordedWriterOnly(spec, w) && Quiet(w.sites)
    requires AttemptOf(spec, key, w, Observe(spec, w.sites, input), input) == Some(a)
    requires a.former != a.target
    ensures Decide(ApplyEffect(Observe(spec, w.sites, input), Effect(a.former, a.target))) == a.target
  {
    var all := Observe(spec, w.sites, input);
    AttemptIsSound(spec, key, w, input, a);
    AttemptTargetsReplica(spec, key, w, input, a);
    ObservedNamesAreUnique(spec, w.sites, input);
    forall j | 0 <= j < |all| && Claims(all[j])
      ensures all[j].name == a.former
    {
      ClaimantIsRecorded(spec, w, input, j);
    }
    PromotionIsReflected(all, Effect(a.former, a.target));
  }

  // ---- One Reconcile ----

  /** The promotion write lands but something after it fails before the new
      primary is recorded. */
  predicate Strands(spec: Spec, key: Key, w: World, input: Inputs) {
    var a := AttemptOf(spec, key, w, Observe(spec, w.sites, input), input);
    a.Some? && Commits(spec, a.value, w.sites, input.fates) && !Completes(a.value, w.sites, input.fates)
  }

  lemma {:induction false} ConcludeMakesNoWriter(spec: Spec, prior: string, seen: seq<Obs>, ph: Phase, input: Inputs)
    requires ph.hub.status.current == prior
    ensures var o := Conclude(spec, prior, seen, ph, input);
      && NoNewWriter(ph.store.sites, o.store.sites)
      && (forall x :: x in o.store.trace ==> x in ph.store.trace || NoNewWriter(ph.store.sites, x))
      && (ph.failed || input.fates(StatusUpdate) != Go ==> o.store == ph.store)
  {
    var primary, all := ConcludeShape(spec, prior, seen, ph, input);
    PassMakesNoWriter(spec, all, primary, Endpoint(spec, primary), 0, ph.store, input.fates);
  }

  /** At every instant of one Reconcile, under any failures and at any crash
      point, at most one site can accept writes. */
  lemma {:induction false} OneWriterAtEveryInstant(spec: Spec, key: Key, w: World, input: Inputs)
    requires ValidNames(spec) && RecordedWriterOnly(spec, w) && Quiet(w.sites)
    ensures OneWriterThroughout(Reconcile(spec, key, w, input).store)
  {
    var seen := Observe(spec, w.sites, input);
    var ph := Handle(spec, key, w, seen, input);
    HandlersMakeOneAttempt(spec, key, w, seen, input);
    assert OneWriterThroughout(ph.store) by {
      match AttemptOf(spec, key, w, seen, input)
      case None =>
      case Some(a) =>
        AttemptIsSound(spec, key, w, input, a);
        PromotionKeepsOneWriter(spec, a.former, a.target, w.sites, input.fates);
    }
    ConcludeMakesNoWriter(spec, w.hub.status.current, seen, ph, input);
    ShrunkHistory(ph.store, Reconcile(spec, key, w, input).store);
  }

  lemma {:induction false} ShrunkHistory(st: Store, st': Store)
    requires OneWriterThroughout(st)
    requires NoNewWriter(st.sites, st'.sites)
    requires forall x :: x in st'.trace ==> x in st.trace || NoNewWriter(st.sites, x)
    ensures OneWriterThroughout(st')
  {
  }

  /** Reconcile without a completed promotion records nothing new. */
  lemma {:induction false} UneventfulConclude(spec: Spec, status: Status, seen: seq<Obs>, ph: Phase, input: Inputs)
    requires ph.effect == NO_EFFECT && ph.hub.status == status
    requires |Claimants(seen)| == 1 ==> Claimants(seen)[0] == Recorded(spec, status)
    ensures Recorded(spec, Conclude(spec, status.current, seen, ph, input).hub.status) == Recorded(spec, status)
  {
  }

  /** After an attempt, in terms of what it left: `ok` is runPromotion's success. */
  lemma {:induction false} AttemptConclude(
      spec: Spec, status: Status, seen: seq<Obs>, ph: Phase, input: Inputs, a: Attempt, ok: bool)
    requires ph.hub.status == status && a.former == Recorded(spec, status) && a.target != ""
    requires |Claimants(seen)| == 1 ==> Claimants(seen)[0] == Recorded(spec, status)
    requires Shows(a, (ph.store, if ok then Ok(()) else Err(Failed)), ph, status, input)
    requires ok ==> a.former != a.target && Decide(ApplyEffect(seen, Effect(a.former, a.target))) == a.target
    requires ok ==> OnlyWriter(ph.store.sites, a.target) && WriterAt(ph.store.sites, a.target)
    requires !ok ==>
               OnlyWriter(ph.store.sites, a.former) || (a.former != a.target && WriterAt(ph.store.sites, a.target))
    ensures var o := Conclude(spec, status.current, seen, ph, input);
      RecordedWriterOnly(spec, EndWorld(o)) <==>
        (WriterAt(ph.store.sites, a.target) && a.former != a.target ==>
           ok && (a.manual ==> input.fates(ClearPatch) == Go) && Saves(input))
  {
    var o := Conclude(spec, status.current, seen, ph, input);
    ConcludeMakesNoWriter(spec, status.current, seen, ph, input);
    if ph.effect == NO_EFFECT {
      UneventfulConclude(spec, status, seen, ph, input);
    }
    if ok && !ph.failed && Saves(input) {
      assert o.hub.status.current == a.target;
    } else {
      assert o.store == ph.store;
      assert Recorded(spec, o.hub.status) == a.former;
    }
  }

  /** Exactly when one Reconcile keeps the recorded primary the only writer: in
      every case but a stranded promotion. */
  lemma {:induction false} RecordedWriterKeptExactly(spec: Spec, key: Key, w: World, input: Inputs)
    requires ValidNames(spec) && RecordedWriterOnly(spec, w) && Quiet(w.sites)
    ensures RecordedWriterOnly(spec, EndWorld(Reconcile(spec, key, w, input))) <==> !Strands(spec, key, w, input)
  {
    var seen := Observe(spec, w.sites, input);
    var ph := Handle(spec, key, w, seen, input);
    HandlersMakeOneAttempt(spec, key, w, seen, input);
    ConcludeMakesNoWriter(spec, w.hub.status.current, seen, ph, input);
    DecisionIsRecorded(spec, w, input);
    match AttemptOf(spec, key, w, seen, input)
    case None =>
      UneventfulConclude(spec, w.hub.status, seen, ph, input);
    case Some(a) =>
      var r := RunPromotion(spec, a.former, a.target, Store(w.sites, []), input.fates);
      AttemptIsSound(spec, key, w, input, a);
      AttemptTargetsReplica(spec, key, w, input, a);
      PromotionKeepsOneWriter(spec, a.former, a.target, w.sites, input.fates);
      PromotionExactly(spec, a, w.sites, input.fates);
      if a.former != a.target {
        CompletedPromotionIsDecided(spec, key, w, input, a);
      }
      AttemptConclude(spec, w.hub.status, seen, ph, input, a, r.1.Ok?);
  }
}
