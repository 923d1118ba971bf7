/** Concrete runs: two in which a promise of cnpg-ha fails, and one that meets the
    hypotheses of the progress theorem. */
module Witnesses {
  import opened Objects
  import opened HACluster
  import opened Observation
  import opened Failover
  import opened Rerun
  import opened Controller
  import opened Safety
  import opened Runs
  import opened Pacing
  import opened Convergence

  // ---- A run without a single API failure that ends with two writers ----
  //
  // Site `a` is the recorded primary and is down; `b` and `c` are healthy replicas,
  // but the `-rw` Service of `b` does not exist.  The first Reconcile promotes `b`
  // and then fails on its Service, so it records nothing and keeps its failure
  // count.  The second one still takes `a` for the primary, finds it unhealthy,
  // passes over `b` (no longer a replica) and promotes `c`.

  const KEY := Key("ns", "ha")
  const SPEC := Spec(SiteSpec("a", ""), [SiteSpec("b", ""), SiteSpec("c", "")],
                     HACluster.Failover(Automatic, 10, 2, Ordered, ManualRejoin))
  const DOWN := Cluster(map[], Absent, "", [], 0, 1)
  const STANDBY := Cluster(map[], Enabled(true), "", [], 1, 1)
  const SITES: Sites := map["a" := Site(Some(DOWN), None),
                            "b" := Site(Some(STANDBY), None),
                            "c" := Site(Some(STANDBY), Some(Service(map[])))]
  const HUB := Hub(Status("a", None, false), None)
  const START := World(SITES, HUB, map[KEY := 1])
  const INPUT := Inputs(ALL_GO, (i: nat) => None, 0, 0)

  lemma {:induction false} NamesDiffer()
    ensures "a" != "b" && "b" != "c" && "a" != "c"
    ensures ValidNames(SPEC)
  {
  }

  lemma {:induction false} EndpointsAreEmpty(sites: seq<SiteSpec>, n: string)
    requires forall i :: 0 <= i < |sites| ==> sites[i].endpoint == ""
    ensures EndpointIn(sites, n) == ""
  {
    if sites != [] {
      EndpointsAreEmpty(sites[1..], n);
    }
  }

  /** A site observed without any failure. */
  function Seen(n: string, c: Cluster): Obs {
    Obs(n, true, IsPrimary(c), c.readyInstances > 0, c.timeline, None, None)
  }

  lemma {:induction false} Observed(sites: Sites, b: Cluster)
    requires At(sites, "a").cluster.Some? && At(sites, "a").cluster.value.readyInstances == 0
    requires At(sites, "b").cluster == Some(b) && At(sites, "c").cluster == Some(STANDBY)
    ensures Observe(SPEC, sites, INPUT) == [Seen("a", At(sites, "a").cluster.value), Seen("b", b), Seen("c", STANDBY)]
  {
  }

  lemma {:induction false} NoSplitBrainWith(x: Obs, y: Obs, z: Obs)
    requires !Claims(x) && !Claims(z)
    ensures !SplitBrain([x, y, z])
  {
    var all := [x, y, z];
    if Claims(y) {
      assert OnlyClaimant(all, 1);
      DecideExact(all, 1);
    } else {
      NoClaimants(all);
    }
  }

  lemma {:induction false} AttemptFor(w: World, all: seq<Obs>, i: nat)
    requires w.hub == HUB && |all| == 3 && all[0].name == "a" && !Claims(all[0]) && !Claims(all[2])
    requires Count(w.counters, KEY) >= 1
    requires i < 2 && Choose(all[1..], "a", Ordered) == Some(i)
    ensures AttemptOf(SPEC, KEY, w, all, INPUT) == Some(Attempt("a", SPEC.replicas[i].name, false))
  {
    NoSplitBrainWith(all[0], all[1], all[2]);
    assert all == [all[0], all[1], all[2]];
  }

  /** The start meets every hypothesis of the single-writer theorem. */
  lemma {:induction false} StartIsSafe()
    ensures RecordedWriterOnly(SPEC, START) && Quiet(START.sites) && ValidNames(SPEC)
  {
  }

  lemma {:induction false} FirstAttempt(all: seq<Obs>)
    requires all == Observe(SPEC, SITES, INPUT)
    ensures AttemptOf(SPEC, KEY, START, all, INPUT) == Some(Attempt("a", "b", false))
    ensures Unhealthy(SPEC, HUB.status, all, 0) && Decide(all) == ""
  {
    NamesDiffer();
    Observed(SITES, STANDBY);
    assert StableBest(all[1..], "a", false, 2, 0);
    ChooseIsStableBest(all[1..], "a", Ordered, 0);
    AttemptFor(START, all, 0);
    NoClaimants(all);
  }

  /** The first Reconcile promotes `b`, fails, and remembers its failures. */
  lemma {:induction false} FirstReconcile()
    ensures var o := Reconcile(SPEC, KEY, START, INPUT);
      && o.store.sites == Settled("a", "b", SITES) && !o.ok
      && o.hub == HUB && Count(o.counters, KEY) == 2
  {
    var all := Observe(SPEC, SITES, INPUT);
    NamesDiffer();
    FirstAttempt(all);
    HandlersMakeOneAttempt(SPEC, KEY, START, all, INPUT);
    CleanRunSettles(SPEC, "a", "b", SITES);
    var ph := Handle(SPEC, KEY, START, all, INPUT);
    FirstHandlers(all);
    FailedConclude(all, ph);
  }

  lemma {:induction false} FailedConclude(seen: seq<Obs>, ph: Phase)
    requires ph.failed && ph.effect == NO_EFFECT && ph.hub == HUB && ph.mem == HUB.status && Decide(seen) == ""
    ensures var o := Conclude(SPEC, "a", seen, ph, INPUT);
            o.store == ph.store && !o.ok && o.hub == HUB && o.counters == ph.counters
  {
  }

  lemma {:induction false} FirstHandlers(all: seq<Obs>)
    requires |all| == 3 && Handle(SPEC, KEY, START, all, INPUT).failed
    requires Unhealthy(SPEC, HUB.status, all, 0)
    ensures var ph := Handle(SPEC, KEY, START, all, INPUT);
            ph.hub == HUB && ph.counters == map[KEY := 2] && ph.mem == HUB.status
  {
    assert START.counters[KEY := 2] == map[KEY := 2];
  }

  /** Two Reconciles, no API failure, no change in between: `b` and `c` both accept
      writes, and although the promotion of `c` completed, `a` stays recorded. */
  lemma {:induction false} MissingServiceMakesTwoWriters()
    ensures var first := Reconcile(SPEC, KEY, START, INPUT);
      var second := Reconcile(SPEC, KEY, EndWorld(first), INPUT);
      && WriterAt(second.store.sites, "b") && WriterAt(second.store.sites, "c")
      && !AtMostOneWriter(second.store.sites)
      && second.effect == Effect("a", "c") && second.hub.status.current == "a"
  {
    FirstReconcile();
    var w := EndWorld(Reconcile(SPEC, KEY, START, INPUT));
    SecondReconcile(w);
    SecondStatus(w);
    BothInstalled();
  }

  lemma {:induction false} BothInstalled()
    ensures var s := Settled("a", "c", Settled("a", "b", SITES));
            WriterAt(s, "b") && WriterAt(s, "c") && !AtMostOneWriter(s)
  {
    NamesDiffer();
    var s := Settled("a", "c", Settled("a", "b", SITES));
    assert WriterAt(s, "b") && WriterAt(s, "c");
  }

  lemma {:induction false} SecondAttempt(w: World, all: seq<Obs>)
    requires w.sites == Settled("a", "b", SITES) && w.hub == HUB && Count(w.counters, KEY) == 2
    requires all == Observe(SPEC, w.sites, INPUT)
    ensures AttemptOf(SPEC, KEY, w, all, INPUT) == Some(Attempt("a", "c", false))
  {
    NamesDiffer();
    Observed(w.sites, STANDBY.(flag := Enabled(false)));
    assert StableBest(all[1..], "a", false, 2, 1);
    ChooseIsStableBest(all[1..], "a", Ordered, 1);
    AttemptFor(w, all, 1);
  }

  lemma {:induction false} SecondReconcile(w: World)
    requires w.sites == Settled("a", "b", SITES) && w.hub == HUB && Count(w.counters, KEY) == 2
    ensures Reconcile(SPEC, KEY, w, INPUT).store.sites == Settled("a", "c", w.sites)
  {
    var all := Observe(SPEC, w.sites, INPUT);
    NamesDiffer();
    SecondAttempt(w, all);
    HandlersMakeOneAttempt(SPEC, KEY, w, all, INPUT);
    CleanRunSettles(SPEC, "a", "c", w.sites);
    SilentTopology(all, Handle(SPEC, KEY, w, all, INPUT));
  }

  /** `b` claims as well, so nothing is decided and the status keeps naming `a`. */
  lemma {:induction false} SecondStatus(w: World)
    requires w.sites == Settled("a", "b", SITES) && w.hub == HUB && Count(w.counters, KEY) == 2
    ensures var o := Reconcile(SPEC, KEY, w, INPUT); o.effect == Effect("a", "c") && o.hub.status.current == "a"
  {
    var all := Observe(SPEC, w.sites, INPUT);
    var a := Attempt("a", "c", false);
    NamesDiffer();
    SecondAttempt(w, all);
    Observed(w.sites, STANDBY.(flag := Enabled(false)));
    ServedPromotionCompletes(SPEC, a, w.sites, ALL_GO);
    assert Claims(all[1]) && all[1].name != "a";
    PromotionIsPersistedExactly(SPEC, KEY, w, INPUT, a);
    var _ := AttemptIsObserved(SPEC, KEY, w, INPUT, a);
    PromotionExactly(SPEC, a, w.sites, ALL_GO);
    HandlersMakeOneAttempt(SPEC, KEY, w, all, INPUT);
    var _, _ := ConcludeShape(SPEC, "a", all, Handle(SPEC, KEY, w, all, INPUT), INPUT);
  }

  /** Without replication endpoints the rest of Reconcile leaves the sites alone. */
  lemma {:induction false} SilentTopology(seen: seq<Obs>, ph: Phase)
    ensures Conclude(SPEC, "a", seen, ph, INPUT).store == ph.store
  {
    var all := ApplyEffect(seen, ph.effect);
    var primary := if Decide(all) != "" then Decide(all) else "a";
    EndpointsAreEmpty(SiteSpecs(SPEC), primary);
  }

  // ---- A FailoverInProgress flag that stays raised ----
  //
  // An annotation asks for the promotion of `c`.  The promotion goes through but the
  // annotation cannot be cleared.  The next Reconcile, without any failure, rejects the
  // request since `c` is no longer a replica, clears the annotation, and attempts nothing.

  const MANUAL := SPEC.(failover := SPEC.failover.(mode := Manual))
  const REQUESTED := World(SITES, HUB.(promote := Some("c")), map[])
  const UNCLEARED := INPUT.(fates := (s: Step) => if s == ClearPatch then Deny else Go)

  lemma {:induction false} RequestIsAttempted()
    ensures AttemptOf(MANUAL, KEY, REQUESTED, Observe(MANUAL, SITES, UNCLEARED), UNCLEARED)
         == Some(Attempt("a", "c", true))
  {
    var all := Observe(MANUAL, SITES, UNCLEARED);
    NamesDiffer();
    assert all[0] == ObserveSite(MANUAL, SITES, UNCLEARED, 0) && all[2] == ObserveSite(MANUAL, SITES, UNCLEARED, 2);
    RequestIsAcceptable(all);
  }

  lemma {:induction false} RequestIsAcceptable(all: seq<Obs>)
    requires |all| == 3 && !Claims(all[0]) && all[2].reachable && all[2].ready && !all[2].primary
    ensures AttemptOf(MANUAL, KEY, REQUESTED, all, UNCLEARED) == Some(Attempt("a", "c", true))
  {
    NamesDiffer();
    NoSplitBrainWith(all[0], all[1], all[2]);
    assert all == [all[0], all[1], all[2]];
    var i := FindReplica(MANUAL.replicas, "c");
    assert MANUAL.replicas[1].name == "c";
    assert i == 1;
    assert ManualTarget(MANUAL, REQUESTED.hub, all) == Some(1);
  }

  lemma {:induction false} FlagIsRaised()
    ensures var o := Reconcile(MANUAL, KEY, REQUESTED, UNCLEARED);
      o.hub.status.inProgress && PrimaryAt(o.store.sites, "c") && o.hub.promote == Some("c")
  {
    var all, a := Observe(MANUAL, SITES, UNCLEARED), Attempt("a", "c", true);
    NamesDiffer();
    RequestIsAttempted();
    ServedPromotionCompletes(MANUAL, a, SITES, UNCLEARED.fates);
    ProgressFlagExactly(MANUAL, KEY, REQUESTED, UNCLEARED);
    PromotionExactly(MANUAL, a, SITES, UNCLEARED.fates);
    HandlersMakeOneAttempt(MANUAL, KEY, REQUESTED, all, UNCLEARED);
    var _, _ := ConcludeShape(MANUAL, "a", all, Handle(MANUAL, KEY, REQUESTED, all, UNCLEARED), UNCLEARED);
  }

  /** With `c` a primary, the request for it is rejected. */
  lemma {:induction false} NothingIsAttempted(w: World)
    requires PrimaryAt(w.sites, "c") && w.hub.promote == Some("c")
    ensures ManualTarget(MANUAL, w.hub, Observe(MANUAL, w.sites, INPUT)).None?
    ensures AttemptOf(MANUAL, KEY, w, Observe(MANUAL, w.sites, INPUT), INPUT).None?
  {
  }

  lemma {:induction false} RejectionIsCleared(w: World, all: seq<Obs>)
    requires |all| == 3 && ManualTarget(MANUAL, w.hub, all).None?
    ensures Conclude(MANUAL, w.hub.status.current, all, Handle(MANUAL, KEY, w, all, INPUT), INPUT).hub.promote.None?
  {
  }

  /** The promotion is over, the annotation is gone, and the flag is still raised. */
  lemma {:induction false} FlagStaysRaised()
    ensures var first := Reconcile(MANUAL, KEY, REQUESTED, UNCLEARED);
      var second := Reconcile(MANUAL, KEY, EndWorld(first), INPUT);
      && first.hub.status.inProgress && PrimaryAt(first.store.sites, "c")
      && second.hub.status.inProgress && second.hub.promote.None?
  {
    FlagIsRaised();
    RejectionKeepsFlag(EndWorld(Reconcile(MANUAL, KEY, REQUESTED, UNCLEARED)));
  }

  lemma {:induction false} RejectionKeepsFlag(w: World)
    requires PrimaryAt(w.sites, "c") && w.hub.promote == Some("c")
    ensures var o := Reconcile(MANUAL, KEY, w, INPUT);
      o.hub.status.inProgress == w.hub.status.inProgress && o.hub.promote.None?
  {
    NothingIsAttempted(w);
    RejectionIsCleared(w, Observe(MANUAL, w.sites, INPUT));
    ProgressFlagExactly(MANUAL, KEY, w, INPUT);
  }

  // ---- An outage that ends in a failover ----
  //
  // As at first, but `b` has its Service and no failure has been counted yet.

  const SERVED := SITES["b" := Site(Some(STANDBY), Some(Service(map[])))]

  lemma {:induction false} ServedIsObserved(all: seq<Obs>)
    requires all == Observe(SPEC, SERVED, INPUT)
    ensures all == [Seen("a", DOWN), Seen("b", STANDBY), Seen("c", STANDBY)]
    ensures Unhealthy(SPEC, HUB.status, all, 0) && Decide(all) == "" && Candidate(all[1], "a")
  {
    NamesDiffer();
    Observed(SERVED, STANDBY);
    NoClaimants(all);
    assert Find(all, "a") == 0;
  }

  lemma {:induction false} ServedIsOutage(counters: Counters)
    ensures var t := Tick(SPEC, World(SERVED, HUB, counters), INPUT); Failure(EventOf(KEY, t), KEY) && Clear(t)
  {
    var all := Observe(SPEC, SERVED, INPUT);
    NamesDiffer();
    ServedIsObserved(all);
  }

  /** Below the threshold nothing happens. */
  lemma {:induction false} FirstTickWaits(w: World)
    requires w == World(SERVED, HUB, map[])
    ensures var o := Reconcile(SPEC, KEY, w, INPUT); o.store.sites == SERVED && o.hub == HUB
  {
    var all := Observe(SPEC, SERVED, INPUT);
    ServedIsObserved(all);
    assert AttemptOf(SPEC, KEY, w, all, INPUT).None?;
    HandlersMakeOneAttempt(SPEC, KEY, w, all, INPUT);
    var ph := Handle(SPEC, KEY, w, all, INPUT);
    assert ph.hub == HUB;
    SilentTopology(all, ph);
  }

  /** Two Reconciles with threshold 2 that make an outage the progress theorem speaks of. */
  lemma {:induction false} OutageCanHappen() returns (t: Tick, t': Tick)
    ensures Failure(EventOf(KEY, t), KEY) && Clear(t) && EffectiveThreshold(t.spec.failover) == 2
    ensures Failure(EventOf(KEY, t'), KEY) && Clear(t') && EffectiveThreshold(t'.spec.failover) == 2
    ensures Undisturbed(KEY, t, t')
  {
    t := Tick(SPEC, World(SERVED, HUB, map[]), INPUT);
    FirstTickWaits(t.w);
    t' := Tick(SPEC, World(SERVED, HUB, Ended(KEY, t).counters), INPUT);
    ServedIsOutage(t.w.counters);
    ServedIsOutage(t'.w.counters);
  }
}
