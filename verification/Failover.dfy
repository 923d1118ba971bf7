/** runPromotion: moving write traffic from the old primary to a replica. */
module Failover {
  import opened Objects
  import opened HACluster
  import opened Promotion

  /** Every API call one Reconcile can make, named by its place in the code. */
  datatype Step =
    | ObserveClient(site: nat) | ObserveGet(site: nat)
    | OldClient | NewClient
    | FenceGet | FenceUpdate
    | DrainGet | DrainUpdate
    | PromoteGet | PromoteUpdate
    | RouteGet | RouteUpdate
    | ClearPatch | StatusUpdate
    | TopologyClient(site: nat) | TopologyProbe(site: nat)
    | TopologyGet(site: nat) | TopologyUpdate(site: nat)

  type Fates = Step -> Fate

  /** When siteClientAndRef finds a client: the declared primary uses the hub's own client, a replica
      needs its remote client, an unknown site has none. */
  predicate Resolves(spec: Spec, n: string, client: Fate) {
    n == spec.primary.name || (client == Go && IsReplica(spec, n))
  }

  lemma {:induction false} ResolvesByKind(spec: Spec, n: string, client: Fate)
    ensures n == spec.primary.name ==> Resolves(spec, n, client)
    ensures forall i :: 0 <= i < |spec.replicas| && n == spec.replicas[i].name != spec.primary.name ==>
              (Resolves(spec, n, client) <==> client == Go)
    ensures (forall i :: 0 <= i < |SiteSpecs(spec)| ==> SiteSpecs(spec)[i].name != n) ==> !Resolves(spec, n, client)
  {
    if IsReplica(spec, n) {
      var i :| 0 <= i < |spec.replicas| && spec.replicas[i].name == n;
      assert SiteSpecs(spec)[i + 1].name == n;
    }
    assert SiteSpecs(spec)[0] == spec.primary;
  }

  method SiteClientAndRef(spec: Spec, n: string, client: Fate) returns (ok: bool)
    ensures ok <==> Resolves(spec, n, client)
    ensures n == spec.primary.name ==> ok
    ensures n != spec.primary.name ==>
              (ok <==> client == Go && exists i :: 0 <= i < |spec.replicas| && spec.replicas[i].name == n)
  {
    if n == spec.primary.name {
      return true;
    }
    for i := 0 to |spec.replicas|
      invariant forall j :: 0 <= j < i ==> spec.replicas[j].name != n
    {
      if spec.replicas[i].name != n {
        continue;
      }
      return client == Go;
    }
    return false;
  }

  /** A step on the old primary may find nothing: a missing object cannot accept writes. */
  predicate Tolerated(r: Result<()>) {
    r != Err(Failed)
  }

  function RunPromotion(spec: Spec, former: string, target: string, st: Store, fates: Fates): (Store, Result<()>) {
    if former == "" || former == target || !Resolves(spec, former, fates(OldClient)) || fates(NewClient) != Go then
      (st, Err(Failed))
    else
      var (s1, fenced) := Apply(Fence, former, st, fates(FenceGet), fates(FenceUpdate));
      if !Tolerated(fenced) then (s1, Err(Failed)) else
      var (s2, drained) := Flip(former, RoleRemote, s1, fates(DrainGet), fates(DrainUpdate));
      if !Tolerated(drained) then (s2, Err(Failed)) else
      var (s3, promoted) := Apply(Promote, target, s2, fates(PromoteGet), fates(PromoteUpdate));
      if promoted.Err? then (s3, Err(Failed)) else
      var (s4, routed) := Flip(target, RoleLocal, s3, fates(RouteGet), fates(RouteUpdate));
      (s4, if routed.Err? then Err(Failed) else Ok(()))
  }

  /** The state just before snapshot `i`. */
  function Before(s0: Sites, trace: seq<Sites>, i: nat): Sites
    requires i <= |trace|
  {
    if i == 0 then s0 else trace[i - 1]
  }

  predicate TurnsPrimary(before: Sites, after: Sites, n: string) {
    ReplicaAt(before, n) && PrimaryAt(after, n)
  }

  predicate TurnAt(s0: Sites, trace: seq<Sites>, i: nat, n: string) {
    i < |trace| && TurnsPrimary(Before(s0, trace, i), trace[i], n)
  }

  predicate Linked(s0: Sites, st: Store) {
    st.sites == Before(s0, st.trace, |st.trace|)
  }

  /** One move adds at most one turn to a history, at its end. */
  lemma {:induction false} MoveTurns(s0: Sites, st: Store, st': Store, k: string)
    requires Linked(s0, st) && OneMove(st, st', k)
    ensures Linked(s0, st')
    ensures forall i: nat, n :: TurnAt(s0, st'.trace, i, n) ==>
              TurnAt(s0, st.trace, i, n)
              || (i == |st.trace| && |st'.trace| > i && TurnsPrimary(st.sites, st'.sites, n))
  {
  }

  /** Only Promote makes a primary, and only of the site it is applied to; no
      step on any site lifts a fence. */
  lemma {:induction false} StepIsCalm(e: Edit, k: string, st: Store, get: Fate, update: Fate)
    ensures var st' := Apply(e, k, st, get, update).0;
      && (forall n :: TurnsPrimary(st.sites, st'.sites, n) ==> e.Promote? && n == k)
      && (forall n :: FencedOrGone(st.sites, n) ==> FencedOrGone(st'.sites, n))
      && (forall n :: PrimaryAt(st'.sites, n) ==> PrimaryAt(st.sites, n) || (e.Promote? && n == k))
      && (forall n :: PrimaryAt(st.sites, n) && At(st'.sites, n).cluster.Some? ==>
            PrimaryAt(st'.sites, n) || (e.Reconfigure? && n == k))
  {
  }

  lemma {:induction false} FlipIsCalm(k: string, role: Role, st: Store, get: Fate, update: Fate)
    ensures var st' := Flip(k, role, st, get, update).0;
            forall n :: At(st'.sites, n).cluster == At(st.sites, n).cluster
  {
  }

  /** A move that makes no primary and lifts no fence. */
  ghost predicate CalmMove(st: Store, st': Store, k: string) {
    && OneMove(st, st', k)
    && (forall n :: PrimaryAt(st'.sites, n) ==> PrimaryAt(st.sites, n))
    && (forall n :: FencedOrGone(st.sites, n) ==> FencedOrGone(st'.sites, n))
  }

  /** Every execution of runPromotion, however it ends, is two calm moves on the
      old primary, at most one Promote of the target behind a fenced or missing
      old primary, and a calm move on the target. */
  lemma {:induction false} PromotionStages(spec: Spec, former: string, target: string, st: Store, fates: Fates)
      returns (s1: Store, s2: Store, s3: Store)
    ensures var r := RunPromotion(spec, former, target, st, fates);
      && CalmMove(st, s1, former) && CalmMove(s1, s2, former) && CalmMove(s3, r.0, target)
      && (s3 == s2 || (&& s3 == Apply(Promote, target, s2, fates(PromoteGet), fates(PromoteUpdate)).0
                       && former != "" && former != target && FencedOrGone(s2.sites, former)))
      && (r.1.Ok? ==> && s3 == Apply(Promote, target, s2, fates(PromoteGet), fates(PromoteUpdate)).0
                      && Apply(Promote, target, s2, fates(PromoteGet), fates(PromoteUpdate)).1.Ok?
                      && former != "" && former != target && FencedOrGone(s2.sites, former))
      && (forall n :: At(r.0.sites, n).cluster == At(s3.sites, n).cluster)
  {
    s1, s2, s3 := st, st, st;
    if former == "" || former == target || !Resolves(spec, former, fates(OldClient)) || fates(NewClient) != Go {
      return;
    }
    var p1 := Apply(Fence, former, st, fates(FenceGet), fates(FenceUpdate));
    StepIsCalm(Fence, former, st, fates(FenceGet), fates(FenceUpdate));
    s1, s2, s3 := p1.0, p1.0, p1.0;
    if !Tolerated(p1.1) {
      return;
    }
    assert FencedOrGone(s1.sites, former) by {
      if p1.1.Ok? {
        ReviseFrame(Fence, At(st.sites, former).cluster.value);
      }
    }
    var p2 := Flip(former, RoleRemote, s1, fates(DrainGet), fates(DrainUpdate));
    FlipIsCalm(former, RoleRemote, s1, fates(DrainGet), fates(DrainUpdate));
    s2, s3 := p2.0, p2.0;
    if !Tolerated(p2.1) {
      return;
    }
    var p3 := Apply(Promote, target, s2, fates(PromoteGet), fates(PromoteUpdate));
    s3 := p3.0;
    if p3.1.Err? {
      return;
    }
    FlipIsCalm(target, RoleLocal, s3, fates(RouteGet), fates(RouteUpdate));
  }

  /** Under every pattern of failures and at every crash point: a site turns from
      replica to primary only if it is the target, only once, and only when the
      old primary's Cluster is already fully fenced or gone; and that stays so. */
  lemma {:induction false} FenceBeforePromote(spec: Spec, former: string, target: string, s0: Sites, fates: Fates)
    ensures var st := RunPromotion(spec, former, target, Store(s0, []), fates).0;
      && Linked(s0, st)
      && (forall i: nat, n :: TurnAt(s0, st.trace, i, n) ==>
            && n == target != former
            && FencedOrGone(Before(s0, st.trace, i), former)
            && (forall k :: i <= k < |st.trace| ==> FencedOrGone(st.trace[k], former)))
      && (forall i: nat, j: nat, m, n :: TurnAt(s0, st.trace, i, m) && TurnAt(s0, st.trace, j, n) ==> i == j)
  {
    var st := Store(s0, []);
    var s1, s2, s3 := PromotionStages(spec, former, target, st, fates);
    StepIsCalm(Promote, target, s2, fates(PromoteGet), fates(PromoteUpdate));
    StagedTurns(s0, former, target, s1, s2, s3, RunPromotion(spec, former, target, st, fates).0);
  }

  lemma {:induction false} StagedTurns(
      s0: Sites, former: string, target: string, s1: Store, s2: Store, s3: Store, s4: Store)
    requires CalmMove(Store(s0, []), s1, former) && CalmMove(s1, s2, former) && CalmMove(s3, s4, target)
    requires s3 != s2 ==> former != target && FencedOrGone(s2.sites, former)
    requires OneMove(s2, s3, target)
    requires forall n :: TurnsPrimary(s2.sites, s3.sites, n) ==> n == target
    requires forall n :: FencedOrGone(s2.sites, n) ==> FencedOrGone(s3.sites, n)
    ensures Linked(s0, s4)
    ensures forall i: nat, n :: TurnAt(s0, s4.trace, i, n) ==>
              && n == target != former
              && FencedOrGone(Before(s0, s4.trace, i), former)
              && (forall k :: i <= k < |s4.trace| ==> FencedOrGone(s4.trace[k], former))
    ensures forall i: nat, j: nat, m, n :: TurnAt(s0, s4.trace, i, m) && TurnAt(s0, s4.trace, j, n) ==> i == j
  {
    MoveTurns(s0, Store(s0, []), s1, former);
    MoveTurns(s0, s1, s2, former);
    TurnsAreAtPromote(s0, target, s2, s3, s4);
    if s3 != s2 {
      StaysFenced(s0, former, target, s2, s3, s4);
    }
  }

  lemma {:induction false} TurnsAreAtPromote(s0: Sites, target: string, s2: Store, s3: Store, s4: Store)
    requires Linked(s0, s2) && OneMove(s2, s3, target) && CalmMove(s3, s4, target)
    requires forall i: nat, n :: !TurnAt(s0, s2.trace, i, n)
    ensures Linked(s0, s4)
    ensures forall i: nat, n :: TurnAt(s0, s4.trace, i, n) ==>
              i == |s2.trace| && s3 != s2 && TurnsPrimary(s2.sites, s3.sites, n)
  {
    MoveTurns(s0, s2, s3, target);
    MoveTurns(s0, s3, s4, target);
  }

  lemma {:induction false} StaysFenced(s0: Sites, former: string, target: string, s2: Store, s3: Store, s4: Store)
    requires Linked(s0, s2) && OneMove(s2, s3, target) && CalmMove(s3, s4, target) && s3 != s2
    requires FencedOrGone(s2.sites, former) && FencedOrGone(s3.sites, former)
    ensures |s2.trace| < |s4.trace| && FencedOrGone(Before(s0, s4.trace, |s2.trace|), former)
    ensures forall k :: |s2.trace| <= k < |s4.trace| ==> FencedOrGone(s4.trace[k], former)
  {
  }

  // ---- What a promotion leaves, and in which order ----

  /** The Service of a site is as it was, gone, or routed with that affinity. */
  ghost predicate RoutedOrGone(was: Site, now: Site, affinity: string) {
    now.service.Some? ==>
      was.service.Some? && CarriesRoute(was.service.value.annotations, now.service.value.annotations, affinity)
  }

  /** A promotion that succeeded: the old site is fenced and its Service sends traffic
      away, as far as they exist; the target is primary and its Service keeps traffic;
      every other site is as it was. */
  lemma {:induction false} PromotionOutcome(spec: Spec, former: string, target: string, s0: Sites, f: Fates)
    requires RunPromotion(spec, former, target, Store(s0, []), f).1.Ok?
    ensures var s := RunPromotion(spec, former, target, Store(s0, []), f).0.sites;
      && FencedOrGone(s, former) && RoutedOrGone(At(s0, former), At(s, former), "remote")
      && PrimaryAt(s, target) && At(s, target).service.Some? && RoutedOrGone(At(s0, target), At(s, target), "local")
      && (forall n :: n !in {former, target} ==> At(s, n) == At(s0, n))
  {
    var st := Store(s0, []);
    var s1 := Apply(Fence, former, st, f(FenceGet), f(FenceUpdate)).0;
    RetireOutcome(former, st, f);
    InstallOutcome(target, Flip(former, RoleRemote, s1, f(DrainGet), f(DrainUpdate)).0, f);
  }

  lemma {:induction false} RetireOutcome(former: string, st: Store, f: Fates)
    ensures var p1 := Apply(Fence, former, st, f(FenceGet), f(FenceUpdate));
      var p2 := Flip(former, RoleRemote, p1.0, f(DrainGet), f(DrainUpdate));
      && (Tolerated(p1.1) ==> FencedOrGone(p2.0.sites, former))
      && (Tolerated(p2.1) ==> RoutedOrGone(At(st.sites, former), At(p2.0.sites, former), "remote"))
      && (forall n :: n != former ==> At(p2.0.sites, n) == At(st.sites, n))
  {
    if At(st.sites, former).service.Some? {
      RouteExactly(At(st.sites, former).service.value);
    }
  }

  lemma {:induction false} InstallOutcome(target: string, st: Store, f: Fates)
    ensures var p3 := Apply(Promote, target, st, f(PromoteGet), f(PromoteUpdate));
      var p4 := Flip(target, RoleLocal, p3.0, f(RouteGet), f(RouteUpdate));
      && (p3.1.Ok? ==> PrimaryAt(p4.0.sites, target))
      && (p4.1.Ok? ==> && At(p4.0.sites, target).service.Some?
                       && RoutedOrGone(At(st.sites, target), At(p4.0.sites, target), "local"))
      && (forall n :: n != target ==> At(p4.0.sites, n) == At(st.sites, n))
  {
    if At(st.sites, target).service.Some? {
      RouteExactly(At(st.sites, target).service.value);
    }
  }

  /** The order of the writes, as any snapshot shows it: the old Service is turned away
      only behind a fence, the target's Cluster is touched only behind both, and its
      Service only once it is primary. */
  ghost predicate InOrder(former: string, target: string, s0: Sites, s: Sites) {
    && (At(s, former).service != At(s0, former).service ==> FencedOrGone(s, former))
    && (At(s, target).cluster != At(s0, target).cluster ==>
          FencedOrGone(s, former) && RoutedOrGone(At(s0, former), At(s, former), "remote"))
    && (At(s, target).service != At(s0, target).service ==> PrimaryAt(s, target))
    && (forall n :: n !in {former, target} ==> At(s, n) == At(s0, n))
  }

  ghost predicate AllInOrder(former: string, target: string, s0: Sites, st: Store) {
    InOrder(former, target, s0, st.sites) && forall x :: x in st.trace ==> InOrder(former, target, s0, x)
  }

  lemma {:induction false} PromotionIsOrdered(spec: Spec, former: string, target: string, s0: Sites, f: Fates)
    ensures AllInOrder(former, target, s0, RunPromotion(spec, former, target, Store(s0, []), f).0)
  {
    var st := Store(s0, []);
    if former == "" || former == target || !Resolves(spec, former, f(OldClient)) || f(NewClient) != Go {
      return;
    }
    var p1 := Apply(Fence, former, st, f(FenceGet), f(FenceUpdate));
    assert AllInOrder(former, target, s0, p1.0);
    if !Tolerated(p1.1) {
      return;
    }
    DrainInOrder(former, target, s0, p1.0, f);
    var p2 := Flip(former, RoleRemote, p1.0, f(DrainGet), f(DrainUpdate));
    if !Tolerated(p2.1) {
      return;
    }
    InstallInOrder(former, target, s0, p2.0, f);
  }

  lemma {:induction false} DrainInOrder(former: string, target: string, s0: Sites, st: Store, f: Fates)
    requires former != target && AllInOrder(former, target, s0, st) && FencedOrGone(st.sites, former)
    requires At(st.sites, target) == At(s0, target) && At(st.sites, former).service == At(s0, former).service
    ensures var p := Flip(former, RoleRemote, st, f(DrainGet), f(DrainUpdate));
      && AllInOrder(former, target, s0, p.0) && FencedOrGone(p.0.sites, former)
      && At(p.0.sites, target) == At(s0, target)
      && (Tolerated(p.1) ==> RoutedOrGone(At(s0, former), At(p.0.sites, former), "remote"))
  {
    if At(s0, former).service.Some? {
      RouteExactly(At(s0, former).service.value);
    }
  }

  lemma {:induction false} InstallInOrder(former: string, target: string, s0: Sites, st: Store, f: Fates)
    requires former != target && AllInOrder(former, target, s0, st) && FencedOrGone(st.sites, former)
    requires At(st.sites, target) == At(s0, target) && RoutedOrGone(At(s0, former), At(st.sites, former), "remote")
    ensures var p3 := Apply(Promote, target, st, f(PromoteGet), f(PromoteUpdate));
      && AllInOrder(former, target, s0, p3.0)
      && (p3.1.Ok? ==> AllInOrder(former, target, s0, Flip(target, RoleLocal, p3.0, f(RouteGet), f(RouteUpdate)).0))
  {
    var p3 := Apply(Promote, target, st, f(PromoteGet), f(PromoteUpdate));
    assert At(p3.0.sites, former) == At(st.sites, former);
    if p3.1.Ok? {
      assert PrimaryAt(p3.0.sites, target);
    }
  }
}
