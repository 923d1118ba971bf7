/** An interrupted promotion, rerun, ends where an uninterrupted one does. */
module Rerun {
  import opened Objects
  import opened HACluster
  import opened Promotion
  import opened Failover

  function Retired(site: Site): Site {
    Site(if site.cluster.Some? then Some(Revise(Fence, site.cluster.value).value) else None,
         if site.service.Some? then Some(Routed(site.service.value, RoleRemote)) else None)
  }

  predicate Promotable(site: Site) {
    site.cluster.Some? && site.cluster.value.flag != Malformed
  }

  function Installed(site: Site): Site {
    if !Promotable(site) then site
    else Site(Some(Revise(Promote, site.cluster.value).value),
              if site.service.Some? then Some(Routed(site.service.value, RoleLocal)) else None)
  }

  /** The goal of a promotion, said without any sequence of calls: the old site
      retired, the target installed, every other site as it was. */
  function Settled(former: string, target: string, s: Sites): Sites {
    map n | n in s :: if n == former then Retired(s[n]) else if n == target then Installed(s[n]) else s[n]
  }

  const ALL_GO: Fates := (s: Step) => Go

  ghost predicate MaySucceed(spec: Spec, former: string, target: string) {
    former != "" && former != target && Declared(spec, former)
  }

  function Put(s: Sites, n: string, site: Site): Sites {
    if n in s then s[n := site] else s
  }

  lemma {:induction false} CleanRetire(former: string, st: Store)
    ensures var s1 := Apply(Fence, former, st, Go, Go);
            var s2 := Flip(former, RoleRemote, s1.0, Go, Go);
            && Tolerated(s1.1) && Tolerated(s2.1)
            && s2.0.sites == Put(st.sites, former, Retired(At(st.sites, former)))
  {
  }

  lemma {:induction false} CleanInstall(target: string, st: Store)
    ensures var s3 := Apply(Promote, target, st, Go, Go);
            var s4 := Flip(target, RoleLocal, s3.0, Go, Go);
            && (s3.1.Ok? <==> Promotable(At(st.sites, target)))
            && (s3.1.Err? ==> s3.0.sites == Put(st.sites, target, Installed(At(st.sites, target))))
            && (s3.1.Ok? ==> s4.0.sites == Put(st.sites, target, Installed(At(st.sites, target))))
            && (s3.1.Ok? ==> (s4.1.Ok? <==> At(st.sites, target).service.Some?))
  {
  }

  lemma {:induction false} SettledInTwo(former: string, target: string, s: Sites)
    requires former != target
    ensures var mid := Put(s, former, Retired(At(s, former)));
            && At(mid, target) == At(s, target)
            && Settled(former, target, s) == Put(mid, target, Installed(At(mid, target)))
  {
  }

  /** Without failures runPromotion reaches the goal, and it succeeds exactly when
      the target has a promotable Cluster and a `-rw` Service. */
  lemma {:induction false} CleanRunSettles(spec: Spec, former: string, target: string, s: Sites)
    requires MaySucceed(spec, former, target)
    ensures var r := RunPromotion(spec, former, target, Store(s, []), ALL_GO);
            r.0.sites == Settled(former, target, s)
            && r.1 == if Promotable(At(s, target)) && At(s, target).service.Some? then Ok(()) else Err(Failed)
  {
    var st := Store(s, []);
    var s1 := Apply(Fence, former, st, Go, Go);
    var s2 := Flip(former, RoleRemote, s1.0, Go, Go);
    CleanRetire(former, st);
    CleanInstall(target, s2.0);
    SettledInTwo(former, target, s);
  }

  /** `s'` is `s` with some of the work of the promotion already done. */
  ghost predicate Toward(former: string, target: string, s: Sites, s': Sites) {
    && Settled(former, target, s') == Settled(former, target, s)
    && Promotable(At(s', target)) == Promotable(At(s, target))
    && At(s', target).service.Some? == At(s, target).service.Some?
  }

  lemma {:induction false} FenceIsToward(former: string, target: string, st: Store, get: Fate, update: Fate)
    requires former != target && Vanish !in {get, update}
    ensures Toward(former, target, st.sites, Apply(Fence, former, st, get, update).0.sites)
  {
    if At(st.sites, former).cluster.Some? {
      ReviseIdempotent(Fence, At(st.sites, former).cluster.value);
    }
    assert Settled(former, target, st.sites)
        == Settled(former, target, Apply(Fence, former, st, get, update).0.sites);
  }

  lemma {:induction false} RouteIsIdempotent(s: Service, role: Role)
    ensures Routed(Routed(s, role), role) == Routed(s, role)
  {
  }

  lemma {:induction false} DrainIsToward(former: string, target: string, st: Store, get: Fate, update: Fate)
    requires former != target && Vanish !in {get, update}
    ensures Toward(former, target, st.sites, Flip(former, RoleRemote, st, get, update).0.sites)
  {
    if At(st.sites, former).service.Some? {
      RouteIsIdempotent(At(st.sites, former).service.value, RoleRemote);
    }
    assert Settled(former, target, st.sites)
        == Settled(former, target, Flip(former, RoleRemote, st, get, update).0.sites);
  }

  lemma {:induction false} PromoteIsToward(former: string, target: string, st: Store, get: Fate, update: Fate)
    requires former != target && Vanish !in {get, update}
    ensures Toward(former, target, st.sites, Apply(Promote, target, st, get, update).0.sites)
  {
  }

  lemma {:induction false} RouteIsToward(former: string, target: string, st: Store, get: Fate, update: Fate)
    requires former != target && Vanish !in {get, update} && Promotable(At(st.sites, target))
    ensures Toward(former, target, st.sites, Flip(target, RoleLocal, st, get, update).0.sites)
  {
    if At(st.sites, target).service.Some? {
      RouteIsIdempotent(At(st.sites, target).service.value, RoleLocal);
    }
    assert Settled(former, target, st.sites)
        == Settled(former, target, Flip(target, RoleLocal, st, get, update).0.sites);
  }

  ghost predicate AllToward(former: string, target: string, s0: Sites, st: Store) {
    && Linked(s0, st) && Toward(former, target, s0, st.sites)
    && (forall x :: x in st.trace ==> Toward(former, target, s0, x))
  }

  lemma {:induction false} MoveToward(former: string, target: string, s0: Sites, st: Store, st': Store, k: string)
    requires AllToward(former, target, s0, st) && OneMove(st, st', k) && Toward(former, target, st.sites, st'.sites)
    ensures AllToward(former, target, s0, st')
  {
    MoveTurns(s0, st, st', k);
  }

  /** Every snapshot of every failing run still has the same goal. */
  lemma {:induction false} SnapshotsAreToward(spec: Spec, former: string, target: string, s0: Sites, fates: Fates)
    requires forall s :: fates(s) != Vanish
    requires former != target
    ensures AllToward(former, target, s0, RunPromotion(spec, former, target, Store(s0, []), fates).0)
  {
    var st := Store(s0, []);
    assert AllToward(former, target, s0, st);
    if former == "" || !Resolves(spec, former, fates(OldClient)) || fates(NewClient) != Go {
      return;
    }
    var s1 := Apply(Fence, former, st, fates(FenceGet), fates(FenceUpdate));
    FenceIsToward(former, target, st, fates(FenceGet), fates(FenceUpdate));
    MoveToward(former, target, s0, st, s1.0, former);
    if !Tolerated(s1.1) {
      return;
    }
    var s2 := Flip(former, RoleRemote, s1.0, fates(DrainGet), fates(DrainUpdate));
    DrainIsToward(former, target, s1.0, fates(DrainGet), fates(DrainUpdate));
    MoveToward(former, target, s0, s1.0, s2.0, former);
    if !Tolerated(s2.1) {
      return;
    }
    var s3 := Apply(Promote, target, s2.0, fates(PromoteGet), fates(PromoteUpdate));
    PromoteIsToward(former, target, s2.0, fates(PromoteGet), fates(PromoteUpdate));
    MoveToward(former, target, s0, s2.0, s3.0, target);
    if s3.1.Err? {
      return;
    }
    RouteIsToward(former, target, s3.0, fates(RouteGet), fates(RouteUpdate));
    MoveToward(former, target, s0, s3.0, Flip(target, RoleLocal, s3.0, fates(RouteGet), fates(RouteUpdate)).0, target);
  }

  /** Crash after any number of committed writes, under any failures short of a
      deletion, then rerun without failures: the Clusters, the Services and the
      result are those of a single clean run. */
  lemma {:induction false} InterruptedRunConverges(
      spec: Spec, former: string, target: string, s0: Sites, fates: Fates, crash: nat)
    requires forall s :: fates(s) != Vanish
    requires crash <= |RunPromotion(spec, former, target, Store(s0, []), fates).0.trace|
    ensures var left := Before(s0, RunPromotion(spec, former, target, Store(s0, []), fates).0.trace, crash);
            var rerun := RunPromotion(spec, former, target, Store(left, []), ALL_GO);
            var clean := RunPromotion(spec, former, target, Store(s0, []), ALL_GO);
            rerun.0.sites == clean.0.sites && rerun.1 == clean.1
  {
    var trace := RunPromotion(spec, former, target, Store(s0, []), fates).0.trace;
    var left := Before(s0, trace, crash);
    if former != target {
      SnapshotsAreToward(spec, former, target, s0, fates);
      assert Toward(former, target, s0, left);
      if MaySucceed(spec, former, target) {
        CleanRunSettles(spec, former, target, s0);
        CleanRunSettles(spec, former, target, left);
      }
    }
  }
}
