/** reconcileReplicaTopology: every other site is made to follow the primary. */
module Topology {
  import opened Objects
  import opened HACluster
  import opened Promotion
  import opened Observation
  import opened Failover

  /** What the pass asks of a site freshly read as `c`. */
  function Wanted(rejoin: RejoinPolicy, c: Cluster, endpoint: string): Edit {
    if IsPrimary(c) && rejoin != AutoReplica then Fence else Reconfigure(endpoint)
  }

  /** The pass acts on entry `i`: not the primary, client resolved, fresh read served. */
  predicate Visits(spec: Spec, all: seq<Obs>, primary: string, i: nat, sites: Sites, fates: Fates)
    requires i < |all|
  {
    && all[i].name != primary
    && Resolves(spec, all[i].name, fates(TopologyClient(i)))
    && fates(TopologyProbe(i)) == Go
    && At(sites, all[i].name).cluster.Some?
  }

  function VisitSite(spec: Spec, all: seq<Obs>, endpoint: string, i: nat, st: Store, fates: Fates): (Store, Result<()>)
    requires i < |all| && At(st.sites, all[i].name).cluster.Some?
  {
    Apply(Wanted(spec.failover.rejoin, At(st.sites, all[i].name).cluster.value, endpoint),
          all[i].name, st, fates(TopologyGet(i)), fates(TopologyUpdate(i)))
  }

  /** The loop from entry `i` on; the second component is the entry it stopped at,
      `|all|` when it ran to the end. */
  function PassFrom(spec: Spec, all: seq<Obs>, primary: string, endpoint: string, i: nat, st: Store, fates: Fates)
      : (r: (Store, nat))
    requires i <= |all|
    ensures i <= r.1 <= |all|
    decreases |all| - i
  {
    if i == |all| then (st, i)
    else if !Visits(spec, all, primary, i, st.sites, fates) then
      PassFrom(spec, all, primary, endpoint, i + 1, st, fates)
    else
      var (st1, done) := VisitSite(spec, all, endpoint, i, st, fates);
      if done.Err? then (st1, i) else PassFrom(spec, all, primary, endpoint, i + 1, st1, fates)
  }

  function Pass(spec: Spec, all: seq<Obs>, primary: string, st: Store, fates: Fates): (r: (Store, nat))
    ensures r.1 <= |all|
  {
    if primary == "" || Endpoint(spec, primary) == "" then (st, |all|)
    else PassFrom(spec, all, primary, Endpoint(spec, primary), 0, st, fates)
  }

  /** The loop as the source writes it. */
  method ReconcileReplicaTopology(spec: Spec, buf: array<Obs>, primary: string, api: Federation, fates: Fates)
      returns (ok: bool)
    modifies api
    ensures (api.store, ok) == (var r := Pass(spec, buf[..], primary, old(api.store), fates); (r.0, r.1 == buf.Length))
  {
    if primary == "" {
      return true;
    }
    var endpoint := ReplicationEndpointFor(spec, primary);
    if endpoint == "" {
      return true;
    }
    ghost var all := buf[..];
    for i := 0 to buf.Length
      invariant PassFrom(spec, all, primary, endpoint, 0, old(api.store), fates)
             == PassFrom(spec, all, primary, endpoint, i, api.store, fates)
    {
      var obs := buf[i];
      assert obs == all[i];
      if obs.name == primary {
        continue;
      }
      var resolved := SiteClientAndRef(spec, obs.name, fates(TopologyClient(i)));
      if !resolved {
        continue;
      }
      var seen := Probe(obs.name, At(api.store.sites, obs.name), fates(TopologyProbe(i)) == Go, None);
      if !seen.reachable {
        continue;
      }
      if seen.primary && spec.failover.rejoin != AutoReplica {
        var fenced := api.FenceCluster(obs.name, fates(TopologyGet(i)), fates(TopologyUpdate(i)));
        if fenced.Err? {
          return false;
        }
      } else {
        var repointed := api.ReconfigureCluster(obs.name, endpoint, fates(TopologyGet(i)), fates(TopologyUpdate(i)));
        if repointed.Err? {
          return false;
        }
      }
    }
    return true;
  }

  // ---- What one pass does ----

  /** The site follows the primary: a replica streaming from the endpoint, or,
      unless the policy rebuilds it, a fenced stray primary. */
  predicate Follows(rejoin: RejoinPolicy, c: Cluster, endpoint: string) {
    || (!IsPrimary(c) && StreamsFrom(c) == Some(endpoint))
    || (rejoin != AutoReplica && IsPrimary(c) && IsFenced(c))
  }

  lemma {:induction false} VisitMakesFollower(rejoin: RejoinPolicy, c: Cluster, endpoint: string)
    requires endpoint != "" && Revise(Wanted(rejoin, c, endpoint), c).Ok?
    ensures Follows(rejoin, Revise(Wanted(rejoin, c, endpoint), c).value, endpoint)
  {
    ReviseFrame(Wanted(rejoin, c, endpoint), c);
  }

  lemma {:induction false} FollowerIsLeftAlone(rejoin: RejoinPolicy, c: Cluster, endpoint: string)
    requires endpoint != "" && Follows(rejoin, c, endpoint)
    ensures Revise(Wanted(rejoin, c, endpoint), c) == Ok(c)
  {
    if IsPrimary(c) {
      assert c.annotations[FENCED_INSTANCES := ALL_INSTANCES] == c.annotations;
    } else {
      var i := Selected(c.externals, c.source).value;
      assert c.externals[i].params["host" := endpoint] == c.externals[i].params;
      assert c.externals[i := c.externals[i]] == c.externals;
    }
  }

  /** The pass from entry `i` leaves alone the primary, every site it did not come
      to, and every Service. */
  lemma {:induction false} PassFrame(
      spec: Spec, all: seq<Obs>, primary: string, endpoint: string, i: nat, st: Store, fates: Fates)
    requires i <= |all|
    ensures var r := PassFrom(spec, all, primary, endpoint, i, st, fates);
      && (forall n :: (n == primary || forall j :: i <= j <= r.1 && j < |all| ==> all[j].name != n) ==>
            At(r.0.sites, n) == At(st.sites, n))
      && (forall n :: At(r.0.sites, n).service == At(st.sites, n).service)
    decreases |all| - i
  {
    if i < |all| {
      if !Visits(spec, all, primary, i, st.sites, fates) {
        PassFrame(spec, all, primary, endpoint, i + 1, st, fates);
      } else {
        var r := VisitSite(spec, all, endpoint, i, st, fates);
        if r.1.Ok? {
          PassFrame(spec, all, primary, endpoint, i + 1, r.0, fates);
        }
      }
    }
  }

  /** A site freshly read as `c` does what the pass asks of it: the calls are served as
      far as they are needed, and a Cluster to be repointed has an external cluster to
      point. */
  ghost predicate Yields(rejoin: RejoinPolicy, c: Cluster, endpoint: string, get: Fate, update: Fate) {
    && get == Go && (Follows(rejoin, c, endpoint) || update == Go)
    && ((IsPrimary(c) && rejoin != AutoReplica) || Repointable(c))
  }

  lemma {:induction false} VisitExactly(spec: Spec, all: seq<Obs>, endpoint: string, i: nat, st: Store, fates: Fates)
    requires i < |all| && At(st.sites, all[i].name).cluster.Some? && endpoint != ""
    ensures VisitSite(spec, all, endpoint, i, st, fates).1.Ok? <==>
              Yields(spec.failover.rejoin, At(st.sites, all[i].name).cluster.value, endpoint,
                     fates(TopologyGet(i)), fates(TopologyUpdate(i)))
  {
    var c := At(st.sites, all[i].name).cluster.value;
    var e := Wanted(spec.failover.rejoin, c, endpoint);
    ApplyExactly(e, all[i].name, st, fates(TopologyGet(i)), fates(TopologyUpdate(i)));
    ReconfigureExactly(c, endpoint);
    if Revise(e, c).Ok? {
      VisitMakesFollower(spec.failover.rejoin, c, endpoint);
    }
    if Follows(spec.failover.rejoin, c, endpoint) {
      FollowerIsLeftAlone(spec.failover.rejoin, c, endpoint);
    }
  }

  /** The entry is not acted on, or does what it is asked. */
  ghost predicate Passes(
      spec: Spec, all: seq<Obs>, primary: string, endpoint: string, j: nat, sites: Sites, fates: Fates)
    requires j < |all|
  {
    Visits(spec, all, primary, j, sites, fates) ==>
      Yields(spec.failover.rejoin, At(sites, all[j].name).cluster.value, endpoint,
             fates(TopologyGet(j)), fates(TopologyUpdate(j)))
  }

  /** A visit decides nothing about the entries after it. */
  lemma {:induction false} OthersPassAlike(
      spec: Spec, all: seq<Obs>, primary: string, endpoint: string, i: nat, st: Store, fates: Fates)
    requires UniqueNames(all) && i < |all| && At(st.sites, all[i].name).cluster.Some?
    ensures var after := VisitSite(spec, all, endpoint, i, st, fates).0.sites;
      forall j :: i < j < |all| ==>
        (Passes(spec, all, primary, endpoint, j, after, fates)
         <==> Passes(spec, all, primary, endpoint, j, st.sites, fates))
  {
    var after := VisitSite(spec, all, endpoint, i, st, fates).0.sites;
    forall j | i < j < |all|
      ensures Passes(spec, all, primary, endpoint, j, after, fates)
         <==> Passes(spec, all, primary, endpoint, j, st.sites, fates)
    {
      assert At(after, all[j].name) == At(st.sites, all[j].name);
    }
  }

  /** Where the pass stops, from its inputs alone: at the first entry that it acts on
      and that does not yield, and at the end if there is none. */
  lemma {:induction false} PassStopsExactly(
      spec: Spec, all: seq<Obs>, primary: string, endpoint: string, i: nat, st: Store, fates: Fates)
    requires endpoint != "" && UniqueNames(all) && i <= |all|
    ensures var stop := PassFrom(spec, all, primary, endpoint, i, st, fates).1;
      && (forall j :: i <= j < stop ==> Passes(spec, all, primary, endpoint, j, st.sites, fates))
      && (stop < |all| ==> !Passes(spec, all, primary, endpoint, stop, st.sites, fates))
    decreases |all| - i
  {
    if i < |all| {
      if !Visits(spec, all, primary, i, st.sites, fates) {
        PassStopsExactly(spec, all, primary, endpoint, i + 1, st, fates);
      } else {
        var r := VisitSite(spec, all, endpoint, i, st, fates);
        VisitExactly(spec, all, endpoint, i, st, fates);
        if r.1.Ok? {
          PassStopsExactly(spec, all, primary, endpoint, i + 1, r.0, fates);
          OthersPassAlike(spec, all, primary, endpoint, i, st, fates);
        }
      }
    }
  }

  /** Sites the pass cannot get through to are left alone. */
  lemma {:induction false} PassLeavesUnreached(
      spec: Spec, all: seq<Obs>, primary: string, endpoint: string, i: nat, st: Store, fates: Fates, j: nat)
    requires UniqueNames(all) && i <= |all| && j < |all|
    requires !Resolves(spec, all[j].name, fates(TopologyClient(j))) || fates(TopologyProbe(j)) != Go
    ensures At(PassFrom(spec, all, primary, endpoint, i, st, fates).0.sites, all[j].name) == At(st.sites, all[j].name)
    decreases |all| - i
  {
    if i < |all| {
      if !Visits(spec, all, primary, i, st.sites, fates) {
        PassLeavesUnreached(spec, all, primary, endpoint, i + 1, st, fates, j);
      } else {
        var r := VisitSite(spec, all, endpoint, i, st, fates);
        assert all[i].name != all[j].name;
        if r.1.Ok? {
          PassLeavesUnreached(spec, all, primary, endpoint, i + 1, r.0, fates, j);
        }
      }
    }
  }

  /** A pass converges what it visited before it stopped: entry `j` ends as a
      follower. */
  lemma {:induction false} PassConverges(
      spec: Spec, all: seq<Obs>, primary: string, endpoint: string, i: nat, st: Store, fates: Fates, j: nat)
    requires endpoint != "" && UniqueNames(all) && i <= j < |all|
    requires j < PassFrom(spec, all, primary, endpoint, i, st, fates).1
    requires Visits(spec, all, primary, j, st.sites, fates)
    ensures var c := At(PassFrom(spec, all, primary, endpoint, i, st, fates).0.sites, all[j].name).cluster;
            c.Some? && Follows(spec.failover.rejoin, c.value, endpoint)
    decreases |all| - i
  {
    if i == j {
      var r := VisitSite(spec, all, endpoint, i, st, fates);
      VisitMakesFollower(spec.failover.rejoin, At(st.sites, all[i].name).cluster.value, endpoint);
      PassFrame(spec, all, primary, endpoint, i + 1, r.0, fates);
    } else if !Visits(spec, all, primary, i, st.sites, fates) {
      PassConverges(spec, all, primary, endpoint, i + 1, st, fates, j);
    } else {
      var r := VisitSite(spec, all, endpoint, i, st, fates);
      assert At(r.0.sites, all[j].name) == At(st.sites, all[j].name);
      PassConverges(spec, all, primary, endpoint, i + 1, r.0, fates, j);
    }
  }

  lemma {:induction false} PassConvergesAll(
      spec: Spec, all: seq<Obs>, primary: string, endpoint: string, st: Store, fates: Fates)
    requires endpoint != "" && UniqueNames(all)
    ensures var r := PassFrom(spec, all, primary, endpoint, 0, st, fates);
      forall j :: 0 <= j < r.1 && Visits(spec, all, primary, j, st.sites, fates) ==>
        At(r.0.sites, all[j].name).cluster.Some?
        && Follows(spec.failover.rejoin, At(r.0.sites, all[j].name).cluster.value, endpoint)
  {
    var r := PassFrom(spec, all, primary, endpoint, 0, st, fates);
    forall j | 0 <= j < r.1 && Visits(spec, all, primary, j, st.sites, fates)
      ensures At(r.0.sites, all[j].name).cluster.Some?
      ensures Follows(spec.failover.rejoin, At(r.0.sites, all[j].name).cluster.value, endpoint)
    {
      PassConverges(spec, all, primary, endpoint, 0, st, fates, j);
    }
  }

  /** One successful pass ends any split-brain: among the sites it could reach and
      the primary, only the primary can still be a writer, and every reached site
      is a fenced stray or a replica of the primary's endpoint. */
  lemma {:induction false} PassEndsSplitBrain(spec: Spec, all: seq<Obs>, primary: string, st: Store, fates: Fates)
    requires UniqueNames(all) && primary != "" && Endpoint(spec, primary) != ""
    requires Pass(spec, all, primary, st, fates).1 == |all|
    ensures var after := Pass(spec, all, primary, st, fates).0.sites;
      && At(after, primary) == At(st.sites, primary)
      && (forall j :: 0 <= j < |all| && Visits(spec, all, primary, j, st.sites, fates) ==>
            && At(after, all[j].name).cluster.Some?
            && Follows(spec.failover.rejoin, At(after, all[j].name).cluster.value, Endpoint(spec, primary))
            && !WriterAt(after, all[j].name))
  {
    PassConvergesAll(spec, all, primary, Endpoint(spec, primary), st, fates);
    PassFrame(spec, all, primary, Endpoint(spec, primary), 0, st, fates);
  }

  /** If the pass stops with an error at entry `k`, the entries before `k` it
      visited are converged and the entries after `k` are untouched. */
  lemma {:induction false} FailedPassIsOrdered(spec: Spec, all: seq<Obs>, primary: string, st: Store, fates: Fates)
    requires UniqueNames(all) && primary != "" && Endpoint(spec, primary) != ""
    ensures var r := Pass(spec, all, primary, st, fates);
      && (forall j :: 0 <= j < r.1 && Visits(spec, all, primary, j, st.sites, fates) ==>
            && At(r.0.sites, all[j].name).cluster.Some?
            && Follows(spec.failover.rejoin, At(r.0.sites, all[j].name).cluster.value, Endpoint(spec, primary)))
      && (forall j :: r.1 < j < |all| ==> At(r.0.sites, all[j].name) == At(st.sites, all[j].name))
  {
    var r := Pass(spec, all, primary, st, fates);
    PassConvergesAll(spec, all, primary, Endpoint(spec, primary), st, fates);
    PassFrame(spec, all, primary, Endpoint(spec, primary), 0, st, fates);
    forall j | r.1 < j < |all|
      ensures At(r.0.sites, all[j].name) == At(st.sites, all[j].name)
    {
      assert forall k :: 0 <= k <= r.1 && k < |all| ==> all[k].name != all[j].name;
    }
  }

  /** A pass over followers only commits nothing. */
  lemma {:induction false} QuietPass(
      spec: Spec, all: seq<Obs>, primary: string, endpoint: string, i: nat, st: Store, fates: Fates)
    requires i <= |all| && endpoint != ""
    requires forall j :: i <= j < |all| && Visits(spec, all, primary, j, st.sites, fates) ==>
               && Follows(spec.failover.rejoin, At(st.sites, all[j].name).cluster.value, endpoint)
               && fates(TopologyGet(j)) != Vanish
    ensures PassFrom(spec, all, primary, endpoint, i, st, fates).0 == st
    decreases |all| - i
  {
    if i < |all| {
      if Visits(spec, all, primary, i, st.sites, fates) {
        FollowerIsLeftAlone(spec.failover.rejoin, At(st.sites, all[i].name).cluster.value, endpoint);
      }
      QuietPass(spec, all, primary, endpoint, i + 1, st, fates);
    }
  }

  /** The pass is a fixpoint: after a successful pass, a second one that reaches no
      further site commits nothing, whatever else fails in it. */
  lemma {:induction false} PassReachesFixpoint(
      spec: Spec, all: seq<Obs>, primary: string, st: Store, fates: Fates, again: Fates)
    requires UniqueNames(all)
    requires Pass(spec, all, primary, st, fates).1 == |all|
    requires forall j: nat :: again(TopologyClient(j)) == Go ==> fates(TopologyClient(j)) == Go
    requires forall j: nat :: again(TopologyProbe(j)) == Go ==> fates(TopologyProbe(j)) == Go
    requires forall j: nat :: again(TopologyGet(j)) != Vanish
    ensures var st1 := Pass(spec, all, primary, st, fates).0;
            Pass(spec, all, primary, st1, again).0 == st1
  {
    var st1 := Pass(spec, all, primary, st, fates).0;
    if primary != "" && Endpoint(spec, primary) != "" {
      PassConvergesAll(spec, all, primary, Endpoint(spec, primary), st, fates);
      PassKeepsClusters(spec, all, primary, Endpoint(spec, primary), 0, st, fates);
      QuietPass(spec, all, primary, Endpoint(spec, primary), 0, st1, again);
    }
  }

  /** The pass creates no Cluster. */
  lemma {:induction false} PassKeepsClusters(
      spec: Spec, all: seq<Obs>, primary: string, endpoint: string, i: nat, st: Store, fates: Fates)
    requires i <= |all|
    ensures var r := PassFrom(spec, all, primary, endpoint, i, st, fates);
            forall n :: At(r.0.sites, n).cluster.Some? ==> At(st.sites, n).cluster.Some?
    decreases |all| - i
  {
    if i < |all| {
      if !Visits(spec, all, primary, i, st.sites, fates) {
        PassKeepsClusters(spec, all, primary, endpoint, i + 1, st, fates);
      } else {
        var r := VisitSite(spec, all, endpoint, i, st, fates);
        if r.1.Ok? {
          PassKeepsClusters(spec, all, primary, endpoint, i + 1, r.0, fates);
        }
      }
    }
  }

  /** Non-interference: two buffers that list the same names give the same pass,
      whatever roles and health they record. */
  lemma {:induction false} PassIgnoresObservedRoles(
      spec: Spec, all: seq<Obs>, all': seq<Obs>, primary: string, endpoint: string, i: nat, st: Store, fates: Fates)
    requires |all| == |all'| && forall j :: 0 <= j < |all| ==> all[j].name == all'[j].name
    requires i <= |all|
    ensures PassFrom(spec, all, primary, endpoint, i, st, fates)
         == PassFrom(spec, all', primary, endpoint, i, st, fates)
    decreases |all| - i
  {
    if i < |all| {
      if !Visits(spec, all, primary, i, st.sites, fates) {
        PassIgnoresObservedRoles(spec, all, all', primary, endpoint, i + 1, st, fates);
      } else {
        var r := VisitSite(spec, all, endpoint, i, st, fates);
        if r.1.Ok? {
          PassIgnoresObservedRoles(spec, all, all', primary, endpoint, i + 1, r.0, fates);
        }
      }
    }
  }
}
