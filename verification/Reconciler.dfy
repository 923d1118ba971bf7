/** HAClusterReconciler as the source writes it: an object whose methods read and
    write the hub, the sites and the counters, each proved against the function
    that says what one Reconcile does. */
module Reconciler {
  import opened Objects
  import opened HACluster
  import opened Promotion
  import opened Observation
  import opened Failover
  import opened Topology
  import opened Controller
  import Metrics

  class HAClusterReconciler {
    const api: Federation
    const metrics: Metrics.Collectors
    /** The HACluster as the hub persists it. */
    var hub: Hub
    /** The status of the HACluster object held in memory. */
    var mem: Status
    var failCount: Counters

    constructor (api: Federation, metrics: Metrics.Collectors, hub: Hub)
      ensures this.api == api && this.metrics == metrics && this.hub == hub && mem == hub.status && failCount == map[]
    {
      this.api, this.metrics, this.hub, this.mem, this.failCount := api, metrics, hub, hub.status, map[];
    }

    ghost function View(effect: Effect, failed: bool): Phase
      reads this, api
    {
      Phase(api.store, hub, mem, failCount, effect, failed)
    }

    method BumpFailCount(key: Key) returns (n: nat)
      modifies this`failCount
      ensures n == Count(old(failCount), key) + 1
      ensures failCount == old(failCount)[key := n]
    {
      if key !in failCount {
        failCount := failCount[key := 0];
      }
      failCount := failCount[key := failCount[key] + 1];
      return failCount[key];
    }

    method ResetFailCount(key: Key)
      modifies this`failCount
      ensures failCount == old(failCount) - {key}
    {
      failCount := failCount - {key};
    }

    method ClearPromoteAnnotation(f: Fate) returns (failed: bool)
      modifies this`hub, this`mem
      ensures View(NO_EFFECT, failed) == ClearAnnotation(old(View(NO_EFFECT, false)), f)
    {
      failed := f != Go;
      if f == Go || f == Lost {
        hub := hub.(promote := None);
      }
      if f == Go {
        mem := hub.status;
      }
    }

    method Promote(spec: Spec, former: string, target: string, fates: Fates) returns (r: Result<()>)
      modifies api
      ensures (api.store, r) == RunPromotion(spec, former, target, old(api.store), fates)
    {
      if former == "" {
        return Err(Failed);
      }
      if former == target {
        return Err(Failed);
      }
      var resolved := SiteClientAndRef(spec, former, fates(OldClient));
      if !resolved {
        return Err(Failed);
      }
      if fates(NewClient) != Go {
        return Err(Failed);
      }
      var fenced := api.FenceCluster(former, fates(FenceGet), fates(FenceUpdate));
      if fenced.Err? && fenced.error != NotFound {
        return Err(Failed);
      }
      var drained := api.FlipCiliumService(former, RoleRemote, fates(DrainGet), fates(DrainUpdate));
      if drained.Err? && drained.error != NotFound {
        return Err(Failed);
      }
      var promoted := api.PromoteCluster(target, fates(PromoteGet), fates(PromoteUpdate));
      if promoted.Err? {
        return Err(Failed);
      }
      var routed := api.FlipCiliumService(target, RoleLocal, fates(RouteGet), fates(RouteUpdate));
      if routed.Err? {
        return Err(Failed);
      }
      return Ok(());
    }

    method HandlePromoteAnnotation(spec: Spec, all: seq<Obs>, input: Inputs) returns (effect: Effect, failed: bool)
      requires |all| == |spec.replicas| + 1
      modifies this`hub, this`mem, api
      ensures View(effect, failed) == HandlePromote(spec, old(View(NO_EFFECT, false)), all, input)
    {
      effect, failed := NO_EFFECT, false;
      if hub.promote.None? {
        return;
      }
      var target := hub.promote.value;
      if spec.failover.mode != Manual {
        failed := ClearPromoteAnnotation(input.fates(ClearPatch));
        return;
      }
      var i := FindReplica(spec.replicas, target);
      if i == |spec.replicas| {
        failed := ClearPromoteAnnotation(input.fates(ClearPatch));
        return;
      }
      if !all[i + 1].reachable || !all[i + 1].ready || all[i + 1].primary {
        failed := ClearPromoteAnnotation(input.fates(ClearPatch));
        return;
      }
      if SplitBrain(all) {
        failed := ClearPromoteAnnotation(input.fates(ClearPatch));
        return;
      }
      var former := SiteToDemote(spec, mem, all);
      ghost var before := View(NO_EFFECT, false);
      var status := mem;
      mem := mem.(inProgress := true);
      var r := Promote(spec, former, target, input.fates);
      if r.Err? {
        mem := status.(inProgress := false);
        assert View(effect, true) == FinishManual(before, Effect(former, target), (api.store, r), input);
        return NO_EFFECT, true;
      }
      failed := ClearPromoteAnnotation(input.fates(ClearPatch));
      if failed {
        assert View(effect, true) == FinishManual(before, Effect(former, target), (api.store, r), input);
        return;
      }
      mem := Status(target, Some(Persisted(input.stamp)), false);
      effect := Effect(former, target);
      assert View(effect, false) == FinishManual(before, Effect(former, target), (api.store, r), input);
    }

    method HandleAutomaticFailover(
        spec: Spec, key: Key, all: seq<Obs>, input: Inputs) returns (effect: Effect, failed: bool)
      requires |all| == |spec.replicas| + 1
      modifies this`mem, this`failCount, api
      ensures View(effect, failed) == HandleAutomatic(spec, key, old(View(NO_EFFECT, false)), all, input)
    {
      effect, failed := NO_EFFECT, false;
      if spec.failover.mode != Automatic {
        return;
      }
      if SplitBrain(all) {
        ResetFailCount(key);
        return;
      }
      if mem.lastFailover.Some? {
        var since := input.check - mem.lastFailover.value;
        if since < Cooldown(spec.failover) {
          ResetFailCount(key);
          return;
        }
      }
      var former := Recorded(spec, mem);
      var cur := Find(all, former);
      if cur < |all| && all[cur].reachable && all[cur].primary && all[cur].ready {
        ResetFailCount(key);
        return;
      }
      assert Unhealthy(spec, mem, all, input.check);
      var n := BumpFailCount(key);
      if n < EffectiveThreshold(spec.failover) {
        return;
      }
      var best := ChooseTarget(all[1..], former, spec.failover.policy);
      if best.None? {
        return;
      }
      ghost var counted := View(NO_EFFECT, false);
      var target := spec.replicas[best.value].name;
      var status := mem;
      mem := mem.(inProgress := true);
      var r := Promote(spec, former, target, input.fates);
      if r.Err? {
        mem := status.(inProgress := false);
        assert View(effect, true) == FinishAutomatic(counted, key, Effect(former, target), (api.store, r), input);
        return NO_EFFECT, true;
      }
      mem := Status(target, Some(Persisted(input.stamp)), false);
      ResetFailCount(key);
      effect := Effect(former, target);
      assert View(effect, false) == FinishAutomatic(counted, key, Effect(former, target), (api.store, r), input);
    }

    /** Steps 3 and 3bis: the manual handler, then the automatic one unless it failed. */
    method RunHandlers(
        spec: Spec, key: Key, all: seq<Obs>, input: Inputs, ghost w: World)
        returns (effect: Effect, failed: bool)
      requires |all| == |spec.replicas| + 1
      requires View(NO_EFFECT, false) == Start(w)
      modifies this, api
      ensures var ph := Handle(spec, key, w, all, input);
              && View(ph.effect, failed) == ph
              && ApplyEffect(all, effect) == ApplyEffect(all, ph.effect)
    {
      effect, failed := HandlePromoteAnnotation(spec, all, input);
      PromoteHandlerShape(spec, Start(w), all, input);
      if !failed {
        assert spec.failover.mode == Automatic ==> effect == NO_EFFECT;
        var auto, autoFailed := HandleAutomaticFailover(spec, key, all, input);
        if autoFailed {
          failed := true;
        } else if auto.promoted != "" {
          effect := auto;
        }
      }
    }

    /** Steps 1 and 2: the declared primary, then each replica. */
    method ObserveAll(spec: Spec, input: Inputs) returns (buf: array<Obs>)
      ensures fresh(buf) && buf[..] == Observe(spec, api.store.sites, input)
    {
      var n := 1 + |spec.replicas|;
      ghost var seen := Observe(spec, api.store.sites, input);
      buf := new Obs[n](_ => Unreachable(""));
      for i := 0 to n
        invariant forall j :: 0 <= j < i ==> buf[j] == seen[j]
      {
        buf[i] := ObserveSite(spec, api.store.sites, input, i);
      }
      assert buf[..] == seen;
    }

    /** One Reconcile, started with an empty trace, is the function `Reconcile`. */
    method ReconcileOnce(spec: Spec, key: Key, input: Inputs) returns (ok: bool)
      requires api.store.trace == []
      modifies this, api, metrics
      ensures var o := Reconcile(spec, key, World(old(api.store.sites), old(hub), old(failCount)), input);
              && api.store == o.store && hub == o.hub && failCount == o.counters && ok == o.ok
              && metrics.View() == Metrics.PublishAll(old(metrics.View()), key, o.all, o.decided)
              && metrics.splitBrain == old(metrics.splitBrain)[key := Metrics.Gauge(SplitBrain(o.all))]
    {
      mem := hub.status;
      var prior := mem.current;
      ghost var w := World(api.store.sites, hub, failCount);
      ghost var seen := Observe(spec, w.sites, input);

      var buf := ObserveAll(spec, input);
      var effect, failed := RunHandlers(spec, key, buf[..], input, w);
      ghost var ph := Handle(spec, key, w, seen, input);
      ok := Finish(spec, key, prior, buf, effect, failed, input, ph.effect);
      assert Reconcile(spec, key, w, input) == Conclude(spec, prior, seen, ph, input);
    }

    /** Steps 4 to 6: decide, publish, save the status, converge the topology. */
    method Finish(
        spec: Spec, key: Key, prior: string, buf: array<Obs>, effect: Effect, failed: bool, input: Inputs,
        ghost held: Effect)
        returns (ok: bool)
      requires ApplyEffect(buf[..], effect) == ApplyEffect(buf[..], held)
      modifies this`hub, this`mem, api, metrics, buf
      ensures var o := Conclude(spec, prior, old(buf[..]), old(View(held, failed)), input);
              && api.store == o.store && hub == o.hub && failCount == o.counters && ok == o.ok
              && metrics.View() == Metrics.PublishAll(old(metrics.View()), key, o.all, o.decided)
              && metrics.splitBrain == old(metrics.splitBrain)[key := Metrics.Gauge(SplitBrain(o.all))]
    {
      ghost var seen, ph := buf[..], View(held, failed);
      ok := FinishDecided(spec, key, prior, buf, effect, failed, input, held);
      ConcludeDecides(spec, prior, seen, ph, input);
    }

    method FinishDecided(
        spec: Spec, key: Key, prior: string, buf: array<Obs>, effect: Effect, failed: bool, input: Inputs,
        ghost held: Effect)
        returns (ok: bool)
      modifies this`hub, this`mem, api, metrics, buf
      ensures var all := ApplyEffect(old(buf[..]), effect);
              var o := Decided(spec, prior, all, Decide(all), old(View(held, failed)), input);
              && api.store == o.store && hub == o.hub && failCount == o.counters && ok == o.ok
              && metrics.View() == Metrics.PublishAll(old(metrics.View()), key, all, Decide(all))
              && metrics.splitBrain == old(metrics.splitBrain)[key := Metrics.Gauge(SplitBrain(all))]
    {
      var decided := DecideAndPublish(key, buf, effect);
      ok := SaveAndConverge(spec, prior, buf, decided, failed, input, held);
    }

    method DecideAndPublish(key: Key, buf: array<Obs>, effect: Effect) returns (decided: string)
      modifies metrics, buf
      ensures buf[..] == ApplyEffect(old(buf[..]), effect) && decided == Decide(buf[..])
      ensures metrics.View() == Metrics.PublishAll(old(metrics.View()), key, buf[..], decided)
      ensures metrics.splitBrain == old(metrics.splitBrain)[key := Metrics.Gauge(SplitBrain(buf[..]))]
    {
      ApplyPromotionEffect(buf, effect);
      var names := PrimaryReadyCandidates(buf);
      decided := if |names| == 1 then names[0] else "";
      metrics.PublishMetrics(key, decided, |names| > 1, buf[..]);
    }

    method SaveAndConverge(
        spec: Spec, prior: string, buf: array<Obs>, decided: string, failed: bool, input: Inputs, ghost held: Effect)
        returns (ok: bool)
      modifies this`hub, this`mem, api
      ensures var o := Decided(spec, prior, buf[..], decided, old(View(held, failed)), input);
              api.store == o.store && hub == o.hub && failCount == o.counters && ok == o.ok
    {
      mem := mem.(current := if decided != "" then decided else prior);
      var f := input.fates(StatusUpdate);
      if f == Go || f == Lost {
        hub := hub.(status := mem);
      }
      if f != Go {
        return false;
      }
      if failed {
        return false;
      }
      ok := ReconcileReplicaTopology(spec, buf, if decided != "" then decided else prior, api, input.fates);
    }
  }
}
