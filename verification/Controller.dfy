/** One Reconcile of an HACluster as a function of the federation, the hub, the
    failure counters and everything the environment decides. */
module Controller {
  import opened Objects
  import opened HACluster
  import opened Lsn
  import opened Observation
  import opened Failover
  import opened Topology

  /** The namespace and name of an HACluster. */
  datatype Key = Key(namespace: string, name: string)

  type Counters = map<Key, nat>

  /** What the environment decides during one Reconcile: the fate of each call, the
      answer of each SQL probe, and the two clock readings (cooldown check, then
      failover timestamp). */
  datatype Inputs = Inputs(fates: Fates, sql: nat -> Option<Answer>, check: int, stamp: int)

  /** The world one Reconcile starts from. */
  datatype World = World(sites: Sites, hub: Hub, counters: Counters)

  function ObserveSite(spec: Spec, sites: Sites, input: Inputs, i: nat): (o: Obs)
    requires i < |SiteSpecs(spec)|
    ensures o.name == SiteSpecs(spec)[i].name
    ensures o.reachable <==>
              && (i == 0 || input.fates(ObserveClient(i)) == Go) && input.fates(ObserveGet(i)) == Go
              && At(sites, o.name).cluster.Some?
    ensures o.reachable ==>
              && (o.primary <==> PrimaryAt(sites, o.name))
              && (o.ready <==> At(sites, o.name).cluster.value.readyInstances > 0)
    ensures o.wal == (if o.ready then ParsedWal(input.sql(i)) else None)
    ensures o.lag == (if o.wal.Some? then input.sql(i).value.lag else None)
  {
    var n := SiteSpecs(spec)[i].name;
    Probe(n, At(sites, n), (i == 0 || input.fates(ObserveClient(i)) == Go) && input.fates(ObserveGet(i)) == Go,
          input.sql(i))
  }

  function Observe(spec: Spec, sites: Sites, input: Inputs): (all: seq<Obs>)
    ensures |all| == |SiteSpecs(spec)|
    ensures forall i :: 0 <= i < |all| ==> all[i] == ObserveSite(spec, sites, input, i)
  {
    seq(|SiteSpecs(spec)|, i requires 0 <= i < |SiteSpecs(spec)| => ObserveSite(spec, sites, input, i))
  }

  /** Where the handlers leave things: the API state, the hub object, the status
      held in memory, the counters, the effect to mirror, and whether to fail. */
  datatype Phase = Phase(
    store: Store, hub: Hub, mem: Status, counters: Counters, effect: Effect, failed: bool)

  /** clearPromoteAnnotation: a merge patch.  Its reply replaces the object in
      memory, so unsaved status changes are forgotten. */
  function ClearAnnotation(ph: Phase, f: Fate): Phase {
    var cleared := ph.hub.(promote := None);
    match f
    case Go => ph.(hub := cleared, mem := ph.hub.status)
    case Lost => ph.(hub := cleared, failed := true)
    case _ => ph.(failed := true)
  }

  function FindReplica(reps: seq<SiteSpec>, n: string): (r: nat)
    ensures r <= |reps|
    ensures r < |reps| ==> reps[r].name == n
    ensures forall j :: 0 <= j < r ==> reps[j].name != n
  {
    FirstNamed(reps, (r: SiteSpec) => r.name, n)
  }

  /** currentPrimaryForPromotion; split-brain is excluded by the caller. */
  function SiteToDemote(spec: Spec, status: Status, all: seq<Obs>): string {
    if status.current != "" then status.current
    else if |Claimants(all)| == 1 then Claimants(all)[0]
    else spec.primary.name
  }

  /** A manual promotion demotes the recorded primary; while none is recorded, the
      only site observed as a healthy primary; and the declared one as a last resort. */
  lemma {:induction false} DemotesThePrimary(spec: Spec, status: Status, all: seq<Obs>)
    ensures status.current != "" ==> SiteToDemote(spec, status, all) == status.current
    ensures forall i :: status.current == "" && OnlyClaimant(all, i) ==> SiteToDemote(spec, status, all) == all[i].name
    ensures status.current == "" && !SplitBrain(all) && (forall i :: 0 <= i < |all| ==> !Claims(all[i])) ==>
              SiteToDemote(spec, status, all) == spec.primary.name
  {
    NoClaimants(all);
    forall i | OnlyClaimant(all, i)
      ensures Claimants(all) == [all[i].name]
    {
      DecideExact(all, i);
    }
  }

  /** The promotion an annotation asks for, if it is acceptable. */
  function ManualTarget(spec: Spec, hub: Hub, all: seq<Obs>): (r: Option<nat>)
    requires |all| == |spec.replicas| + 1
    ensures r.Some? ==> r.value < |spec.replicas|
  {
    if hub.promote.None? || spec.failover.mode != Manual then None else
    var i := FindReplica(spec.replicas, hub.promote.value);
    if i == |spec.replicas| then None
    else if !all[i + 1].reachable || !all[i + 1].ready || all[i + 1].primary then None
    else if SplitBrain(all) then None
    else Some(i)
  }

  /** The end of a manual attempt, given what runPromotion did. */
  function FinishManual(ph: Phase, e: Effect, r: (Store, Result<()>), input: Inputs): Phase {
    if r.1.Err? then ph.(store := r.0, mem := ph.mem.(inProgress := false), failed := true) else
    var cleared := ClearAnnotation(ph.(store := r.0, mem := ph.mem.(inProgress := true)), input.fates(ClearPatch));
    if cleared.failed then cleared
    else cleared.(mem := Status(e.promoted, Some(Persisted(input.stamp)), false), effect := e)
  }

  /** handlePromoteAnnotation. */
  function HandlePromote(spec: Spec, ph: Phase, all: seq<Obs>, input: Inputs): Phase
    requires |all| == |spec.replicas| + 1
  {
    if ph.hub.promote.None? then ph else
    match ManualTarget(spec, ph.hub, all)
    case None => ClearAnnotation(ph, input.fates(ClearPatch))
    case Some(i) =>
      var e := Effect(SiteToDemote(spec, ph.mem, all), spec.replicas[i].name);
      FinishManual(ph, e, RunPromotion(spec, e.demoted, e.promoted, ph.store, input.fates), input)
  }

  function Count(c: Counters, k: Key): nat {
    if k in c then c[k] else 0
  }

  predicate Cooling(spec: Spec, status: Status, now: int) {
    status.lastFailover.Some? && now - status.lastFailover.value < Cooldown(spec.failover)
  }

  predicate Healthy(spec: Spec, status: Status, all: seq<Obs>) {
    var i := Find(all, Recorded(spec, status));
    i < |all| && Claims(all[i])
  }

  /** The automatic handler counts this call as a failure of the primary. */
  predicate Unhealthy(spec: Spec, status: Status, all: seq<Obs>, now: int) {
    !SplitBrain(all) && !Cooling(spec, status, now) && !Healthy(spec, status, all)
  }

  /** The primary has failed, by what was observed: nobody or one site claims, the
      cooldown since the last recorded promotion is over, and the recorded primary
      is not among those that claim. */
  ghost predicate PrimaryFailed(spec: Spec, status: Status, all: seq<Obs>, now: int) {
    && !TwoClaims(all)
    && (status.lastFailover.Some? ==> now >= status.lastFailover.value + Cooldown(spec.failover))
    && !ClaimsAs(all, if status.current != "" then status.current else spec.primary.name)
  }

  lemma {:induction false} UnhealthyExactly(spec: Spec, status: Status, all: seq<Obs>, now: int)
    ensures Unhealthy(spec, status, all, now) <==> PrimaryFailed(spec, status, all, now)
  {
    SplitBrainExactly(all);
  }

  /** The replica an automatic failover would promote now. */
  function AutomaticTarget(spec: Spec, status: Status, count: nat, all: seq<Obs>, now: int): (r: Option<nat>)
    requires |all| == |spec.replicas| + 1
    ensures r.Some? ==> r.value < |spec.replicas|
  {
    if !Unhealthy(spec, status, all, now) || count + 1 < EffectiveThreshold(spec.failover) then None
    else Choose(all[1..], Recorded(spec, status), spec.failover.policy)
  }

  /** Under MostAdvancedLSN the target of an automatic failover reports, as text, the
      greatest pair of a high and a low word of all eligible replicas that report one. */
  lemma {:induction false} TargetHasGreatestPosition(
      spec: Spec, status: Status, count: nat, sites: Sites, input: Inputs, i: nat, j: nat)
      returns (hi: string, lo: string, hi': string, lo': string)
    requires spec.failover.policy == MostAdvancedLSN && i < |spec.replicas| && j < |spec.replicas|
    requires AutomaticTarget(spec, status, count, Observe(spec, sites, input), input.check) == Some(i)
    requires Eligible(Observe(spec, sites, input)[1..], Recorded(spec, status), j)
    requires Observe(spec, sites, input)[j + 1].wal.Some?
    ensures var best := Observe(spec, sites, input)[i + 1].wal; var other := Observe(spec, sites, input)[j + 1].wal;
      && best.Some? && best.value.text == hi + "/" + lo && IsWord(hi) && IsWord(lo)
      && other.value.text == hi' + "/" + lo' && IsWord(hi') && IsWord(lo')
      && (HexValue(hi) > HexValue(hi') || (HexValue(hi) == HexValue(hi') && HexValue(lo) >= HexValue(lo')))
  {
    var all := Observe(spec, sites, input);
    ChooseIsStableBest(all[1..], Recorded(spec, status), MostAdvancedLSN, i);
    assert all[1..][i] == all[i + 1] && all[1..][j] == all[j + 1];
    assert !MoreAdvanced(all[j + 1], all[i + 1]);
    hi', lo', hi, lo := AdvancedByWords(all[j + 1], all[i + 1]);
  }

  /** Otherwise ties and the policy decide: without positions the greatest timeline, and
      among equals, or under any other policy, the first in spec order. */
  lemma {:induction false} TargetBreaksTies(
      spec: Spec, status: Status, count: nat, all: seq<Obs>, now: int, i: nat, j: nat)
    requires |all| == |spec.replicas| + 1 && j < |spec.replicas|
    requires AutomaticTarget(spec, status, count, all, now) == Some(i)
    requires var o := all[j + 1]; o.name != Recorded(spec, status) && o.reachable && o.ready && !o.primary
    ensures i < |spec.replicas| && (spec.failover.policy != MostAdvancedLSN ==> i <= j)
    ensures var best, o := all[i + 1], all[j + 1];
      spec.failover.policy == MostAdvancedLSN ==>
        && (best.wal.None? ==> o.wal.None? && (best.timeline > o.timeline || (best.timeline == o.timeline && i <= j)))
        && (best.wal.Some? && o.wal.Some? && best.wal.value.value == o.wal.value.value ==> i <= j)
  {
    ChooseIsStableBest(all[1..], Recorded(spec, status), spec.failover.policy, i);
    assert all[1..][i] == all[i + 1] && all[1..][j] == all[j + 1];
    assert Eligible(all[1..], Recorded(spec, status), j);
  }

  /** The end of an automatic attempt; only a completed one resets the counter. */
  function FinishAutomatic(ph: Phase, key: Key, e: Effect, r: (Store, Result<()>), input: Inputs): Phase {
    if r.1.Err? then ph.(store := r.0, mem := ph.mem.(inProgress := false), failed := true)
    else ph.(store := r.0, mem := Status(e.promoted, Some(Persisted(input.stamp)), false),
             counters := ph.counters - {key}, effect := e)
  }

  /** handleAutomaticFailover. */
  function HandleAutomatic(spec: Spec, key: Key, ph: Phase, all: seq<Obs>, input: Inputs): Phase
    requires |all| == |spec.replicas| + 1
  {
    if spec.failover.mode != Automatic then ph
    else if !Unhealthy(spec, ph.mem, all, input.check) then ph.(counters := ph.counters - {key})
    else
      var n := Count(ph.counters, key) + 1;
      var counted := ph.(counters := ph.counters[key := n]);
      match AutomaticTarget(spec, ph.mem, n - 1, all, input.check)
      case None => counted
      case Some(i) =>
        var e := Effect(Recorded(spec, ph.mem), spec.replicas[i].name);
        FinishAutomatic(counted, key, e, RunPromotion(spec, e.demoted, e.promoted, ph.store, input.fates), input)
  }

  function Start(w: World): Phase {
    Phase(Store(w.sites, []), w.hub, w.hub.status, w.counters, NO_EFFECT, false)
  }

  function Handle(spec: Spec, key: Key, w: World, all: seq<Obs>, input: Inputs): Phase
    requires |all| == |spec.replicas| + 1
  {
    var ph := HandlePromote(spec, Start(w), all, input);
    if ph.failed then ph else HandleAutomatic(spec, key, ph, all, input)
  }

  /** What one Reconcile leaves behind. */
  datatype Outcome = Outcome(
    store: Store, hub: Hub, counters: Counters, all: seq<Obs>, decided: string, effect: Effect, ok: bool)

  function EndWorld(o: Outcome): World {
    World(o.store.sites, o.hub, o.counters)
  }

  /** The status Reconcile tries to persist. */
  function NextStatus(mem: Status, prior: string, decided: string): Status {
    mem.(current := if decided != "" then decided else prior)
  }

  /** The status survives this Reconcile's attempt to persist it. */
  predicate Saves(input: Inputs) {
    input.fates(StatusUpdate) in {Go, Lost}
  }

  /** The rest of Reconcile after the handlers: mirror the effect, decide, save the
      status, and converge the topology unless something failed. */
  function Conclude(spec: Spec, prior: string, seen: seq<Obs>, ph: Phase, input: Inputs): Outcome {
    var all := ApplyEffect(seen, ph.effect);
    Decided(spec, prior, all, Decide(all), ph, input)
  }

  /** The same once the primary is decided from the observations. */
  function Decided(spec: Spec, prior: string, all: seq<Obs>, decided: string, ph: Phase, input: Inputs): Outcome {
    var saved := ph.hub.(status := NextStatus(ph.mem, prior, decided));
    match input.fates(StatusUpdate)
    case Go =>
      if ph.failed then Outcome(ph.store, saved, ph.counters, all, decided, ph.effect, false) else
      var (st, stop) := Pass(spec, all, if decided != "" then decided else prior, ph.store, input.fates);
      Outcome(st, saved, ph.counters, all, decided, ph.effect, stop == |all|)
    case Lost => Outcome(ph.store, saved, ph.counters, all, decided, ph.effect, false)
    case _ => Outcome(ph.store, ph.hub, ph.counters, all, decided, ph.effect, false)
  }

  /** Conclude changes the federation only by a topology pass, and the recorded
      primary only to the decided one. */
  lemma {:induction false} DecidedShape(
      spec: Spec, prior: string, all: seq<Obs>, decided: string, ph: Phase, input: Inputs)
    requires ph.hub.status.current == prior
    ensures var o := Decided(spec, prior, all, decided, ph, input);
      var primary := if decided != "" then decided else prior;
      && (|| o.store == ph.store
          || o.store == PassFrom(spec, all, primary, Endpoint(spec, primary), 0, ph.store, input.fates).0)
      && (ph.failed || input.fates(StatusUpdate) != Go ==> o.store == ph.store)
      && o.all == all && o.effect == ph.effect && o.counters == ph.counters
      && o.hub.status.lastFailover == (if Saves(input) then ph.mem.lastFailover else ph.hub.status.lastFailover)
      && o.hub.status.inProgress == (if Saves(input) then ph.mem.inProgress else ph.hub.status.inProgress)
      && o.hub.status.current in {prior, primary}
  {
  }

  lemma {:induction false} ConcludeShape(spec: Spec, prior: string, seen: seq<Obs>, ph: Phase, input: Inputs)
      returns (primary: string, all: seq<Obs>)
    requires ph.hub.status.current == prior
    ensures var o := Conclude(spec, prior, seen, ph, input);
      && (|| o.store == ph.store
          || o.store == PassFrom(spec, all, primary, Endpoint(spec, primary), 0, ph.store, input.fates).0)
      && (ph.failed || input.fates(StatusUpdate) != Go ==> o.store == ph.store)
      && o.all == ApplyEffect(seen, ph.effect) && o.effect == ph.effect && o.counters == ph.counters
      && o.hub.status.lastFailover == (if Saves(input) then ph.mem.lastFailover else ph.hub.status.lastFailover)
      && o.hub.status.inProgress == (if Saves(input) then ph.mem.inProgress else ph.hub.status.inProgress)
      && o.hub.status.current in {prior, Decide(o.all)}
      && (o.hub.status.current != prior ==> |Claimants(o.all)| == 1 && Decide(o.all) != "")
  {
    all := ApplyEffect(seen, ph.effect);
    primary := if Decide(all) != "" then Decide(all) else prior;
    DecidedShape(spec, prior, all, Decide(all), ph, input);
  }

  lemma {:induction false} ConcludeDecides(spec: Spec, prior: string, seen: seq<Obs>, ph: Phase, input: Inputs)
    ensures var all := ApplyEffect(seen, ph.effect); var o := Conclude(spec, prior, seen, ph, input);
      o == Decided(spec, prior, all, Decide(all), ph, input) && o.all == all && o.decided == Decide(all)
  {
  }

  function Reconcile(spec: Spec, key: Key, w: World, input: Inputs): Outcome {
    var seen := Observe(spec, w.sites, input);
    Conclude(spec, w.hub.status.current, seen, Handle(spec, key, w, seen, input), input)
  }

  // ---- The promotion of one Reconcile ----

  /** A promotion Reconcile attempts: who is demoted, which replica is promoted. */
  datatype Attempt = Attempt(former: string, target: string, manual: bool)

  function AttemptOf(spec: Spec, key: Key, w: World, all: seq<Obs>, input: Inputs): Option<Attempt>
    requires |all| == |spec.replicas| + 1
  {
    var manual := ManualTarget(spec, w.hub, all);
    if manual.Some? then
      Some(Attempt(SiteToDemote(spec, w.hub.status, all), spec.replicas[manual.value].name, true))
    else if spec.failover.mode != Automatic || (w.hub.promote.Some? && input.fates(ClearPatch) != Go) then None
    else match AutomaticTarget(spec, w.hub.status, Count(w.counters, key), all, input.check)
         case None => None
         case Some(i) => Some(Attempt(Recorded(spec, w.hub.status), spec.replicas[i].name, false))
  }

  /** Exactly when a Reconcile attempts a manual promotion, and of what: the mode is
      Manual, an annotation names a replica that was observed as a healthy one, and
      no two sites claim. */
  lemma {:induction false} ManualAttemptExactly(
      spec: Spec, key: Key, w: World, all: seq<Obs>, input: Inputs, target: string)
    requires |all| == |spec.replicas| + 1
    ensures AttemptOf(spec, key, w, all, input) == Some(Attempt(SiteToDemote(spec, w.hub.status, all), target, true))
      <==> && spec.failover.mode == Manual && w.hub.promote == Some(target) && !TwoClaims(all)
           && exists i :: 0 <= i < |spec.replicas| && spec.replicas[i].name == target
                          && (forall j :: 0 <= j < i ==> spec.replicas[j].name != target)
                          && all[i + 1].reachable && all[i + 1].ready && !all[i + 1].primary
    ensures forall a :: AttemptOf(spec, key, w, all, input) == Some(a) && a.manual ==>
              a.former == SiteToDemote(spec, w.hub.status, all)
  {
    SplitBrainExactly(all);
  }

  /** Nothing is attempted while two sites claim to be primary. */
  lemma {:induction false} SplitBrainSuspends(spec: Spec, key: Key, w: World, all: seq<Obs>, input: Inputs)
    requires |all| == |spec.replicas| + 1 && TwoClaims(all)
    ensures AttemptOf(spec, key, w, all, input).None?
  {
    SplitBrainExactly(all);
  }

  /** What the handlers do to the annotation: `r` is what runPromotion did, if it ran. */
  lemma {:induction false} HandlersClear(spec: Spec, key: Key, w: World, all: seq<Obs>, input: Inputs)
    requires |all| == |spec.replicas| + 1
    ensures var a := AttemptOf(spec, key, w, all, input);
      var refused := a.Some? && a.value.manual
        && RunPromotion(spec, a.value.former, a.value.target, Store(w.sites, []), input.fates).1.Err?;
      Handle(spec, key, w, all, input).hub.promote ==
        if input.fates(ClearPatch) in {Go, Lost} && !refused then None else w.hub.promote
  {
  }

  /** How an attempt shows in the phase it ends: `r` is what runPromotion did. */
  ghost predicate Shows(a: Attempt, r: (Store, Result<()>), ph: Phase, status: Status, input: Inputs) {
    var done := r.1.Ok? && (a.manual ==> input.fates(ClearPatch) == Go);
    && ph.store == r.0
    && ph.failed == !done
    && ph.effect == (if done then Effect(a.former, a.target) else NO_EFFECT)
    && ph.mem.lastFailover == (if done then Some(Persisted(input.stamp)) else status.lastFailover)
    && ph.mem.inProgress == (r.1.Ok? && !done)
  }

  lemma {:induction false} FinishManualShape(ph: Phase, a: Attempt, r: (Store, Result<()>), input: Inputs)
    requires ph.mem == ph.hub.status && ph.effect == NO_EFFECT && !ph.failed && a.manual
    ensures var ph' := FinishManual(ph, Effect(a.former, a.target), r, input);
            Shows(a, r, ph', ph.mem, input) && ph'.hub.status == ph.hub.status && ph'.counters == ph.counters
  {
  }

  lemma {:induction false} PromoteHandlerShape(spec: Spec, ph: Phase, all: seq<Obs>, input: Inputs)
    requires |all| == |spec.replicas| + 1 && ph.mem == ph.hub.status
    requires ph.effect == NO_EFFECT && !ph.failed
    ensures var ph' := HandlePromote(spec, ph, all, input);
      && ph'.hub.status == ph.hub.status && ph'.counters == ph.counters
      && match ManualTarget(spec, ph.hub, all)
         case None =>
           && ph'.mem == ph.mem && ph'.store == ph.store && ph'.effect == NO_EFFECT
           && ph'.failed == (ph.hub.promote.Some? && input.fates(ClearPatch) != Go)
         case Some(i) =>
           var a := Attempt(SiteToDemote(spec, ph.mem, all), spec.replicas[i].name, true);
           Shows(a, RunPromotion(spec, a.former, a.target, ph.store, input.fates), ph', ph.mem, input)
  {
    match ManualTarget(spec, ph.hub, all)
    case None =>
    case Some(i) =>
      var a := Attempt(SiteToDemote(spec, ph.mem, all), spec.replicas[i].name, true);
      FinishManualShape(ph, a, RunPromotion(spec, a.former, a.target, ph.store, input.fates), input);
  }

  lemma {:induction false} AutomaticHandlerShape(spec: Spec, key: Key, ph: Phase, all: seq<Obs>, input: Inputs)
    requires |all| == |spec.replicas| + 1 && spec.failover.mode == Automatic
    requires ph.effect == NO_EFFECT && !ph.failed
    ensures var ph' := HandleAutomatic(spec, key, ph, all, input);
      && ph'.hub == ph.hub
      && match AutomaticTarget(spec, ph.mem, Count(ph.counters, key), all, input.check)
         case None => ph'.mem == ph.mem && ph'.store == ph.store && ph'.effect == NO_EFFECT && !ph'.failed
         case Some(i) =>
           var a := Attempt(Recorded(spec, ph.mem), spec.replicas[i].name, false);
           Shows(a, RunPromotion(spec, a.former, a.target, ph.store, input.fates), ph', ph.mem, input)
  {
  }

  /** The handlers together make at most one attempt, and their visible result is
      that attempt's: the API state is exactly what runPromotion left, the effect
      is reported exactly when the attempt completed, and the hub's status is not
      written before the end. */
  lemma {:induction false} HandlersMakeOneAttempt(spec: Spec, key: Key, w: World, all: seq<Obs>, input: Inputs)
    requires |all| == |spec.replicas| + 1
    ensures var ph := Handle(spec, key, w, all, input);
      && ph.hub.status == w.hub.status
      && match AttemptOf(spec, key, w, all, input)
         case None => && ph.store == Store(w.sites, []) && ph.effect == NO_EFFECT
                      && ph.mem == w.hub.status
                      && ph.failed == (w.hub.promote.Some? && input.fates(ClearPatch) != Go)
         case Some(a) =>
           Shows(a, RunPromotion(spec, a.former, a.target, Store(w.sites, []), input.fates), ph, w.hub.status, input)
  {
    PromoteHandlerShape(spec, Start(w), all, input);
    var ph := HandlePromote(spec, Start(w), all, input);
    if !ph.failed && spec.failover.mode == Automatic {
      AutomaticHandlerShape(spec, key, ph, all, input);
    }
  }
}
