/** How often automatic failover can act: failure counters and the cooldown. */
module Pacing {
  import opened Objects
  import opened HACluster
  import opened Observation
  import opened Failover
  import opened Controller
  import opened Runs

  // ---- Failure counters of many HAClusters ----

  /** One event in the life of the operator process: a Reconcile of some HACluster,
      with everything it read, or a restart, which empties its memory. */
  datatype Event = Reconciled(key: Key, spec: Spec, sites: Sites, hub: Hub, input: Inputs) | Restarted

  type History = seq<Event>

  /** The counters held in memory after a history. */
  function CountersAfter(h: History): Counters {
    if h == [] then map[] else
    match h[|h| - 1]
    case Restarted => map[]
    case Reconciled(k, spec, sites, hub, input) =>
      Reconcile(spec, k, World(sites, hub, CountersAfter(h[..|h| - 1])), input).counters
  }

  function OutcomeAt(h: History, i: nat): Outcome
    requires i < |h| && h[i].Reconciled?
  {
    Reconcile(h[i].spec, h[i].key, World(h[i].sites, h[i].hub, CountersAfter(h[..i])), h[i].input)
  }

  /** The automatic handler runs: the mode is Automatic and no annotation is in the
      way (one found in this mode must first be cleared). */
  predicate Handles(e: Event, k: Key) {
    && e.Reconciled? && e.key == k && e.spec.failover.mode == Automatic
    && (e.hub.promote.None? || e.input.fates(ClearPatch) == Go)
  }

  ghost predicate Failure(e: Event, k: Key) {
    Handles(e, k) && PrimaryFailed(e.spec, e.hub.status, Observe(e.spec, e.sites, e.input), e.input.check)
  }

  /** Event `i` sets the count of `k` back: a restart, or a handled call that found
      the primary healthy, a split-brain or a cooldown, or that completed a failover. */
  ghost predicate Resets(h: History, i: nat, k: Key)
    requires i < |h|
  {
    h[i].Restarted? || (Handles(h[i], k) && (!Failure(h[i], k) || OutcomeAt(h, i).effect != NO_EFFECT))
  }

  /** The failures of `k` from event `m` on. */
  ghost function Failures(h: History, m: nat, k: Key): nat
    requires m <= |h|
  {
    if m == |h| then 0 else Failures(h[..|h| - 1], m, k) + (if Failure(h[|h| - 1], k) then 1 else 0)
  }

  /** What one Reconcile does to the counters. */
  lemma {:induction false} ReconcileCounts(spec: Spec, key: Key, w: World, input: Inputs)
    ensures var e := Reconciled(key, spec, w.sites, w.hub, input); var o := Reconcile(spec, key, w, input);
      && (forall k :: k != key ==> Count(o.counters, k) == Count(w.counters, k))
      && Count(o.counters, key) ==
           (if !Handles(e, key) then Count(w.counters, key)
            else if !Failure(e, key) || o.effect != NO_EFFECT then 0
            else Count(w.counters, key) + 1)
  {
    var seen := Observe(spec, w.sites, input);
    var ph := Handle(spec, key, w, seen, input);
    HandlersMakeOneAttempt(spec, key, w, seen, input);
    HandleCounts(spec, key, w, seen, input);
    UnhealthyExactly(spec, w.hub.status, seen, input.check);
    var _, _ := ConcludeShape(spec, w.hub.status.current, seen, ph, input);
  }

  lemma {:induction false} HandleCounts(spec: Spec, key: Key, w: World, all: seq<Obs>, input: Inputs)
    requires |all| == |spec.replicas| + 1
    ensures var ph := Handle(spec, key, w, all, input);
      && (forall k :: k != key ==> Count(ph.counters, k) == Count(w.counters, k))
      && Count(ph.counters, key) ==
           (if spec.failover.mode != Automatic || (w.hub.promote.Some? && input.fates(ClearPatch) != Go)
            then Count(w.counters, key)
            else if !Unhealthy(spec, w.hub.status, all, input.check) || ph.effect != NO_EFFECT then 0
            else Count(w.counters, key) + 1)
  {
    PromoteHandlerShape(spec, Start(w), all, input);
    var ph := HandlePromote(spec, Start(w), all, input);
    if !ph.failed && spec.failover.mode == Automatic {
      AutomaticHandlerCounts(spec, key, ph, all, input);
    }
  }

  lemma {:induction false} AutomaticHandlerCounts(spec: Spec, key: Key, ph: Phase, all: seq<Obs>, input: Inputs)
    requires |all| == |spec.replicas| + 1 && spec.failover.mode == Automatic && ph.effect == NO_EFFECT
    ensures var ph' := HandleAutomatic(spec, key, ph, all, input);
      && (forall k :: k != key ==> Count(ph'.counters, k) == Count(ph.counters, k))
      && Count(ph'.counters, key) ==
           (if !Unhealthy(spec, ph.mem, all, input.check) || ph'.effect != NO_EFFECT then 0
            else Count(ph.counters, key) + 1)
  {
  }

  /** For every interleaving of Reconciles of any HAClusters, the count of a key is
      the number of its failures since its last reset. */
  lemma {:induction false} CounterIsItsHistory(h: History, k: Key) returns (m: nat)
    ensures m <= |h|
    ensures m > 0 ==> Resets(h, m - 1, k)
    ensures forall i :: m <= i < |h| ==> !Resets(h, i, k)
    ensures Count(CountersAfter(h), k) == Failures(h, m, k)
  {
    if h == [] {
      return 0;
    }
    m := CounterIsItsHistory(h[..|h| - 1], k);
    LastEventCounts(h, k);
    PrefixResets(h, k);
    if Resets(h, |h| - 1, k) {
      m := |h|;
    }
  }

  /** What the last event does to the count of a key. */
  lemma {:induction false} LastEventCounts(h: History, k: Key)
    requires h != []
    ensures var last := |h| - 1;
      Count(CountersAfter(h), k) ==
        if Resets(h, last, k) then 0 else Count(CountersAfter(h[..last]), k) + (if Failure(h[last], k) then 1 else 0)
  {
    var e := h[|h| - 1];
    if e.Reconciled? {
      ReconcileCounts(e.spec, e.key, World(e.sites, e.hub, CountersAfter(h[..|h| - 1])), e.input);
    }
  }

  lemma {:induction false} PrefixResets(h: History, k: Key)
    requires h != []
    ensures forall i :: 0 <= i < |h| - 1 ==> Resets(h[..|h| - 1], i, k) == Resets(h, i, k)
  {
    forall i | 0 <= i < |h| - 1
      ensures Resets(h[..|h| - 1], i, k) == Resets(h, i, k)
    {
      assert h[..|h| - 1][..i] == h[..i];
    }
  }

  /** The next Reconcile of `k` attempts an automatic promotion exactly when the
      handler runs, counts a failure, the failures since the last reset have
      reached the threshold (at least 2) with it, and some replica is eligible. */
  lemma {:induction false} AttemptNeedsThreshold(h: History, e: Event, k: Key) returns (m: nat)
    requires e.Reconciled? && e.key == k
    ensures m <= |h| && (m > 0 ==> Resets(h, m - 1, k)) && (forall i :: m <= i < |h| ==> !Resets(h, i, k))
    ensures var w := World(e.sites, e.hub, CountersAfter(h));
      var all := Observe(e.spec, e.sites, e.input);
      var attempt := AttemptOf(e.spec, k, w, all, e.input);
      (attempt.Some? && !attempt.value.manual) <==>
        && Failure(e, k)
        && Failures(h, m, k) + 1 >= EffectiveThreshold(e.spec.failover) >= 2
        && exists i :: 0 < i < |all| && Candidate(all[i], Recorded(e.spec, e.hub.status))
  {
    m := CounterIsItsHistory(h, k);
    var all := Observe(e.spec, e.sites, e.input);
    AutomaticAttemptExactly(e.spec, k, World(e.sites, e.hub, CountersAfter(h)), all, e.input);
  }

  /** In terms of the count: when a Reconcile attempts an automatic promotion. */
  lemma {:induction false} AutomaticAttemptExactly(spec: Spec, key: Key, w: World, all: seq<Obs>, input: Inputs)
    requires |all| == |spec.replicas| + 1
    ensures var attempt := AttemptOf(spec, key, w, all, input);
      (attempt.Some? && !attempt.value.manual) <==>
        && spec.failover.mode == Automatic && (w.hub.promote.None? || input.fates(ClearPatch) == Go)
        && PrimaryFailed(spec, w.hub.status, all, input.check)
        && Count(w.counters, key) + 1 >= EffectiveThreshold(spec.failover)
        && exists i :: 0 < i < |all| && Candidate(all[i], Recorded(spec, w.hub.status))
  {
    UnhealthyExactly(spec, w.hub.status, all, input.check);
    ChoiceExists(all, Recorded(spec, w.hub.status), spec.failover.policy);
  }

  lemma {:induction false} ChoiceExists(all: seq<Obs>, former: string, policy: PromotionPolicy)
    requires all != []
    ensures Choose(all[1..], former, policy).Some? <==> exists i :: 0 < i < |all| && Candidate(all[i], former)
  {
    ChooseIsStableBest(all[1..], former, policy, 0);
    if i :| 0 < i < |all| && Candidate(all[i], former) {
      assert all[1..][i - 1] == all[i];
      assert Eligible(all[1..], former, i - 1);
    }
    if j :| 0 <= j < |all[1..]| && Eligible(all[1..], former, j) {
      assert all[1..][j] == all[j + 1];
    }
  }

  /** A recorded primary observed reachable, primary and ready is left alone: no automatic
      promotion is attempted, and a handled call leaves no failure counted. */
  lemma {:induction false} HealthyPrimaryIsLeftAlone(spec: Spec, key: Key, w: World, input: Inputs)
    requires ClaimsAs(Observe(spec, w.sites, input), Recorded(spec, w.hub.status))
    ensures var a := AttemptOf(spec, key, w, Observe(spec, w.sites, input), input); a.Some? ==> a.value.manual
    ensures Handles(Reconciled(key, spec, w.sites, w.hub, input), key) ==>
              Count(Reconcile(spec, key, w, input).counters, key) == 0
  {
    AutomaticAttemptExactly(spec, key, w, Observe(spec, w.sites, input), input);
    ReconcileCounts(spec, key, w, input);
  }

  /** What one event means for the count of a key. */
  datatype Beat = Beat(handled: bool, completed: bool, before: nat, after: nat)

  function BeatAt(h: History, k: Key, i: nat): Beat
    requires i < |h|
  {
    var before := Count(CountersAfter(h[..i]), k);
    if h[i].Restarted? then Beat(false, false, before, 0) else
    var o := OutcomeAt(h, i);
    Beat(Handles(h[i], k), Handles(h[i], k) && o.effect != NO_EFFECT, before, Count(o.counters, k))
  }

  function Beats(h: History, k: Key): (beats: seq<Beat>)
    ensures |beats| == |h| && forall i :: 0 <= i < |h| ==> beats[i] == BeatAt(h, k, i)
  {
    seq(|h|, i requires 0 <= i < |h| => BeatAt(h, k, i))
  }

  /** Completed automatic failovers, and calls the automatic handler handled. */
  function Completions(beats: seq<Beat>): nat {
    if beats == [] then 0 else Completions(beats[..|beats| - 1]) + (if beats[|beats| - 1].completed then 1 else 0)
  }

  function HandledCalls(beats: seq<Beat>): nat {
    if beats == [] then 0 else HandledCalls(beats[..|beats| - 1]) + (if beats[|beats| - 1].handled then 1 else 0)
  }

  /** A call adds at most one to the count if it is handled and nothing otherwise;
      to complete a failover it uses up a count that has reached `t`. */
  ghost predicate Paid(b: Beat, t: nat) {
    && (b.completed ==> b.handled && b.after == 0 && b.before + 1 >= t)
    && b.after <= b.before + (if b.handled then 1 else 0)
  }

  lemma {:induction false} BeatsArePaid(beats: seq<Beat>, t: nat)
    requires forall i :: 0 <= i < |beats| ==> Paid(beats[i], t)
    requires forall i, j :: 0 <= i && j == i + 1 < |beats| ==> beats[j].before == beats[i].after
    requires beats != [] ==> beats[0].before == 0
    ensures t * Completions(beats) + (if beats == [] then 0 else beats[|beats| - 1].after) <= HandledCalls(beats)
  {
    if beats != [] {
      var front, last := beats[..|beats| - 1], beats[|beats| - 1];
      assert forall i :: 0 <= i < |front| ==> front[i] == beats[i];
      BeatsArePaid(front, t);
      assert last.before == if front == [] then 0 else front[|front| - 1].after;
      assert Paid(last, t);
      assert t * (Completions(front) + 1) == t * Completions(front) + t;
    }
  }

  /** With thresholds of at least `t`, `n` completed automatic failovers of an
      HACluster take at least `n * t` handled calls of it, whatever else happens. */
  lemma {:induction false} FailoversArePaid(h: History, k: Key, t: nat)
    requires forall i :: 0 <= i < |h| && Handles(h[i], k) ==> EffectiveThreshold(h[i].spec.failover) >= t
    ensures t * Completions(Beats(h, k)) <= HandledCalls(Beats(h, k))
  {
    var beats := Beats(h, k);
    forall i | 0 <= i < |h|
      ensures Paid(beats[i], t)
    {
      BeatIsPaid(h, k, i, t);
    }
    forall i, j | 0 <= i && j == i + 1 < |h|
      ensures beats[j].before == beats[i].after
    {
      BeatsLink(h, k, i);
    }
    BeatsArePaid(beats, t);
  }

  lemma {:induction false} BeatsLink(h: History, k: Key, i: nat)
    requires i + 1 < |h|
    ensures BeatAt(h, k, i + 1).before == BeatAt(h, k, i).after
  {
    var g := h[..i + 1];
    assert g[..|g| - 1] == h[..i] && g[|g| - 1] == h[i];
  }

  lemma {:induction false} BeatIsPaid(h: History, k: Key, i: nat, t: nat)
    requires i < |h| && (Handles(h[i], k) ==> EffectiveThreshold(h[i].spec.failover) >= t)
    ensures Paid(BeatAt(h, k, i), t)
  {
    if h[i].Reconciled? {
      CallIsPaid(h[i].spec, h[i].key, World(h[i].sites, h[i].hub, CountersAfter(h[..i])), h[i].input, k, t);
    }
  }

  /** One call pays for itself: it adds one to the count, or completes a failover
      against a count that has reached the threshold, or leaves the balance lower. */
  lemma {:induction false} CallIsPaid(spec: Spec, key: Key, w: World, input: Inputs, k: Key, t: nat)
    requires Handles(Reconciled(key, spec, w.sites, w.hub, input), k) ==> EffectiveThreshold(spec.failover) >= t
    ensures var o := Reconcile(spec, key, w, input);
      var handled := Handles(Reconciled(key, spec, w.sites, w.hub, input), k);
      && (!handled ==> Count(o.counters, k) == Count(w.counters, k))
      && (handled && o.effect != NO_EFFECT ==> Count(o.counters, k) == 0 && Count(w.counters, k) + 1 >= t)
      && (handled && o.effect == NO_EFFECT ==> Count(o.counters, k) <= Count(w.counters, k) + 1)
  {
    ReconcileCounts(spec, key, w, input);
    if Handles(Reconciled(key, spec, w.sites, w.hub, input), k) && Reconcile(spec, key, w, input).effect != NO_EFFECT {
      CompletionNeedsThreshold(spec, k, w, input);
    }
  }

  lemma {:induction false} CompletionNeedsThreshold(spec: Spec, key: Key, w: World, input: Inputs)
    requires spec.failover.mode == Automatic && Reconcile(spec, key, w, input).effect != NO_EFFECT
    ensures Count(w.counters, key) + 1 >= EffectiveThreshold(spec.failover)
  {
    var seen := Observe(spec, w.sites, input);
    var ph := Handle(spec, key, w, seen, input);
    HandlersMakeOneAttempt(spec, key, w, seen, input);
    var _, _ := ConcludeShape(spec, w.hub.status.current, seen, ph, input);
  }

  // ---- The stabilization cooldown ----

  predicate AttemptsAutomatically(key: Key, t: Tick) {
    var a := AttemptOf(t.spec, key, t.w, Observe(t.spec, t.w.sites, t.input), t.input);
    a.Some? && !a.value.manual
  }

  /** A completed promotion, manual or automatic, whose status was saved. */
  predicate Records(key: Key, t: Tick) {
    Ended(key, t).effect != NO_EFFECT && Saves(t.input)
  }

  lemma {:induction false} CompletedEffectIsReal(spec: Spec, a: Attempt, st: Store, f: Fates)
    ensures RunPromotion(spec, a.former, a.target, st, f).1.Ok? ==> Effect(a.former, a.target) != NO_EFFECT
  {
  }

  /** What a Reconcile does to the recorded time, in itself. */
  datatype Mark = Mark(
    before: Option<int>, after: Option<int>, check: int, stamp: int, wait: int, auto: bool, records: bool)

  function MarkOf(key: Key, t: Tick): Mark {
    var o := Ended(key, t);
    Mark(t.w.hub.status.lastFailover, o.hub.status.lastFailover, t.input.check, t.input.stamp,
         Cooldown(t.spec.failover), AttemptsAutomatically(key, t), Records(key, t))
  }

  /** The recorded time is that of the completed promotion this Reconcile saved, and
      otherwise what it was; and an automatic attempt has waited out the cooldown. */
  ghost predicate Honest(m: Mark) {
    && m.after == (if m.records then Some(Persisted(m.stamp)) else m.before)
    && (m.auto && m.before.Some? ==> m.check >= m.before.value + m.wait)
    && m.wait >= MIN_COOLDOWN && m.wait % SECOND == 0
  }

  lemma {:induction false} MarkIsHonest(key: Key, t: Tick)
    ensures Honest(MarkOf(key, t))
  {
    var seen := Observe(t.spec, t.w.sites, t.input);
    var ph := Handle(t.spec, key, t.w, seen, t.input);
    HandlersMakeOneAttempt(t.spec, key, t.w, seen, t.input);
    match AttemptOf(t.spec, key, t.w, seen, t.input) {
      case None =>
      case Some(a) => CompletedEffectIsReal(t.spec, a, Store(t.w.sites, []), t.input.fates);
    }
    var _, _ := ConcludeShape(t.spec, t.w.hub.status.current, seen, ph, t.input);
  }

  ghost predicate Chain(marks: seq<Mark>) {
    && (forall i :: 0 <= i < |marks| ==> Honest(marks[i]))
    && (forall i, j :: 0 <= i && j == i + 1 < |marks| ==> marks[j].before == marks[i].after)
  }

  ghost predicate SavedRun(key: Key, run: seq<Tick>) {
    forall i, j :: 0 <= i && j == i + 1 < |run| ==> StatusPersists(key, run[i], run[j])
  }

  function Marks(key: Key, run: seq<Tick>): (marks: seq<Mark>)
    ensures |marks| == |run| && forall i :: 0 <= i < |run| ==> marks[i] == MarkOf(key, run[i])
  {
    seq(|run|, i requires 0 <= i < |run| => MarkOf(key, run[i]))
  }

  lemma {:induction false} RunIsChain(key: Key, run: seq<Tick>)
    requires SavedRun(key, run)
    ensures Chain(Marks(key, run))
  {
    forall i | 0 <= i < |run|
      ensures Honest(Marks(key, run)[i])
    {
      MarkIsHonest(key, run[i]);
    }
  }

  lemma {:induction false} TimeStands(marks: seq<Mark>, i: nat, j: nat)
    requires Chain(marks) && i < j < |marks| && marks[i].records
    requires forall m :: i < m < j ==> !marks[m].records
    ensures marks[j].before == Some(Persisted(marks[i].stamp))
    decreases j
  {
    if i < j - 1 {
      TimeStands(marks, i, j - 1);
    }
    assert Honest(marks[j - 1]);
  }

  /** No cascade: after a recorded promotion, manual or automatic, no automatic
      promotion starts before max(30 s, three intervals) have passed since the
      recorded time, whatever the counters say and across restarts. */
  lemma {:induction false} CooldownHolds(key: Key, run: seq<Tick>, i: nat, j: nat)
    requires SavedRun(key, run) && i < j < |run| && Records(key, run[i])
    requires forall m :: i < m < j ==> !Records(key, run[m])
    requires AttemptsAutomatically(key, run[j])
    ensures run[j].input.check >= Persisted(run[i].input.stamp) + Cooldown(run[j].spec.failover)
  {
    RunIsChain(key, run);
    TimeStands(Marks(key, run), i, j);
    assert Honest(Marks(key, run)[j]);
  }

  /** Recorded automatic promotions. */
  function AutoRecordings(marks: seq<Mark>): nat {
    if marks == [] then 0 else
    AutoRecordings(marks[..|marks| - 1]) + (if marks[|marks| - 1].records && marks[|marks| - 1].auto then 1 else 0)
  }

  /** The clock does not run backwards, from `t` on. */
  ghost predicate Ticking(marks: seq<Mark>, t: int) {
    && (marks != [] ==> t <= marks[0].check)
    && (forall i :: 0 <= i < |marks| ==> marks[i].check <= marks[i].stamp)
    && (forall i, j :: 0 <= i && j == i + 1 < |marks| ==> marks[i].stamp <= marks[j].check)
  }

  lemma {:induction false} MarksAreSpreadOut(marks: seq<Mark>, t: int, wait: nat)
    requires Chain(marks) && marks != [] && marks[0].before == Some(t) && t % SECOND == 0 && Ticking(marks, t)
    requires forall i :: 0 <= i < |marks| && marks[i].auto ==> marks[i].wait >= wait
    ensures var mark := marks[|marks| - 1];
      && mark.after.Some? && mark.after.value % SECOND == 0 && mark.after.value <= mark.stamp
      && mark.after.value >= t + AutoRecordings(marks) * wait
  {
    var front, mark := marks[..|marks| - 1], marks[|marks| - 1];
    if front == [] {
      assert mark.before == Some(t);
    } else {
      assert forall i :: 0 <= i < |front| ==> front[i] == marks[i];
      MarksAreSpreadOut(front, t, wait);
      assert mark.before == front[|front| - 1].after;
    }
    assert Honest(mark);
    if mark.records {
      PersistedStep(mark.before.value, if mark.auto then mark.wait else 0, mark.stamp);
    }
    assert (AutoRecordings(front) + 1) * wait == AutoRecordings(front) * wait + wait;
  }

  lemma {:induction false} PersistedStep(before: int, wait: int, now: int)
    requires before % SECOND == 0 && wait % SECOND == 0 && now >= before + wait
    ensures Persisted(now) >= before + wait
  {
  }

  /** Recorded automatic promotions are spread out: if every automatic attempt of a run
      is under a cooldown of at least `wait`, then from a recorded time `t` on, `n`
      recorded automatic promotions push the recorded time to at least `t + n * wait`,
      however many manual ones are recorded between them. */
  lemma {:induction false} PromotionsAreSpreadOut(key: Key, run: seq<Tick>, t: int, wait: nat)
    requires SavedRun(key, run) && run != [] && run[0].w.hub.status.lastFailover == Some(t) && t % SECOND == 0
    requires Ticking(Marks(key, run), t)
    requires forall i :: 0 <= i < |run| && AttemptsAutomatically(key, run[i]) ==> wait <= Cooldown(run[i].spec.failover)
    ensures var last := Ended(key, run[|run| - 1]).hub.status.lastFailover;
      last.Some? && last.value >= t + AutoRecordings(Marks(key, run)) * wait
  {
    RunIsChain(key, run);
    MarksAreSpreadOut(Marks(key, run), t, wait);
  }
}
