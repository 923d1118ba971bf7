/** Exactly when a second site comes to accept writes, in one Reconcile and over runs. */
module SecondWriter {
  import opened Objects
  import opened HACluster
  import opened Promotion
  import opened Failover
  import opened Controller
  import opened Safety
  import opened Runs

  /** The Promote write lands although some site other than the one to demote, which
      nothing fences, can accept writes. */
  ghost predicate Misfires(spec: Spec, key: Key, w: World, input: Inputs) {
    var a := AttemptOf(spec, key, w, Observe(spec, w.sites, input), input);
    && a.Some? && Commits(spec, a.value, w.sites, input.fates)
    && exists n :: WriterAt(w.sites, n) && n != a.value.former
  }

  // ---- One promotion ----

  lemma {:induction false} CalmStagesKeepOneWriter(
      former: string, target: string, s0: Sites, s1: Store, s2: Store, s3: Store, s4: Store, who: string)
    requires OnlyWriter(s0, who)
    requires CalmMove(Store(s0, []), s1, former) && CalmMove(s1, s2, former)
    requires CalmMove(s2, s3, target) && CalmMove(s3, s4, target)
    ensures OneWriterThroughout(s4)
  {
    CalmMoveWriters(Store(s0, []), s1, former, who);
    CalmMoveWriters(s1, s2, former, who);
    CalmMoveWriters(s2, s3, target, who);
    CalmMoveWriters(s3, s4, target, who);
  }

  /** A promotion whose Promote write does not land makes no writer. */
  lemma {:induction false} UncommittedMakesNoWriter(spec: Spec, a: Attempt, s0: Sites, f: Fates, who: string)
    requires OnlyWriter(s0, who) && ReplicaAt(s0, a.target) && !Commits(spec, a, s0, f)
    ensures OneWriterThroughout(RunPromotion(spec, a.former, a.target, Store(s0, []), f).0)
  {
    var st := Store(s0, []);
    var s1, s2, s3 := PromotionStages(spec, a.former, a.target, st, f);
    PromotionExactly(spec, a, s0, f);
    StepIsCalm(Promote, a.target, s2, f(PromoteGet), f(PromoteUpdate));
    assert !PrimaryAt(s3.sites, a.target);
    CalmStagesKeepOneWriter(a.former, a.target, s0, s1, s2, s3, RunPromotion(spec, a.former, a.target, st, f).0, who);
  }

  lemma {:induction false} MovesElsewhere(
      former: string, target: string, s0: Sites, s1: Store, s2: Store, s3: Store, s4: Store, n: string)
    requires OneMove(Store(s0, []), s1, former) && OneMove(s1, s2, former)
    requires OneMove(s2, s3, target) && OneMove(s3, s4, target)
    requires n != former && n != target
    ensures At(s4.sites, n) == At(s0, n)
    ensures s4.sites == s0 || s4.sites in s4.trace
  {
  }

  /** A promotion that lands without fencing the writer leaves two. */
  lemma {:induction false} CommittedMakesSecondWriter(spec: Spec, a: Attempt, s0: Sites, f: Fates, n: string)
    requires ReplicaAt(s0, a.target) && !FencedOrGone(s0, a.target) && Commits(spec, a, s0, f)
    requires WriterAt(s0, n) && n != a.former
    ensures var r := RunPromotion(spec, a.former, a.target, Store(s0, []), f).0;
      WriterAt(r.sites, n) && WriterAt(r.sites, a.target) && n != a.target && r.sites in r.trace
  {
    var st := Store(s0, []);
    var s1, s2, s3 := PromotionStages(spec, a.former, a.target, st, f);
    PromotionExactly(spec, a, s0, f);
    MovesElsewhere(a.former, a.target, s0, s1, s2, s3, RunPromotion(spec, a.former, a.target, st, f).0, n);
  }

  // ---- One Reconcile ----

  /** From at most one writer, a Reconcile keeps at most one at every instant, under any
      failures and at any crash point, exactly when it does not misfire.  The recorded
      primary plays no part: a stranded target that became the only writer is safe
      until the next promotion demotes somebody else. */
  lemma {:induction false} OneWriterExactly(spec: Spec, key: Key, w: World, input: Inputs)
    requires AtMostOneWriter(w.sites) && Quiet(w.sites)
    ensures OneWriterThroughout(Reconcile(spec, key, w, input).store) <==> !Misfires(spec, key, w, input)
  {
    var seen := Observe(spec, w.sites, input);
    var ph := Handle(spec, key, w, seen, input);
    HandlersMakeOneAttempt(spec, key, w, seen, input);
    HandlersOneWriterExactly(spec, key, w, input, ph.store);
    ConcludeMakesNoWriter(spec, w.hub.status.current, seen, ph, input);
    if OneWriterThroughout(ph.store) {
      ShrunkHistory(ph.store, Reconcile(spec, key, w, input).store);
    } else {
      ConcludeTurnsNobody(w.sites, spec, w.hub.status.current, seen, ph, input);
    }
  }

  /** `st` is what the handlers leave. */
  lemma {:induction false} HandlersOneWriterExactly(spec: Spec, key: Key, w: World, input: Inputs, st: Store)
    requires AtMostOneWriter(w.sites) && Quiet(w.sites)
    requires match AttemptOf(spec, key, w, Observe(spec, w.sites, input), input)
             case None => st == Store(w.sites, [])
             case Some(a) => st == RunPromotion(spec, a.former, a.target, Store(w.sites, []), input.fates).0
    ensures Linked(w.sites, st)
    ensures OneWriterThroughout(st) <==> !Misfires(spec, key, w, input)
    ensures Misfires(spec, key, w, input) ==> st.sites in st.trace && !AtMostOneWriter(st.sites)
  {
    match AttemptOf(spec, key, w, Observe(spec, w.sites, input), input)
    case None =>
    case Some(a) =>
      var _ := AttemptIsObserved(spec, key, w, input, a);
      AttemptOneWriterExactly(spec, a, w.sites, input.fates, st);
  }

  lemma {:induction false} AttemptOneWriterExactly(spec: Spec, a: Attempt, s0: Sites, f: Fates, st: Store)
    requires AtMostOneWriter(s0) && ReplicaAt(s0, a.target) && !FencedOrGone(s0, a.target)
    requires st == RunPromotion(spec, a.former, a.target, Store(s0, []), f).0
    ensures Linked(s0, st)
    ensures var misfires := Commits(spec, a, s0, f) && exists n :: WriterAt(s0, n) && n != a.former;
      && (OneWriterThroughout(st) <==> !misfires)
      && (misfires ==> st.sites in st.trace && !AtMostOneWriter(st.sites))
  {
    FenceBeforePromote(spec, a.former, a.target, s0, f);
    if !Commits(spec, a, s0, f) {
      UncommittedMakesNoWriter(spec, a, s0, f, TheWriter(s0));
    } else if n :| WriterAt(s0, n) && n != a.former {
      CommittedMakesSecondWriter(spec, a, s0, f, n);
    } else {
      PromotionKeepsOneWriter(spec, a.former, a.target, s0, f);
    }
  }

  ghost function TheWriter(s: Sites): (who: string)
    requires AtMostOneWriter(s)
    ensures OnlyWriter(s, who)
  {
    if n :| WriterAt(s, n) then n else ""
  }

  // ---- Runs ----

  /** The environment makes no new writer between two Reconciles. */
  ghost predicate NoWriterBetween(key: Key, run: seq<Tick>) {
    && (forall i :: 0 <= i < |run| ==> Quiet(run[i].w.sites))
    && (forall i, j :: 0 <= i && j == i + 1 < |run| ==> NoNewWriter(Ended(key, run[i]).store.sites, run[j].w.sites))
  }

  /** One Reconcile of a run: whether it starts with at most one writer, keeps it so
      at every instant, and misfires. */
  datatype Verdict = Verdict(starts: bool, keeps: bool, misfires: bool)

  ghost function VerdictOf(key: Key, t: Tick): Verdict {
    Verdict(AtMostOneWriter(t.w.sites), OneWriterThroughout(Ended(key, t).store), Misfires(t.spec, key, t.w, t.input))
  }

  ghost function Verdicts(key: Key, run: seq<Tick>): (verdicts: seq<Verdict>)
    ensures |verdicts| == |run| && forall i :: 0 <= i < |run| ==> verdicts[i] == VerdictOf(key, run[i])
  {
    seq(|run|, i requires 0 <= i < |run| => VerdictOf(key, run[i]))
  }

  lemma {:induction false} VerdictsAgree(verdicts: seq<Verdict>)
    requires forall i :: 0 <= i < |verdicts| && verdicts[i].starts ==> (verdicts[i].keeps <==> !verdicts[i].misfires)
    requires forall i, j :: 0 <= i && j == i + 1 < |verdicts| && verdicts[i].keeps ==> verdicts[j].starts
    requires verdicts != [] ==> verdicts[0].starts
    ensures (forall i :: 0 <= i < |verdicts| ==> verdicts[i].keeps) <==>
            (forall i :: 0 <= i < |verdicts| ==> !verdicts[i].misfires)
  {
    if verdicts != [] {
      var front := verdicts[..|verdicts| - 1];
      assert forall i :: 0 <= i < |front| ==> front[i] == verdicts[i];
      VerdictsAgree(front);
      if forall i :: 0 <= i < |front| ==> front[i].keeps {
        assert verdicts[|front|].starts by {
          assert front != [] ==> front[|front| - 1].keeps;
        }
      }
      assert forall i :: 0 <= i < |verdicts| ==> i == |front| || verdicts[i] == front[i];
    }
  }

  /** Over every run, whatever is recorded, lost, restarted or reconfigured: at most one
      site can accept writes at every instant exactly when no Reconcile misfires. */
  lemma {:induction false} OneWriterOverRunsExactly(key: Key, run: seq<Tick>)
    requires NoWriterBetween(key, run) && (run != [] ==> AtMostOneWriter(run[0].w.sites))
    ensures (forall i :: 0 <= i < |run| ==> OneWriterThroughout(Ended(key, run[i]).store)) <==>
            (forall i :: 0 <= i < |run| ==> !Misfires(run[i].spec, key, run[i].w, run[i].input))
  {
    var verdicts := Verdicts(key, run);
    forall i | 0 <= i < |run| && verdicts[i].starts
      ensures verdicts[i].keeps <==> !verdicts[i].misfires
    {
      OneWriterExactly(run[i].spec, key, run[i].w, run[i].input);
    }
    VerdictsAgree(verdicts);
    KeepsSpelledOut(key, run);
    MisfiresSpelledOut(key, run);
  }

  lemma {:induction false} KeepsSpelledOut(key: Key, run: seq<Tick>)
    ensures var verdicts := Verdicts(key, run);
            (forall i :: 0 <= i < |run| ==> verdicts[i].keeps) <==>
            (forall i :: 0 <= i < |run| ==> OneWriterThroughout(Ended(key, run[i]).store))
  {
    var verdicts := Verdicts(key, run);
    forall i | 0 <= i < |run|
      ensures verdicts[i].keeps <==> OneWriterThroughout(Ended(key, run[i]).store)
    {
      assert verdicts[i] == VerdictOf(key, run[i]);
    }
  }

  lemma {:induction false} MisfiresSpelledOut(key: Key, run: seq<Tick>)
    ensures var verdicts := Verdicts(key, run);
            (forall i :: 0 <= i < |run| ==> !verdicts[i].misfires) <==>
            (forall i :: 0 <= i < |run| ==> !Misfires(run[i].spec, key, run[i].w, run[i].input))
  {
    var verdicts := Verdicts(key, run);
    forall i | 0 <= i < |run|
      ensures verdicts[i].misfires <==> Misfires(run[i].spec, key, run[i].w, run[i].input)
    {
      assert verdicts[i] == VerdictOf(key, run[i]);
    }
  }
}
