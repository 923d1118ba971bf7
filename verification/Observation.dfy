/** What one Reconcile sees of the sites, and the decisions it takes from it.

    A buffer of observations lists the declared primary first and then the
    replicas in spec order, as every function of the controller visits them. */
module Observation {
  import opened Objects
  import opened HACluster
  import opened Lsn

  /** A parsed WAL position with its text. */
  datatype Wal = Wal(text: string, value: nat)

  /** What the SQL query of the optional PostgreSQL probe returned. */
  datatype Answer = Answer(lsn: string, lag: Option<real>)

  datatype Obs = Obs(
    name: string,
    reachable: bool,
    primary: bool,
    ready: bool,
    timeline: int,
    wal: Option<Wal>,
    lag: Option<real>)

  function Unreachable(n: string): Obs {
    Obs(n, false, false, false, 0, None, None)
  }

  /** An answer whose position does not parse fails the whole probe. */
  function ParsedWal(sql: Option<Answer>): (r: Option<Wal>)
    ensures r.Some? <==> sql.Some? && ParseLSN(sql.value.lsn).Ok?
    ensures r.Some? ==> r.value.text == sql.value.lsn && ParseLSN(r.value.text) == Ok(r.value.value)
  {
    if sql.None? then None else
    match ParseLSN(sql.value.lsn)
    case Ok(v) => Some(Wal(sql.value.lsn, v))
    case Err(_) => None
  }

  /** health.Probe and parseCluster, with the result of the optional SQL probe. */
  function Probe(n: string, site: Site, served: bool, sql: Option<Answer>): (o: Obs)
    ensures o.name == n
    ensures o.reachable <==> served && site.cluster.Some?
    ensures o.primary <==> o.reachable && !(site.cluster.value.flag.Enabled? && site.cluster.value.flag.on)
    ensures o.ready <==> o.reachable && site.cluster.value.readyInstances > 0
    ensures o.timeline == if o.reachable then site.cluster.value.timeline else 0
    ensures o.wal == (if o.ready then ParsedWal(sql) else None)
    ensures o.lag == (if o.wal.Some? then sql.value.lag else None)
  {
    if !served || site.cluster.None? then Unreachable(n) else
    var c := site.cluster.value;
    var ready := c.readyInstances > 0;
    var wal := if ready then ParsedWal(sql) else None;
    Obs(n, true, IsPrimary(c), ready, c.timeline, wal, if wal.Some? then sql.value.lag else None)
  }

  /** The site claims to be a healthy primary. */
  predicate Claims(o: Obs) {
    o.reachable && o.primary && o.ready
  }

  /** primaryReadyCandidates. */
  function Claimants(all: seq<Obs>): seq<string> {
    if all == [] then [] else
    Claimants(all[..|all| - 1]) + (if Claims(all[|all| - 1]) then [all[|all| - 1].name] else [])
  }

  predicate SplitBrain(all: seq<Obs>) {
    |Claimants(all)| > 1
  }

  /** decideCurrentPrimary: the only claimant, or "" when there is none or several. */
  function Decide(all: seq<Obs>): string {
    if |Claimants(all)| == 1 then Claimants(all)[0] else ""
  }

  ghost predicate OnlyClaimant(all: seq<Obs>, i: int) {
    0 <= i < |all| && Claims(all[i]) && forall j :: 0 <= j < |all| && j != i ==> !Claims(all[j])
  }

  lemma {:induction false} NoClaimants(all: seq<Obs>)
    ensures Claimants(all) == [] <==> forall j :: 0 <= j < |all| ==> !Claims(all[j])
  {
    if all != [] {
      NoClaimants(all[..|all| - 1]);
      assert forall j :: 0 <= j < |all| - 1 ==> all[..|all| - 1][j] == all[j];
    }
  }

  /** A site is decided exactly when its observation is the only claim. */
  lemma {:induction false} DecideExact(all: seq<Obs>, i: int)
    requires OnlyClaimant(all, i)
    ensures Claimants(all) == [all[i].name]
  {
    var front := all[..|all| - 1];
    if i == |all| - 1 {
      NoClaimants(front);
    } else {
      assert OnlyClaimant(front, i);
      DecideExact(front, i);
    }
  }

  lemma {:induction false} DecidedHasWitness(all: seq<Obs>) returns (i: nat)
    requires |Claimants(all)| == 1
    ensures OnlyClaimant(all, i) && Claimants(all) == [all[i].name]
  {
    var front := all[..|all| - 1];
    if Claims(all[|all| - 1]) {
      NoClaimants(front);
      i := |all| - 1;
      assert forall j :: 0 <= j < |front| ==> front[j] == all[j];
    } else {
      i := DecidedHasWitness(front);
      assert forall j :: 0 <= j < |front| ==> front[j] == all[j];
    }
  }

  /** Two sites are reachable, primary and ready. */
  ghost predicate TwoClaims(all: seq<Obs>) {
    exists i, j :: 0 <= i < j < |all| && all[i].reachable && all[i].primary && all[i].ready
                   && all[j].reachable && all[j].primary && all[j].ready
  }

  /** The site of that name, the first one listed, is reachable, primary and ready. */
  ghost predicate ClaimsAs(all: seq<Obs>, n: string) {
    exists i :: 0 <= i < |all| && all[i].name == n && (forall j :: 0 <= j < i ==> all[j].name != n)
                && all[i].reachable && all[i].primary && all[i].ready
  }

  /** A healthy replica other than the primary to replace. */
  predicate Candidate(o: Obs, former: string) {
    o.name != former && o.reachable && o.ready && !o.primary
  }

  /** A split-brain is two claims, whoever makes them. */
  lemma {:induction false} SplitBrainExactly(all: seq<Obs>)
    ensures SplitBrain(all) <==> TwoClaims(all)
  {
    NoClaimants(all);
    if |Claimants(all)| == 1 {
      var i := DecidedHasWitness(all);
    }
    if |Claimants(all)| > 1 {
      var i :| 0 <= i < |all| && Claims(all[i]);
      if forall j :: 0 <= j < |all| && j != i ==> !Claims(all[j]) {
        DecideExact(all, i);
      }
    }
  }

  /** The candidates are the names of the claims, in order. */
  lemma {:induction false} ClaimantsInOrder(all: seq<Obs>, i: nat)
    requires i < |all|
    ensures var k := |Claimants(all[..i])|; var names := Claimants(all);
      && k <= |names| && Claimants(all[..i]) == names[..k]
      && (Claims(all[i]) ==> k < |names| && names[k] == all[i].name)
  {
    var front := all[..|all| - 1];
    if i < |front| {
      ClaimantsInOrder(front, i);
      assert front[..i] == all[..i];
    }
  }

  /** The loop of primaryReadyCandidates. */
  method PrimaryReadyCandidates(all: array<Obs>) returns (names: seq<string>)
    ensures names == Claimants(all[..])
  {
    names := [];
    for i := 0 to all.Length
      invariant names == Claimants(all[..i])
    {
      assert all[..i + 1][..i] == all[..i];
      if all[i].reachable && all[i].primary && all[i].ready {
        names := names + [all[i].name];
      }
    }
    assert all[..all.Length] == all[..];
  }

  // ---- Locating and changing an observation ----

  /** The first observation of that name, or |all| when there is none. */
  function Find(all: seq<Obs>, n: string): (r: nat)
    ensures r <= |all|
    ensures r < |all| ==> all[r].name == n
    ensures forall j :: 0 <= j < r ==> all[j].name != n
  {
    FirstNamed(all, (o: Obs) => o.name, n)
  }

  function WithRole(o: Obs, primary: bool): Obs {
    o.(primary := primary, ready := primary && o.ready)
  }

  /** setObservationRole: the first observation of that name changes role. */
  function SetRole(all: seq<Obs>, n: string, primary: bool): (r: seq<Obs>)
    ensures |r| == |all| && forall j :: 0 <= j < |all| ==> r[j].name == all[j].name
  {
    var i := Find(all, n);
    if i < |all| then all[i := WithRole(all[i], primary)] else all
  }

  method SetObservationRole(buf: array<Obs>, n: string, primary: bool)
    modifies buf
    ensures buf[..] == SetRole(old(buf[..]), n, primary)
  {
    ghost var was := buf[..];
    for i := 0 to buf.Length
      invariant buf[..] == was
      invariant forall j :: 0 <= j < i ==> buf[j].name != n
    {
      if buf[i].name == n {
        assert Find(was, n) == i;
        buf[i] := buf[i].(primary := primary);
        if !primary {
          buf[i] := buf[i].(ready := false);
        }
        assert buf[..] == was[i := WithRole(was[i], primary)];
        return;
      }
    }
  }

  datatype Effect = Effect(demoted: string, promoted: string)

  const NO_EFFECT := Effect("", "")

  /** applyPromotionEffect. */
  function ApplyEffect(all: seq<Obs>, e: Effect): (r: seq<Obs>)
    ensures |r| == |all| && forall j :: 0 <= j < |all| ==> r[j].name == all[j].name
  {
    if e.promoted == "" then all
    else SetRole(SetRole(all, e.demoted, false), e.promoted, true)
  }

  method ApplyPromotionEffect(buf: array<Obs>, e: Effect)
    modifies buf
    ensures buf[..] == ApplyEffect(old(buf[..]), e)
  {
    if e.promoted == "" {
      return;
    }
    SetObservationRole(buf, e.demoted, false);
    SetObservationRole(buf, e.promoted, true);
  }

  ghost predicate UniqueNames(all: seq<Obs>) {
    forall i, j :: 0 <= i < j < |all| ==> all[i].name != all[j].name
  }

  /** After an effect a site claims to be primary if it is the promoted one, or if
      it claimed before and is not the demoted one. */
  lemma {:induction false} ClaimsAfterEffect(all: seq<Obs>, e: Effect, j: nat)
    requires UniqueNames(all) && e.promoted != "" && e.promoted != e.demoted && j < |all|
    requires var t := Find(all, e.promoted); t < |all| && all[t].reachable && all[t].ready
    ensures Claims(ApplyEffect(all, e)[j]) <==>
              all[j].name == e.promoted || (Claims(all[j]) && all[j].name != e.demoted)
  {
  }

  /** What an effect leaves of each observation: the promoted site is primary with the
      readiness it had, the demoted one is neither primary nor ready, the others and
      everything else observed are as before. */
  lemma {:induction false} EffectExactly(all: seq<Obs>, e: Effect, j: nat)
    requires UniqueNames(all) && e.promoted != e.demoted && j < |all|
    ensures var o, o' := all[j], ApplyEffect(all, e)[j];
      && (e.promoted != "" && o.name == e.promoted ==> o'.primary && o'.ready == o.ready)
      && (e.promoted != "" && o.name == e.demoted ==> !o'.primary && !o'.ready)
      && (e.promoted == "" || o.name !in {e.promoted, e.demoted} ==> o' == o)
      && (o'.name, o'.reachable, o'.timeline, o'.wal, o'.lag) == (o.name, o.reachable, o.timeline, o.wal, o.lag)
  {
  }

  /** A promotion is reflected at once, exactly when no site other than the demoted
      one claimed to be primary: then the promoted site is the only claimant, it is
      decided, and no split-brain is reported. */
  lemma {:induction false} PromotionIsReflected(all: seq<Obs>, e: Effect)
    requires UniqueNames(all) && e.promoted != "" && e.promoted != e.demoted
    requires var t := Find(all, e.promoted); t < |all| && all[t].reachable && all[t].ready && !all[t].primary
    ensures var all' := ApplyEffect(all, e);
            var alone := forall j :: 0 <= j < |all| && Claims(all[j]) ==> all[j].name == e.demoted;
            && (Decide(all') == e.promoted <==> alone)
            && (alone ==> Claimants(all') == [e.promoted] && !SplitBrain(all'))
  {
    var all' := ApplyEffect(all, e);
    var t := Find(all, e.promoted);
    forall j | 0 <= j < |all|
      ensures Claims(all'[j]) <==> all[j].name == e.promoted || (Claims(all[j]) && all[j].name != e.demoted)
    {
      ClaimsAfterEffect(all, e, j);
    }
    if forall j :: 0 <= j < |all| && Claims(all[j]) ==> all[j].name == e.demoted {
      assert OnlyClaimant(all', t);
      DecideExact(all', t);
    } else {
      var j :| 0 <= j < |all| && Claims(all[j]) && all[j].name != e.demoted;
      assert Claims(all'[j]) && Claims(all'[t]) && j != t;
      if |Claimants(all')| == 1 {
        var i := DecidedHasWitness(all');
      }
    }
  }

  // ---- Choosing a failover target ----

  /** moreAdvanced: a known WAL position beats an unknown one; two known ones
      compare by position, two unknown ones by timeline. */
  predicate MoreAdvanced(a: Obs, b: Obs) {
    if a.wal.Some? != b.wal.Some? then a.wal.Some?
    else if a.wal.Some? then a.wal.value.value > b.wal.value.value
    else a.timeline > b.timeline
  }

  /** moreAdvanced is a strict weak order: irreflexive, asymmetric, transitive,
      and incomparability is transitive. */
  lemma {:induction false} MoreAdvancedIsStrictWeakOrder(a: Obs, b: Obs, c: Obs)
    ensures !MoreAdvanced(a, a)
    ensures MoreAdvanced(a, b) ==> !MoreAdvanced(b, a)
    ensures MoreAdvanced(a, b) && MoreAdvanced(b, c) ==> MoreAdvanced(a, c)
    ensures MoreAdvanced(a, c) ==> MoreAdvanced(a, b) || MoreAdvanced(b, c)
  {
  }

  /** Of two observations with a position, the more advanced one has the greater pair
      of a high and a low word, as its text spells them. */
  lemma {:induction false} AdvancedByWords(a: Obs, b: Obs) returns (hi: string, lo: string, hi': string, lo': string)
    requires a.wal.Some? && ParseLSN(a.wal.value.text) == Ok(a.wal.value.value)
    requires b.wal.Some? && ParseLSN(b.wal.value.text) == Ok(b.wal.value.value)
    ensures a.wal.value.text == hi + "/" + lo && IsWord(hi) && IsWord(lo)
    ensures b.wal.value.text == hi' + "/" + lo' && IsWord(hi') && IsWord(lo')
    ensures MoreAdvanced(a, b) <==>
              HexValue(hi) > HexValue(hi') || (HexValue(hi) == HexValue(hi') && HexValue(lo) > HexValue(lo'))
  {
    hi, lo := ParseAcceptsOnly(a.wal.value.text);
    hi', lo' := ParseAcceptsOnly(b.wal.value.text);
    ParseOrders(hi', lo', hi, lo);
  }

  /** Replica `i` may be promoted in place of `failed`. */
  predicate Eligible(reps: seq<Obs>, failed: string, i: int)
    requires 0 <= i < |reps|
  {
    reps[i].name != failed && reps[i].reachable && reps[i].ready && !reps[i].primary
  }

  /** chooseTarget restricted to the first `n` replicas. */
  function ChooseIn(reps: seq<Obs>, failed: string, most: bool, n: nat): (r: Option<nat>)
    requires n <= |reps|
    ensures r.Some? ==> r.value < n && Eligible(reps, failed, r.value)
  {
    if n == 0 then None
    else match ChooseIn(reps, failed, most, n - 1)
         case None => if Eligible(reps, failed, n - 1) then Some(n - 1) else None
         case Some(b) => if most && Eligible(reps, failed, n - 1) && MoreAdvanced(reps[n - 1], reps[b])
                         then Some(n - 1) else Some(b)
  }

  function Choose(reps: seq<Obs>, failed: string, policy: PromotionPolicy): (r: Option<nat>)
    ensures r.Some? ==> r.value < |reps| && Eligible(reps, failed, r.value)
  {
    ChooseIn(reps, failed, policy == MostAdvancedLSN, |reps|)
  }

  /** Among the first `n` replicas, `b` is eligible, nobody eligible beats it, and
      under MostAdvancedLSN it beats every eligible replica before it; under any
      other policy there is no eligible replica before it. */
  ghost predicate StableBest(reps: seq<Obs>, failed: string, most: bool, n: nat, b: nat)
    requires n <= |reps|
  {
    && b < n && Eligible(reps, failed, b)
    && (forall j :: 0 <= j < b && Eligible(reps, failed, j) ==> most && MoreAdvanced(reps[b], reps[j]))
    && (most ==> forall j :: 0 <= j < n && Eligible(reps, failed, j) ==> !MoreAdvanced(reps[j], reps[b]))
  }

  lemma {:induction false} ChooseInIsStableBest(reps: seq<Obs>, failed: string, most: bool, n: nat)
    requires n <= |reps|
    ensures ChooseIn(reps, failed, most, n).None? <==> forall j :: 0 <= j < n ==> !Eligible(reps, failed, j)
    ensures forall b :: ChooseIn(reps, failed, most, n) == Some(b) ==> StableBest(reps, failed, most, n, b)
  {
    if n > 0 {
      ChooseInIsStableBest(reps, failed, most, n - 1);
    }
  }

  /** chooseTarget returns exactly the stable maximum, and fails exactly when no
      replica is eligible. */
  lemma {:induction false} ChooseIsStableBest(reps: seq<Obs>, failed: string, policy: PromotionPolicy, b: nat)
    ensures Choose(reps, failed, policy) == Some(b)
            <==> b < |reps| && StableBest(reps, failed, policy == MostAdvancedLSN, |reps|, b)
    ensures Choose(reps, failed, policy).None? <==> forall j :: 0 <= j < |reps| ==> !Eligible(reps, failed, j)
  {
    var most := policy == MostAdvancedLSN;
    ChooseInIsStableBest(reps, failed, most, |reps|);
    if b < |reps| && StableBest(reps, failed, most, |reps|, b) {
      var c := Choose(reps, failed, policy).value;
      assert StableBest(reps, failed, most, |reps|, c);
      assert b == c;
    }
  }

  /** The loop of chooseTarget. */
  method ChooseTarget(reps: seq<Obs>, failed: string, policy: PromotionPolicy) returns (best: Option<nat>)
    ensures best == Choose(reps, failed, policy)
  {
    var most := policy == MostAdvancedLSN;
    best := None;
    for i := 0 to |reps|
      invariant best == ChooseIn(reps, failed, most, i)
      invariant best.Some? ==> most
    {
      var o := reps[i];
      if o.name == failed || !o.reachable || !o.ready || o.primary {
        continue;
      }
      if best == None {
        best := Some(i);
        if !most {
          FirstStays(reps, failed, i + 1);
          break;
        }
        continue;
      }
      if MoreAdvanced(reps[i], reps[best.value]) {
        best := Some(i);
      }
    }
  }

  /** Without MostAdvancedLSN the first eligible replica is final. */
  lemma {:induction false} FirstStays(reps: seq<Obs>, failed: string, n: nat)
    requires n <= |reps| && ChooseIn(reps, failed, false, n).Some?
    ensures ChooseIn(reps, failed, false, |reps|) == ChooseIn(reps, failed, false, n)
    decreases |reps| - n
  {
    if n < |reps| {
      FirstStays(reps, failed, n + 1);
    }
  }
}
