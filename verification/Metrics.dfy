/** publishMetrics and the gauge vectors it writes. */
module Metrics {
  import opened Objects
  import opened Observation
  import opened Controller

  /** The labels of a per-site series. */
  datatype Label = Label(key: Key, site: string)

  function Gauge(b: bool): (g: int)
    ensures g == 0 || g == 1
    ensures g == 1 <==> b
  {
    if b then 1 else 0
  }

  /** Everything published about one site. */
  datatype Row = Row(
    primary: Option<int>, reachable: Option<int>, ready: Option<int>,
    lagSeconds: Option<real>, lagBytes: Option<int>, lsnBytes: Option<int>, lsn: set<string>)

  /** The WAL position the byte lags are measured from. */
  function PrimaryWal(all: seq<Obs>, current: string): Option<nat> {
    if all == [] then None
    else if all[0].name == current && all[0].wal.Some? then Some(all[0].wal.value.value)
    else PrimaryWal(all[1..], current)
  }

  function LagBytes(o: Obs, current: string, wal: Option<nat>): Option<int> {
    if wal.None? || o.wal.None? then None
    else if o.name == current || o.wal.value.value >= wal.value then Some(0)
    else Some(wal.value - o.wal.value.value)
  }

  /** What one pass publishes about a site: a function of this pass's observations. */
  function RowFor(o: Obs, all: seq<Obs>, current: string): Row {
    Row(Some(Gauge(o.name == current)), Some(Gauge(o.reachable)), Some(Gauge(o.ready)),
        o.lag,
        LagBytes(o, current, PrimaryWal(all, current)),
        if o.wal.Some? then Some(o.wal.value.value) else None,
        if o.wal.Some? && o.wal.value.text != "" then {o.wal.value.text} else {})
  }

  lemma {:induction false} PrimaryWalIsPrimarys(all: seq<Obs>, current: string)
    requires UniqueNames(all)
    ensures PrimaryWal(all, current).Some? <==> exists i :: 0 <= i < |all| && all[i].name == current && all[i].wal.Some?
    ensures forall i :: 0 <= i < |all| && all[i].name == current && all[i].wal.Some? ==>
              PrimaryWal(all, current) == Some(all[i].wal.value.value)
  {
    if all != [] {
      PrimaryWalIsPrimarys(all[1..], current);
      assert forall i :: 0 < i < |all| ==> all[1..][i - 1] == all[i];
      if PrimaryWal(all[1..], current).Some? {
        var i :| 0 <= i < |all[1..]| && all[1..][i].name == current && all[1..][i].wal.Some?;
        assert all[i + 1].name == current;
      }
    }
  }

  /** A published byte lag is how far the site is behind the primary and never
      negative; it is published exactly when both positions are known. */
  lemma {:induction false} LagIsDistanceBehind(all: seq<Obs>, current: string, i: nat)
    requires UniqueNames(all) && i < |all|
    ensures var lag := RowFor(all[i], all, current).lagBytes; var wal := PrimaryWal(all, current);
      && (lag.Some? <==> all[i].wal.Some? && exists j :: 0 <= j < |all| && all[j].name == current && all[j].wal.Some?)
      && (forall j :: 0 <= j < |all| && all[j].name == current && all[j].wal.Some? && lag.Some? ==>
            var behind := all[j].wal.value.value - all[i].wal.value.value;
            lag.value == if behind > 0 then behind else 0)
  {
    PrimaryWalIsPrimarys(all, current);
  }

  /** A site of a pass has primary gauge 1 if it is the current primary and 0 otherwise,
      so at most one has 1; the other gauges say what was observed of it. */
  lemma {:induction false} OnePrimaryGauge(all: seq<Obs>, current: string, i: nat)
    requires UniqueNames(all) && i < |all|
    ensures var row, o := RowFor(all[i], all, current), all[i];
      && row.primary.Some? && row.primary.value in {0, 1} && (row.primary.value == 1 <==> o.name == current)
      && row.reachable.Some? && row.reachable.value in {0, 1} && (row.reachable.value == 1 <==> o.reachable)
      && row.ready.Some? && row.ready.value in {0, 1} && (row.ready.value == 1 <==> o.ready)
      && row.lagSeconds == o.lag
      && (o.wal.None? ==> row.lsnBytes == None && row.lsn == {})
      && (o.wal.Some? ==> row.lsnBytes == Some(o.wal.value.value) && row.lsn == {o.wal.value.text} - {""})
    ensures RowFor(all[i], all, current).primary == Some(1) ==>
              forall j :: 0 <= j < |all| && RowFor(all[j], all, current).primary == Some(1) ==> i == j
  {
  }

  // ---- The gauge vectors ----

  /** The contents of the gauge vectors; `lsnInfo` carries the position as a label. */
  datatype Board = Board(
    primary: map<Label, int>, reachable: map<Label, int>, ready: map<Label, int>,
    lagSeconds: map<Label, real>, lagBytes: map<Label, int>, lsnBytes: map<Label, int>,
    lsnInfo: map<Label, set<string>>)

  const EMPTY_BOARD := Board(map[], map[], map[], map[], map[], map[], map[])

  function Lookup<V>(m: map<Label, V>, l: Label): Option<V> {
    if l in m then Some(m[l]) else None
  }

  function Assign<V>(m: map<Label, V>, l: Label, v: Option<V>): map<Label, V> {
    if v.Some? then m[l := v.value] else m - {l}
  }

  /** The `lsn` labels under which a site has a series. */
  function Series(info: map<Label, set<string>>, l: Label): set<string> {
    if l in info then info[l] else {}
  }

  /** Deletes every series of the site, then adds the new one, if any. */
  function Relabel(info: map<Label, set<string>>, l: Label, lsn: Option<string>): map<Label, set<string>> {
    if lsn.Some? then info[l := {lsn.value}] else info - {l}
  }

  function RowOf(b: Board, l: Label): Row {
    Row(Lookup(b.primary, l), Lookup(b.reachable, l), Lookup(b.ready, l),
        Lookup(b.lagSeconds, l), Lookup(b.lagBytes, l), Lookup(b.lsnBytes, l),
        Series(b.lsnInfo, l))
  }

  function LsnText(o: Obs): Option<string> {
    if o.wal.Some? && o.wal.value.text != "" then Some(o.wal.value.text) else None
  }

  function LsnBytes(o: Obs): Option<int> {
    if o.wal.Some? then Some(o.wal.value.value) else None
  }

  /** The body of the loop over sites. */
  function Publish(b: Board, l: Label, o: Obs, current: string, wal: Option<nat>): Board {
    Board(b.primary[l := Gauge(o.name == current)], b.reachable[l := Gauge(o.reachable)], b.ready[l := Gauge(o.ready)],
          Assign(b.lagSeconds, l, o.lag), Assign(b.lagBytes, l, LagBytes(o, current, wal)),
          Assign(b.lsnBytes, l, LsnBytes(o)), Relabel(b.lsnInfo, l, LsnText(o)))
  }

  function PublishFirst(b: Board, key: Key, all: seq<Obs>, current: string, n: nat): Board
    requires n <= |all|
  {
    if n == 0 then b
    else Publish(PublishFirst(b, key, all, current, n - 1), Label(key, all[n - 1].name), all[n - 1], current,
                 PrimaryWal(all, current))
  }

  function PublishAll(b: Board, key: Key, all: seq<Obs>, current: string): Board {
    PublishFirst(b, key, all, current, |all|)
  }

  /** Cardinality of the `lsn` label: at most one series per site. */
  ghost predicate OneSeriesPerSite(b: Board) {
    forall l :: |RowOf(b, l).lsn| <= 1
  }

  /** Publishing a site sets its own row and no other. */
  lemma {:induction false} PublishRow(b: Board, all: seq<Obs>, i: nat, l: Label, current: string, m: Label)
    requires i < |all|
    ensures var b' := Publish(b, l, all[i], current, PrimaryWal(all, current));
      RowOf(b', m) == if m == l then RowFor(all[i], all, current) else RowOf(b, m)
  {
  }

  lemma {:induction false} RowOfPublished(b: Board, key: Key, all: seq<Obs>, current: string, n: nat, i: nat)
    requires UniqueNames(all) && i < n <= |all|
    ensures RowOf(PublishFirst(b, key, all, current, n), Label(key, all[i].name)) == RowFor(all[i], all, current)
  {
    PublishRow(PublishFirst(b, key, all, current, n - 1), all, n - 1, Label(key, all[n - 1].name), current,
               Label(key, all[i].name));
    if i < n - 1 {
      RowOfPublished(b, key, all, current, n - 1, i);
    }
  }

  lemma {:induction false} RowOfOther(b: Board, key: Key, all: seq<Obs>, current: string, n: nat, l: Label)
    requires n <= |all| && (l.key != key || forall i :: 0 <= i < n ==> all[i].name != l.site)
    ensures RowOf(PublishFirst(b, key, all, current, n), l) == RowOf(b, l)
  {
    if n > 0 {
      PublishRow(PublishFirst(b, key, all, current, n - 1), all, n - 1, Label(key, all[n - 1].name), current, l);
      RowOfOther(b, key, all, current, n - 1, l);
    }
  }

  lemma {:induction false} SeriesStaySingle(b: Board, key: Key, all: seq<Obs>, current: string, n: nat, l: Label)
    requires n <= |all| && |RowOf(b, l).lsn| <= 1
    ensures |RowOf(PublishFirst(b, key, all, current, n), l).lsn| <= 1
  {
    if n > 0 {
      SeriesStaySingle(b, key, all, current, n - 1, l);
      PublishSeries(PublishFirst(b, key, all, current, n - 1), Label(key, all[n - 1].name), all[n - 1], current,
                    PrimaryWal(all, current), l);
    }
  }

  lemma {:induction false} PublishSeries(b: Board, l: Label, o: Obs, current: string, wal: Option<nat>, m: Label)
    requires |RowOf(b, m).lsn| <= 1
    ensures |RowOf(Publish(b, l, o, current, wal), m).lsn| <= 1
  {
  }

  /** Published metrics forget the past: after a pass the rows of its sites are a
      function of that pass's observations alone, every other row is untouched, and
      no site gains a second `lsn` series. */
  lemma {:induction false} PublishedRowsForgetThePast(b: Board, key: Key, all: seq<Obs>, current: string)
    requires UniqueNames(all)
    ensures var b' := PublishAll(b, key, all, current);
      && (forall i :: 0 <= i < |all| ==> RowOf(b', Label(key, all[i].name)) == RowFor(all[i], all, current))
      && (forall l: Label :: (l.key != key || forall i :: 0 <= i < |all| ==> all[i].name != l.site) ==>
            RowOf(b', l) == RowOf(b, l))
      && (OneSeriesPerSite(b) ==> OneSeriesPerSite(b'))
  {
    var b' := PublishAll(b, key, all, current);
    forall i | 0 <= i < |all|
      ensures RowOf(b', Label(key, all[i].name)) == RowFor(all[i], all, current)
    {
      RowOfPublished(b, key, all, current, |all|, i);
    }
    forall l: Label | l.key != key || forall i :: 0 <= i < |all| ==> all[i].name != l.site
      ensures RowOf(b', l) == RowOf(b, l)
    {
      RowOfOther(b, key, all, current, |all|, l);
    }
    if OneSeriesPerSite(b) {
      forall l ensures |RowOf(b', l).lsn| <= 1 {
        SeriesStaySingle(b, key, all, current, |all|, l);
      }
    }
  }

  /** One publication: of which HACluster, with which observations and primary. */
  datatype Publication = Publication(key: Key, all: seq<Obs>, current: string)

  function BoardAfter(history: seq<Publication>): Board {
    if history == [] then EMPTY_BOARD else
    var p := history[|history| - 1];
    PublishAll(BoardAfter(history[..|history| - 1]), p.key, p.all, p.current)
  }

  /** Over every sequence of publications of any HAClusters, at most one `lsn`
      series exists per site. */
  lemma {:induction false} OneSeriesOverRuns(history: seq<Publication>)
    ensures OneSeriesPerSite(BoardAfter(history))
  {
    if history != [] {
      var p, b := history[|history| - 1], BoardAfter(history[..|history| - 1]);
      OneSeriesOverRuns(history[..|history| - 1]);
      forall l ensures |RowOf(BoardAfter(history), l).lsn| <= 1 {
        SeriesStaySingle(b, p.key, p.all, p.current, |p.all|, l);
      }
    }
  }

  /** The package-level collectors and their Set and Clear functions. */
  class Collectors {
    var currentPrimarySite: map<Label, int>
    var siteReachable: map<Label, int>
    var siteReady: map<Label, int>
    var replicaLagSeconds: map<Label, real>
    var replicaLagBytes: map<Label, int>
    var siteCurrentLSNBytes: map<Label, int>
    var siteLSNInfo: map<Label, set<string>>
    var splitBrain: map<Key, int>

    constructor ()
      ensures View() == EMPTY_BOARD && splitBrain == map[]
    {
      currentPrimarySite, siteReachable, siteReady := map[], map[], map[];
      replicaLagSeconds, replicaLagBytes, siteCurrentLSNBytes := map[], map[], map[];
      siteLSNInfo, splitBrain := map[], map[];
    }

    ghost function View(): Board
      reads this
    {
      Board(currentPrimarySite, siteReachable, siteReady, replicaLagSeconds, replicaLagBytes, siteCurrentLSNBytes,
            siteLSNInfo)
    }

    method SetSite(l: Label, isPrimary: bool, reachable: bool, ready: bool)
      modifies this`currentPrimarySite, this`siteReachable, this`siteReady
      ensures currentPrimarySite == old(currentPrimarySite)[l := Gauge(isPrimary)]
      ensures siteReachable == old(siteReachable)[l := Gauge(reachable)]
      ensures siteReady == old(siteReady)[l := Gauge(ready)]
    {
      currentPrimarySite := currentPrimarySite[l := Gauge(isPrimary)];
      siteReachable := siteReachable[l := Gauge(reachable)];
      siteReady := siteReady[l := Gauge(ready)];
    }

    /** SetSiteLSNInfo and ClearSiteLSNInfo: both first delete every series of the site. */
    method SetSiteLSNInfo(l: Label, lsn: Option<string>)
      modifies this`siteLSNInfo
      ensures siteLSNInfo == Relabel(old(siteLSNInfo), l, lsn)
    {
      ghost var was := siteLSNInfo;
      siteLSNInfo := siteLSNInfo - {l};
      if lsn.Some? {
        assert Series(siteLSNInfo, l) + {lsn.value} == {lsn.value};
        siteLSNInfo := siteLSNInfo[l := Series(siteLSNInfo, l) + {lsn.value}];
        assert siteLSNInfo == was[l := {lsn.value}];
      }
    }

    method PublishMetrics(key: Key, current: string, split: bool, all: seq<Obs>)
      modifies this
      ensures View() == PublishAll(old(View()), key, all, current)
      ensures splitBrain == old(splitBrain)[key := Gauge(split)]
    {
      var wal: Option<nat> := None;
      for i := 0 to |all|
        invariant wal == None && PrimaryWal(all, current) == PrimaryWal(all[i..], current)
      {
        if all[i].name == current && all[i].wal.Some? {
          wal := Some(all[i].wal.value.value);
          break;
        }
      }
      for i := 0 to |all|
        invariant View() == PublishFirst(old(View()), key, all, current, i)
        invariant splitBrain == old(splitBrain)
      {
        PublishSite(Label(key, all[i].name), all[i], current, wal);
      }
      splitBrain := splitBrain[key := Gauge(split)];
    }

    method PublishSite(l: Label, o: Obs, current: string, wal: Option<nat>)
      modifies this
      ensures View() == Publish(old(View()), l, o, current, wal)
      ensures splitBrain == old(splitBrain)
    {
      SetSite(l, o.name == current, o.reachable, o.ready);
      SetReplicaLag(l, o.lag);
      PublishLagBytes(l, o, current, wal);
      SetSiteCurrentLSNBytes(l, if o.wal.Some? then Some(o.wal.value.value) else None);
      if o.wal.Some? && o.wal.value.text != "" {
        SetSiteLSNInfo(l, Some(o.wal.value.text));
      } else {
        SetSiteLSNInfo(l, None);
      }
    }

    /** SetReplicaLag and ClearReplicaLag. */
    method SetReplicaLag(l: Label, seconds: Option<real>)
      modifies this`replicaLagSeconds
      ensures replicaLagSeconds == Assign(old(replicaLagSeconds), l, seconds)
    {
      if seconds.Some? {
        replicaLagSeconds := replicaLagSeconds[l := seconds.value];
      } else {
        replicaLagSeconds := replicaLagSeconds - {l};
      }
    }

    /** The switch that sets or clears the byte lag, with its underflow guard. */
    method PublishLagBytes(l: Label, o: Obs, current: string, wal: Option<nat>)
      modifies this`replicaLagBytes
      ensures replicaLagBytes == Assign(old(replicaLagBytes), l, LagBytes(o, current, wal))
    {
      if wal.None? || o.wal.None? {
        replicaLagBytes := replicaLagBytes - {l};
      } else if o.name == current || o.wal.value.value >= wal.value {
        replicaLagBytes := replicaLagBytes[l := 0];
      } else {
        replicaLagBytes := replicaLagBytes[l := wal.value - o.wal.value.value];
      }
    }

    /** SetSiteCurrentLSNBytes and ClearSiteCurrentLSNBytes. */
    method SetSiteCurrentLSNBytes(l: Label, bytes: Option<int>)
      modifies this`siteCurrentLSNBytes
      ensures siteCurrentLSNBytes == Assign(old(siteCurrentLSNBytes), l, bytes)
    {
      if bytes.Some? {
        siteCurrentLSNBytes := siteCurrentLSNBytes[l := bytes.value];
      } else {
        siteCurrentLSNBytes := siteCurrentLSNBytes - {l};
      }
    }
  }
}
