/** internal/promotion: the idempotent steps of a failover.

    `Revise` is what each step asks of a CNPG Cluster document; `Apply` is the
    whole read-modify-write of that step against the API under given fates.  The
    class `Federation` holds the steps as the source writes them. */
module Promotion {
  import opened Objects

  datatype Edit = Fence | Promote | Reconfigure(host: string)

  datatype Role = RoleLocal | RoleRemote

  function AffinityValue(role: Role): string {
    if role == RoleRemote then "remote" else "local"
  }

  /** First external object with the given name. */
  function NamedExternal(externals: seq<External>, source: string, from: nat): (r: Option<nat>)
    requires from <= |externals|
    ensures r.Some? ==>
              && from <= r.value < |externals|
              && externals[r.value].External? && externals[r.value].name == source
              && forall j :: from <= j < r.value ==> externals[j].Opaque? || externals[j].name != source
    ensures r.None? ==> forall j :: from <= j < |externals| ==> externals[j].Opaque? || externals[j].name != source
    decreases |externals| - from
  {
    if from == |externals| then None
    else if externals[from].External? && externals[from].name == source then Some(from)
    else NamedExternal(externals, source, from + 1)
  }

  /** The external cluster `spec.replica.source` selects, if it selects one. */
  function Selected(externals: seq<External>, source: string): (r: Option<nat>)
    ensures r.Some? ==> r.value < |externals|
  {
    if source == "" then (if |externals| == 1 then Some(0) else None)
    else NamedExternal(externals, source, 0)
  }

  /** Which external cluster a source means: the first object of that name or, without
      a name, the only element there is. */
  ghost predicate Selects(externals: seq<External>, source: string, i: nat) {
    if source == "" then |externals| == 1 && i == 0 else
    && i < |externals| && externals[i].External? && externals[i].name == source
    && forall j :: 0 <= j < i ==> externals[j].Opaque? || externals[j].name != source
  }

  lemma {:induction false} SelectedExactly(externals: seq<External>, source: string)
    ensures forall i: nat :: Selected(externals, source) == Some(i) <==> Selects(externals, source, i)
  {
    var r := NamedExternal(externals, source, 0);
    forall i: nat | source != "" && Selects(externals, source, i)
      ensures r == Some(i)
    {
      if r.Some? {
        assert r.value == i;
      }
    }
  }

  /** The host a Cluster streams from: that of its selected external cluster. */
  function StreamsFrom(c: Cluster): Option<string> {
    match Selected(c.externals, c.source)
    case None => None
    case Some(i) =>
      if c.externals[i].External? && "host" in c.externals[i].params
      then Some(c.externals[i].params["host"]) else None
  }

  function Repointed(c: Cluster, host: string): Result<Cluster> {
    match Selected(c.externals, c.source)
    case None => Err(Failed)
    case Some(i) =>
      match c.externals[i]
      case Opaque => Err(Failed)
      case External(name, params) =>
        Ok(c.(externals := c.externals[i := External(name, params["host" := host])], flag := Enabled(true)))
  }

  function Revise(e: Edit, c: Cluster): Result<Cluster> {
    match e
    case Fence => Ok(c.(annotations := c.annotations[FENCED_INSTANCES := ALL_INSTANCES]))
    case Promote => if c.flag == Malformed then Err(Failed)
                    else if IsPrimary(c) then Ok(c) else Ok(c.(flag := Enabled(false)))
    case Reconfigure(host) => if host == "" then Err(Failed) else Repointed(c, host)
  }

  /** One step against the API: read, compare, write back only a difference.
      The contract says everything a caller may rely on: only the Cluster of
      site `n` can move, at most one snapshot is added, success means the edit is
      in force, and NotFound means the Cluster is gone. */
  function Apply(e: Edit, n: string, st: Store, get: Fate, update: Fate): (r: (Store, Result<()>))
    ensures OneMove(st, r.0, n)
    ensures At(r.0.sites, n).service == At(st.sites, n).service
    ensures r.1.Ok? ==>
              && At(st.sites, n).cluster.Some?
              && Revise(e, At(st.sites, n).cluster.value).Ok?
              && At(r.0.sites, n).cluster == Some(Revise(e, At(st.sites, n).cluster.value).value)
    ensures r.1 == Err(NotFound) ==> At(r.0.sites, n).cluster.None?
    ensures At(r.0.sites, n).cluster != At(st.sites, n).cluster ==>
              || (At(r.0.sites, n).cluster.None? && Vanish in {get, update})
              || (&& get == Go && update in {Go, Lost} && At(st.sites, n).cluster.Some?
                  && Revise(e, At(st.sites, n).cluster.value).Ok?
                  && At(r.0.sites, n).cluster == Some(Revise(e, At(st.sites, n).cluster.value).value))
  {
    if e == Reconfigure("") then (st, Err(Failed)) else
    var (s1, got) := GetCluster(st, n, get);
    match got
    case Err(err) => (s1, Err(err))
    case Ok(c) =>
      match Revise(e, c)
      case Err(err) => (s1, Err(err))
      case Ok(c') => if c' == c then (s1, Ok(())) else UpdateCluster(s1, n, c', update)
  }

  function Routed(s: Service, role: Role): Service {
    s.(annotations := s.annotations[CILIUM_GLOBAL := "true"][CILIUM_AFFINITY := AffinityValue(role)])
  }

  /** The annotations of a routed Service: global, with the affinity of its role, and
      everything else as it was. */
  ghost predicate CarriesRoute(was: map<string, string>, now: map<string, string>, affinity: string) {
    && "service.cilium.io/global" in now && now["service.cilium.io/global"] == "true"
    && "service.cilium.io/affinity" in now && now["service.cilium.io/affinity"] == affinity
    && (forall k :: k in was ==> k in now)
    && (forall k :: k in now && k !in {"service.cilium.io/global", "service.cilium.io/affinity"} ==>
          k in was && now[k] == was[k])
  }

  /** The promoted site's Service prefers local endpoints, the old one remote ones. */
  lemma {:induction false} RouteExactly(s: Service)
    ensures CarriesRoute(s.annotations, Routed(s, RoleLocal).annotations, "local")
    ensures CarriesRoute(s.annotations, Routed(s, RoleRemote).annotations, "remote")
  {
    assert CILIUM_GLOBAL[18] != CILIUM_AFFINITY[18];
  }

  /** FlipCiliumService: the same discipline on the `-rw` Service. */
  function Flip(n: string, role: Role, st: Store, get: Fate, update: Fate): (r: (Store, Result<()>))
    ensures OneMove(st, r.0, n)
    ensures At(r.0.sites, n).cluster == At(st.sites, n).cluster
    ensures r.1.Ok? ==>
              && At(st.sites, n).service.Some?
              && At(r.0.sites, n).service == Some(Routed(At(st.sites, n).service.value, role))
    ensures r.1 == Err(NotFound) ==> At(r.0.sites, n).service.None?
    ensures At(r.0.sites, n).service != At(st.sites, n).service ==>
              || (At(r.0.sites, n).service.None? && Vanish in {get, update})
              || (&& get == Go && update in {Go, Lost} && At(st.sites, n).service.Some?
                  && At(r.0.sites, n).service == Some(Routed(At(st.sites, n).service.value, role)))
  {
    var (s1, got) := GetService(st, n, get);
    match got
    case Err(err) => (s1, Err(err))
    case Ok(s) => if Routed(s, role) == s then (s1, Ok(())) else UpdateService(s1, n, Routed(s, role), update)
  }

  /** Exactly when a step succeeds, and when it reports a missing object. */
  lemma {:induction false} ApplyExactly(e: Edit, n: string, st: Store, get: Fate, update: Fate)
    ensures var r := Apply(e, n, st, get, update).1; var c := At(st.sites, n).cluster;
      && (r.Ok? <==> && get == Go && c.Some? && Revise(e, c.value).Ok?
                     && (Revise(e, c.value).value == c.value || update == Go))
      && (r == Err(NotFound) <==>
            && e != Reconfigure("")
            && (|| get == Vanish || (get == Go && c.None?)
                || (&& get == Go && Revise(e, c.value).Ok? && Revise(e, c.value).value != c.value && update == Vanish)))
  {
  }

  lemma {:induction false} FlipExactly(n: string, role: Role, st: Store, get: Fate, update: Fate)
    ensures var r := Flip(n, role, st, get, update).1; var s := At(st.sites, n).service;
      && (r.Ok? <==> get == Go && s.Some? && (Routed(s.value, role) == s.value || update == Go))
      && (r == Err(NotFound) <==>
            || get == Vanish || (get == Go && s.None?)
            || (get == Go && Routed(s.value, role) != s.value && update == Vanish))
  {
  }

  // ---- Step algebra ----

  /** Each edit is idempotent on documents. */
  lemma {:induction false} ReviseIdempotent(e: Edit, c: Cluster)
    requires Revise(e, c).Ok?
    ensures Revise(e, Revise(e, c).value) == Ok(Revise(e, c).value)
  {
    var c' := Revise(e, c).value;
    if e.Fence? {
      assert c'.annotations[FENCED_INSTANCES := ALL_INSTANCES] == c'.annotations;
    } else if e.Reconfigure? {
      RepointKeepsSelection(c, e.host);
      var i := Selected(c.externals, c.source).value;
      assert c'.externals[i].params["host" := e.host] == c'.externals[i].params;
      assert c'.externals[i := c'.externals[i]] == c'.externals;
    }
  }

  /** A Cluster that Reconfigure can point elsewhere. */
  ghost predicate Repointable(c: Cluster) {
    exists i: nat :: Selects(c.externals, c.source, i) && c.externals[i].External?
  }

  /** What a Cluster streams from, and when Reconfigure can change it, by the documents
      alone: Reconfigure refuses an empty host, a source that means nothing, and an
      element that is not an object. */
  lemma {:induction false} ReconfigureExactly(c: Cluster, host: string)
    ensures Revise(Reconfigure(host), c).Ok? <==> host != "" && Repointable(c)
    ensures forall i: nat :: Selects(c.externals, c.source, i) && c.externals[i].External? ==>
              StreamsFrom(c) == if "host" in c.externals[i].params then Some(c.externals[i].params["host"]) else None
    ensures (forall i: nat :: Selects(c.externals, c.source, i) ==> c.externals[i].Opaque?) ==> StreamsFrom(c) == None
  {
    SelectedExactly(c.externals, c.source);
  }

  /** Rewriting the selected host selects the same external cluster again. */
  lemma {:induction false} RepointKeepsSelection(c: Cluster, host: string)
    requires Repointed(c, host).Ok?
    ensures var c' := Repointed(c, host).value;
            Selected(c'.externals, c'.source) == Selected(c.externals, c.source)
            && StreamsFrom(c') == Some(host)
  {
    var c' := Repointed(c, host).value;
    if c.source != "" {
      var i := NamedExternal(c.externals, c.source, 0);
      var i' := NamedExternal(c'.externals, c.source, 0);
      assert c'.externals[i.value].name == c.source;
      assert i'.value >= i.value;
    }
  }

  /** Fencing commutes with every edit. */
  lemma {:induction false} FenceCommutes(e: Edit, c: Cluster)
    ensures Revise(e, Revise(Fence, c).value).Ok? == Revise(e, c).Ok?
    ensures Revise(e, c).Ok? ==>
              Revise(e, Revise(Fence, c).value) == Revise(Fence, Revise(e, c).value)
  {
  }

  /** After a step the health probe reads the role the step is for, a fence is
      never removed, and Reconfigure touches only the host of the selected
      external cluster and the role flag. */
  lemma {:induction false} ReviseFrame(e: Edit, c: Cluster)
    requires Revise(e, c).Ok?
    ensures var c' := Revise(e, c).value;
      && (IsFenced(c) ==> IsFenced(c'))
      && (e.Fence? ==> && IsFenced(c') && c'.flag == c.flag
                       && "cnpg.io/fencedInstances" in c'.annotations
                       && c'.annotations["cnpg.io/fencedInstances"] == "[\"*\"]")
      && (e.Promote? ==> && c'.annotations == c.annotations
                         && c'.flag == if c.flag == Enabled(true) then Enabled(false) else c.flag)
      && (e.Promote? ==> IsPrimary(c'))
      && (e.Reconfigure? ==> !IsPrimary(c') && StreamsFrom(c') == Some(e.host) && c'.annotations == c.annotations)
      && (forall k :: k in c.annotations && k != FENCED_INSTANCES ==>
            k in c'.annotations && c'.annotations[k] == c.annotations[k])
      && c'.source == c.source && |c'.externals| == |c.externals|
      && (forall i :: 0 <= i < |c.externals| && c'.externals[i] != c.externals[i] ==>
            && e.Reconfigure? && Selected(c.externals, c.source) == Some(i)
            && c.externals[i].External?
            && c'.externals[i] == c.externals[i].(params := c.externals[i].params["host" := e.host]))
      && (c'.readyInstances, c'.timeline) == (c.readyInstances, c.timeline)
  {
    if e.Reconfigure? {
      RepointKeepsSelection(c, e.host);
    }
  }

  /** A step that has succeeded commits nothing when it is repeated, whatever
      happens to the repeated calls short of a deletion. */
  lemma {:induction false} ApplyTwiceWritesOnce(
      e: Edit, n: string, st: Store, get: Fate, update: Fate, get': Fate, update': Fate)
    requires Apply(e, n, st, get, update).1.Ok?
    requires get' != Vanish
    ensures var st1 := Apply(e, n, st, get, update).0;
            Apply(e, n, st1, get', update').0 == st1
            && (get' == Go ==> Apply(e, n, st1, get', update').1.Ok?)
  {
    ReviseIdempotent(e, At(st.sites, n).cluster.value);
  }

  /** The steps as the source writes them, on the API state they share. */
  class Federation {
    var store: Store

    constructor (sites: Sites)
      ensures store == Store(sites, [])
    {
      store := Store(sites, []);
    }

    method ReadCluster(n: string, f: Fate) returns (r: Result<Cluster>)
      modifies this
      ensures (store, r) == GetCluster(old(store), n, f)
    {
      var p := GetCluster(store, n, f);
      store, r := p.0, p.1;
    }

    method WriteCluster(n: string, c: Cluster, f: Fate) returns (r: Result<()>)
      modifies this
      ensures (store, r) == UpdateCluster(old(store), n, c, f)
    {
      var p := UpdateCluster(store, n, c, f);
      store, r := p.0, p.1;
    }

    method ReadService(n: string, f: Fate) returns (r: Result<Service>)
      modifies this
      ensures (store, r) == GetService(old(store), n, f)
    {
      var p := GetService(store, n, f);
      store, r := p.0, p.1;
    }

    method WriteService(n: string, s: Service, f: Fate) returns (r: Result<()>)
      modifies this
      ensures (store, r) == UpdateService(old(store), n, s, f)
    {
      var p := UpdateService(store, n, s, f);
      store, r := p.0, p.1;
    }

    method FenceCluster(n: string, get: Fate, update: Fate) returns (r: Result<()>)
      modifies this
      ensures (store, r) == Apply(Fence, n, old(store), get, update)
    {
      var got := ReadCluster(n, get);
      if got.Err? {
        return Err(got.error);
      }
      var ann := got.value.annotations;
      if FENCED_INSTANCES in ann && ann[FENCED_INSTANCES] == ALL_INSTANCES {
        assert ann[FENCED_INSTANCES := ALL_INSTANCES] == ann;
        return Ok(());
      }
      ann := ann[FENCED_INSTANCES := ALL_INSTANCES];
      r := WriteCluster(n, got.value.(annotations := ann), update);
    }

    method PromoteCluster(n: string, get: Fate, update: Fate) returns (r: Result<()>)
      modifies this
      ensures (store, r) == Apply(Promote, n, old(store), get, update)
    {
      var got := ReadCluster(n, get);
      if got.Err? {
        return Err(got.error);
      }
      var flag := got.value.flag;
      if flag == Malformed {
        return Err(Failed);
      }
      if flag == Absent || !flag.on {
        return Ok(());
      }
      r := WriteCluster(n, got.value.(flag := Enabled(false)), update);
    }

    method ExternalClusterIndex(externals: seq<External>, source: string) returns (r: Result<nat>)
      ensures r == (match Selected(externals, source) case None => Err(Failed) case Some(i) => Ok(i))
    {
      if source == "" {
        if |externals| != 1 {
          return Err(Failed);
        }
        return Ok(0);
      }
      for i := 0 to |externals|
        invariant NamedExternal(externals, source, 0) == NamedExternal(externals, source, i)
      {
        if externals[i].External? && externals[i].name == source {
          return Ok(i);
        }
      }
      return Err(Failed);
    }

    method ReconfigureCluster(n: string, host: string, get: Fate, update: Fate) returns (r: Result<()>)
      modifies this
      ensures (store, r) == Apply(Reconfigure(host), n, old(store), get, update)
    {
      if host == "" {
        return Err(Failed);
      }
      var got := ReadCluster(n, get);
      if got.Err? {
        return Err(got.error);
      }
      var c := got.value;
      if |c.externals| == 0 {
        assert Selected(c.externals, c.source) == None;
        return Err(Failed);
      }
      var idx := ExternalClusterIndex(c.externals, c.source);
      if idx.Err? {
        return Err(Failed);
      }
      var ext := c.externals[idx.value];
      if ext.Opaque? {
        return Err(Failed);
      }
      var conn := ext.params;
      if c.flag == Enabled(true) && "host" in conn && conn["host"] == host {
        assert conn["host" := host] == conn;
        return Ok(());
      }
      conn := conn["host" := host];
      ghost var c' := c.(externals := c.externals[idx.value := ext.(params := conn)], flag := Enabled(true));
      assert c' != c by {
        if c.flag == Enabled(true) {
          assert c'.externals[idx.value] != c.externals[idx.value];
        }
      }
      var externals := c.externals[idx.value := External(ext.name, conn)];
      r := WriteCluster(n, c.(externals := externals, flag := Enabled(true)), update);
    }

    method FlipCiliumService(n: string, role: Role, get: Fate, update: Fate) returns (r: Result<()>)
      modifies this
      ensures (store, r) == Flip(n, role, old(store), get, update)
    {
      var got := ReadService(n, get);
      if got.Err? {
        return Err(got.error);
      }
      var ann := got.value.annotations;
      var want := AffinityValue(role);
      if && CILIUM_GLOBAL in ann && ann[CILIUM_GLOBAL] == "true"
         && CILIUM_AFFINITY in ann && ann[CILIUM_AFFINITY] == want {
        assert ann[CILIUM_GLOBAL := "true"][CILIUM_AFFINITY := want] == ann;
        return Ok(());
      }
      ann := ann[CILIUM_GLOBAL := "true"];
      ann := ann[CILIUM_AFFINITY := want];
      assert CILIUM_GLOBAL != CILIUM_AFFINITY by {
        assert CILIUM_GLOBAL[18] != CILIUM_AFFINITY[18];
      }
      r := WriteService(n, got.value.(annotations := ann), update);
    }
  }
}
