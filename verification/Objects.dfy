/** The objects cnpg-ha reads and writes, and one API call on them.

    A site is one Kubernetes cluster holding (at most) the CNPG Cluster and the
    `-rw` Service named by the HACluster, so a federation of sites is a map from
    site name to those two objects.  Every API call has a *fate*, chosen by the
    environment, and every committed change is recorded as a snapshot: the
    snapshots are exactly the states in which a crash can leave the federation. */
module Objects {

  datatype Option<+T> = None | Some(value: T)

  /** `NotFound` is what `apierrors.IsNotFound` recognises; the rest is `Failed`. */
  datatype Error = NotFound | Failed
  datatype Result<+T> = Ok(value: T) | Err(error: Error)

  const FENCED_INSTANCES := "cnpg.io/fencedInstances"
  const ALL_INSTANCES := "[\"*\"]"
  const CILIUM_GLOBAL := "service.cilium.io/global"
  const CILIUM_AFFINITY := "service.cilium.io/affinity"

  /** `spec.replica.enabled`: absent, a boolean, or a value of another type. */
  datatype ReplicaFlag = Absent | Enabled(on: bool) | Malformed

  /** One element of `spec.externalClusters`; `Opaque` is an element that is not an object. */
  datatype External = External(name: string, params: map<string, string>) | Opaque

  datatype Cluster = Cluster(
    annotations: map<string, string>,
    flag: ReplicaFlag,
    source: string,
    externals: seq<External>,
    readyInstances: int,
    timeline: int)

  datatype Service = Service(annotations: map<string, string>)

  datatype Site = Site(cluster: Option<Cluster>, service: Option<Service>)

  type Sites = map<string, Site>

  /** CNPG primary mode: the flag is anything but `true`. */
  predicate IsPrimary(c: Cluster) {
    c.flag != Enabled(true)
  }

  /** Every instance is fenced. */
  predicate IsFenced(c: Cluster) {
    FENCED_INSTANCES in c.annotations && c.annotations[FENCED_INSTANCES] == ALL_INSTANCES
  }

  function At(sites: Sites, n: string): Site {
    if n in sites then sites[n] else Site(None, None)
  }

  predicate PrimaryAt(sites: Sites, n: string) {
    At(sites, n).cluster.Some? && IsPrimary(At(sites, n).cluster.value)
  }

  predicate ReplicaAt(sites: Sites, n: string) {
    At(sites, n).cluster.Some? && !IsPrimary(At(sites, n).cluster.value)
  }

  predicate FencedOrGone(sites: Sites, n: string) {
    At(sites, n).cluster.Some? ==> IsFenced(At(sites, n).cluster.value)
  }

  /** A site that may accept writes: primary mode and not fully fenced. */
  predicate WriterAt(sites: Sites, n: string) {
    PrimaryAt(sites, n) && !FencedOrGone(sites, n)
  }

  ghost predicate AtMostOneWriter(sites: Sites) {
    forall m, n :: WriterAt(sites, m) && WriterAt(sites, n) ==> m == n
  }

  /** What the environment does to one API call.
      Go: the call is served.  Deny: it fails and has no effect.  Lost: a write
      commits but its caller sees an error.  Vanish: somebody deletes the object
      just before the call, which then reports NotFound. */
  datatype Fate = Go | Deny | Lost | Vanish

  datatype Store = Store(sites: Sites, trace: seq<Sites>)

  function Commit(st: Store, n: string, site: Site): Store {
    Store(st.sites[n := site], st.trace + [st.sites[n := site]])
  }

  /** The two-way history of one call sequence: nothing committed, or one more snapshot. */
  predicate OneMove(st: Store, st': Store, n: string) {
    || st' == st
    || (&& n in st.sites && n in st'.sites
        && st'.sites == st.sites[n := st'.sites[n]]
        && st'.trace == st.trace + [st'.sites])
  }

  function DropCluster(st: Store, n: string): Store {
    if At(st.sites, n).cluster.Some? then Commit(st, n, At(st.sites, n).(cluster := None)) else st
  }

  function GetCluster(st: Store, n: string, f: Fate): (Store, Result<Cluster>) {
    match f
    case Go => (st, if At(st.sites, n).cluster.Some? then Ok(At(st.sites, n).cluster.value) else Err(NotFound))
    case Vanish => (DropCluster(st, n), Err(NotFound))
    case _ => (st, Err(Failed))
  }

  function UpdateCluster(st: Store, n: string, c: Cluster, f: Fate): (Store, Result<()>) {
    match f
    case Deny => (st, Err(Failed))
    case Vanish => (DropCluster(st, n), Err(NotFound))
    case _ =>
      if At(st.sites, n).cluster.None? then (st, Err(NotFound))
      else (Commit(st, n, At(st.sites, n).(cluster := Some(c))), if f == Go then Ok(()) else Err(Failed))
  }

  function DropService(st: Store, n: string): Store {
    if At(st.sites, n).service.Some? then Commit(st, n, At(st.sites, n).(service := None)) else st
  }

  function GetService(st: Store, n: string, f: Fate): (Store, Result<Service>) {
    match f
    case Go => (st, if At(st.sites, n).service.Some? then Ok(At(st.sites, n).service.value) else Err(NotFound))
    case Vanish => (DropService(st, n), Err(NotFound))
    case _ => (st, Err(Failed))
  }

  function UpdateService(st: Store, n: string, s: Service, f: Fate): (Store, Result<()>) {
    match f
    case Deny => (st, Err(Failed))
    case Vanish => (DropService(st, n), Err(NotFound))
    case _ =>
      if At(st.sites, n).service.None? then (st, Err(NotFound))
      else (Commit(st, n, At(st.sites, n).(service := Some(s))), if f == Go then Ok(()) else Err(Failed))
  }
}
