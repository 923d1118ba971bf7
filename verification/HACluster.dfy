/** The HACluster resource: its spec, its status, and the effective parameters
    the controller derives from the spec. */
module HACluster {
  import opened Objects

  datatype Mode = Automatic | Manual | OtherMode
  datatype PromotionPolicy = MostAdvancedLSN | Ordered | OtherPolicy
  datatype RejoinPolicy = AutoReplica | ManualRejoin | UnsetRejoin

  datatype SiteSpec = SiteSpec(name: string, endpoint: string)

  datatype Failover = Failover(
    mode: Mode, interval: int, threshold: int, policy: PromotionPolicy, rejoin: RejoinPolicy)

  datatype Spec = Spec(primary: SiteSpec, replicas: seq<SiteSpec>, failover: Failover)

  /** `current` is "" until a primary has been accepted; times are in nanoseconds. */
  datatype Status = Status(current: string, lastFailover: Option<int>, inProgress: bool)

  /** What the hub persists about one HACluster. */
  datatype Hub = Hub(status: Status, promote: Option<string>)

  /** The first element of that name, or |s| when there is none. */
  function FirstNamed<T>(s: seq<T>, name: T -> string, n: string): (r: nat)
    ensures r <= |s|
    ensures r < |s| ==> name(s[r]) == n
    ensures forall j :: 0 <= j < r ==> name(s[j]) != n
  {
    if s == [] || name(s[0]) == n then 0 else 1 + FirstNamed(s[1..], name, n)
  }

  function SiteSpecs(spec: Spec): seq<SiteSpec> {
    [spec.primary] + spec.replicas
  }

  /** Names are non-empty and unique across the primary and the replicas. */
  ghost predicate ValidNames(spec: Spec) {
    && (forall i :: 0 <= i < |SiteSpecs(spec)| ==> SiteSpecs(spec)[i].name != "")
    && (forall i, j :: 0 <= i < j < |SiteSpecs(spec)| ==> SiteSpecs(spec)[i].name != SiteSpecs(spec)[j].name)
  }

  predicate IsReplica(spec: Spec, n: string) {
    exists i :: 0 <= i < |spec.replicas| && spec.replicas[i].name == n
  }

  predicate Declared(spec: Spec, n: string) {
    n == spec.primary.name || IsReplica(spec, n)
  }

  /** The operator's idea of the primary: the persisted one, else the declared one. */
  function Recorded(spec: Spec, status: Status): string {
    if status.current != "" then status.current else spec.primary.name
  }

  function EndpointIn(sites: seq<SiteSpec>, n: string): string {
    if sites == [] then "" else if sites[0].name == n then sites[0].endpoint else EndpointIn(sites[1..], n)
  }

  function Endpoint(spec: Spec, n: string): string {
    EndpointIn(SiteSpecs(spec), n)
  }

  /** The first site of that name gives its endpoint, an unknown name has none. */
  lemma {:induction false} EndpointIsDeclared(sites: seq<SiteSpec>, n: string, i: nat)
    requires i <= |sites| && (forall j :: 0 <= j < i ==> sites[j].name != n)
    requires i < |sites| ==> sites[i].name == n
    ensures EndpointIn(sites, n) == if i < |sites| then sites[i].endpoint else ""
  {
    if i > 0 {
      EndpointIsDeclared(sites[1..], n, i - 1);
    }
  }

  /** replicationEndpointFor: the declared primary first, then the replicas in order. */
  method ReplicationEndpointFor(spec: Spec, n: string) returns (endpoint: string)
    ensures endpoint == Endpoint(spec, n)
  {
    assert SiteSpecs(spec)[1..] == spec.replicas;
    if n == spec.primary.name {
      return spec.primary.endpoint;
    }
    for i := 0 to |spec.replicas|
      invariant EndpointIn(SiteSpecs(spec), n) == EndpointIn(spec.replicas[i..], n)
    {
      if spec.replicas[i].name == n {
        return spec.replicas[i].endpoint;
      }
    }
    return "";
  }

  // ---- Effective parameters ----

  const SECOND := 1_000_000_000
  const MIN_COOLDOWN := 30 * SECOND

  predicate IsInt32(i: int) { -0x8000_0000 <= i < 0x8000_0000 }
  predicate IsInt64(i: int) { -0x8000_0000_0000_0000 <= i < 0x8000_0000_0000_0000 }

  /** A threshold below 2 is replaced by the default 3, so it is always at least 2. */
  function EffectiveThreshold(f: Failover): (t: int)
    ensures t >= 2 && (f.threshold >= 2 ==> t == f.threshold) && (f.threshold < 2 ==> t == 3)
  {
    if f.threshold < 2 then 3 else f.threshold
  }

  function EffectiveInterval(f: Failover): (d: int)
    ensures d >= SECOND && d % SECOND == 0
    ensures d == (if f.interval >= 1 then f.interval else 10) * 1_000_000_000
  {
    if f.interval < 1 then 10 * SECOND else f.interval * SECOND
  }

  /** The larger of 30 s and three intervals; the product is computed in int64
      nanoseconds and cannot overflow for any int32 interval. */
  function Cooldown(f: Failover): (d: int)
    ensures d >= MIN_COOLDOWN == 30_000_000_000 && d >= 3 * EffectiveInterval(f) && d % SECOND == 0
    ensures d == MIN_COOLDOWN || d == 3 * EffectiveInterval(f)
    ensures IsInt32(f.interval) ==> IsInt64(3 * EffectiveInterval(f)) && IsInt64(d)
  {
    if 3 * EffectiveInterval(f) > MIN_COOLDOWN then 3 * EffectiveInterval(f) else MIN_COOLDOWN
  }

  /** A timestamp survives persistence at whole-second precision. */
  function Persisted(t: int): (p: int)
    ensures p <= t < p + SECOND && p % SECOND == 0
  {
    t - t % SECOND
  }
}
