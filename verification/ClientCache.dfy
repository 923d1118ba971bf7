/** remoteclient.Cache: clients kept by kubeconfig Secret, fresh by resourceVersion,
    under any interleaving of the calls that share it. */
module ClientCache {
  import opened Objects

  datatype SecretRef = SecretRef(namespace: string, name: string, key: string)

  datatype Client = Client(id: nat)

  /** The outside world: what each version of each Secret holds under the referenced
      key ("" when it holds nothing), and the client a kubeconfig builds, if any.
      A resourceVersion identifies one content. */
  datatype Registry = Registry(content: (SecretRef, string) -> string, build: string -> Option<Client>)

  datatype Entry = Entry(client: Client, version: string)

  function CacheKey(r: SecretRef): string {
    r.namespace + "/" + r.name + "#" + r.key
  }

  /** No separator where the next part of the key begins. */
  predicate WellNamed(r: SecretRef) {
    '/' !in r.namespace && '#' !in r.name
  }

  /** No separator anywhere it could be mistaken for one. */
  predicate Plain(r: SecretRef) {
    WellNamed(r) && '/' !in r.name && '#' !in r.key
  }

  lemma {:induction false} PrefixUnique(a: string, b: string, a': string, b': string, c: char)
    requires c !in a && c !in a' && a + [c] + b == a' + [c] + b'
    ensures a == a' && b == b'
  {
    var s, s' := a + [c] + b, a' + [c] + b';
    assert s[|a|] == c && s'[|a'|] == c;
    assert |a| == |a'|;
    assert a == s[..|a|] && a' == s'[..|a'|];
    assert b == s[|a| + 1..] && b' == s'[|a'| + 1..];
  }

  /** Among well-named references the cache key determines the reference. */
  lemma {:induction false} CacheKeyInjective(r: SecretRef, r': SecretRef)
    requires WellNamed(r) && WellNamed(r') && CacheKey(r) == CacheKey(r')
    ensures r == r'
  {
    assert CacheKey(r) == r.namespace + ['/'] + (r.name + ['#'] + r.key);
    assert CacheKey(r') == r'.namespace + ['/'] + (r'.name + ['#'] + r'.key);
    PrefixUnique(r.namespace, r.name + ['#'] + r.key, r'.namespace, r'.name + ['#'] + r'.key, '/');
    PrefixUnique(r.name, r.key, r'.name, r'.key, '#');
  }

  lemma {:induction false} CutAt(s: string, c: char) returns (x: string, y: string)
    requires c in s
    ensures s == x + [c] + y
  {
    var i :| 0 <= i < |s| && s[i] == c;
    x, y := s[..i], s[i + 1..];
  }

  lemma {:induction false} EitherSlashCuts(x: string, y: string, z: string, k: string)
    ensures CacheKey(SecretRef(x, y + ['/'] + z, k)) == CacheKey(SecretRef(x + ['/'] + y, z, k))
  {
  }

  lemma {:induction false} EitherHashCuts(ns: string, x: string, y: string, z: string)
    ensures CacheKey(SecretRef(ns, x, y + ['#'] + z)) == CacheKey(SecretRef(ns, x + ['#'] + y, z))
  {
  }

  /** Every reference that is not plain shares its key with another one: any stray
      separator is as good a place to cut the key as the intended one. */
  lemma {:induction false} CacheKeyCollides(r: SecretRef) returns (r': SecretRef)
    requires !Plain(r)
    ensures r' != r && CacheKey(r') == CacheKey(r)
  {
    if '/' in r.namespace {
      var x, y := CutAt(r.namespace, '/');
      r' := SecretRef(x, y + ['/'] + r.name, r.key);
      EitherSlashCuts(x, y, r.name, r.key);
      assert |r'.namespace| < |r.namespace|;
    } else if '/' in r.name {
      var x, y := CutAt(r.name, '/');
      r' := SecretRef(r.namespace + ['/'] + x, y, r.key);
      EitherSlashCuts(r.namespace, x, y, r.key);
      assert |r'.name| < |r.name|;
    } else if '#' in r.name {
      var x, y := CutAt(r.name, '#');
      r' := SecretRef(r.namespace, x, y + ['#'] + r.key);
      EitherHashCuts(r.namespace, x, y, r.key);
      assert |r'.name| < |r.name|;
    } else {
      var x, y := CutAt(r.key, '#');
      r' := SecretRef(r.namespace, r.name + ['#'] + x, y);
      EitherHashCuts(r.namespace, r.name, x, y);
      assert |r'.key| < |r.key|;
    }
  }

  /** In the key of a plain reference no '/' stands before the first separator or
      between the two, and no '#' after the first but the second one. */
  lemma {:induction false} PlainSeparators(r: SecretRef, i: nat)
    requires Plain(r) && i < |CacheKey(r)|
    ensures CacheKey(r)[i] == '/' ==> i == |r.namespace| || i > |r.namespace| + 1 + |r.name|
    ensures CacheKey(r)[i] == '#' ==> i < |r.namespace| || i == |r.namespace| + 1 + |r.name|
  {
  }

  lemma {:induction false} KeyParts(r: SecretRef)
    ensures var s, p, q := CacheKey(r), |r.namespace|, |r.namespace| + 1 + |r.name|;
      && p < q < |s| && s[p] == '/' && s[q] == '#'
      && r.namespace == s[..p] && r.name == s[p + 1..q] && r.key == s[q + 1..]
  {
  }

  /** A plain reference shares its key with none, well-named or not. */
  lemma {:induction false} PlainIsAlone(r: SecretRef, r': SecretRef)
    requires Plain(r) && CacheKey(r) == CacheKey(r')
    ensures r == r'
  {
    KeyParts(r);
    KeyParts(r');
    PlainSeparators(r, |r'.namespace|);
    PlainSeparators(r, |r'.namespace| + 1 + |r'.name|);
  }

  /** A reference has its cache key to itself exactly when it is plain. */
  lemma {:induction false} CacheKeyIsOwnExactly(r: SecretRef)
    ensures Plain(r) <==> forall r' :: CacheKey(r') == CacheKey(r) ==> r' == r
  {
    if Plain(r) {
      forall r' | CacheKey(r') == CacheKey(r)
        ensures r' == r
      {
        PlainIsAlone(r, r');
      }
    } else {
      var r' := CacheKeyCollides(r);
      assert CacheKey(r') == CacheKey(r) && r' != r;
    }
  }

  /** No two references in use share a key. */
  ghost predicate CollisionFree(refs: iset<SecretRef>) {
    forall r, r' :: r in refs && r' in refs && CacheKey(r) == CacheKey(r') ==> r == r'
  }

  /** Well-named references are such a set. */
  lemma {:induction false} WellNamedIsCollisionFree(refs: iset<SecretRef>)
    requires forall r :: r in refs ==> WellNamed(r)
    ensures CollisionFree(refs)
  {
    forall r, r' | r in refs && r' in refs && CacheKey(r) == CacheKey(r')
      ensures r == r'
    {
      CacheKeyInjective(r, r');
    }
  }

  /** The client that version `v` of the Secret builds. */
  predicate Built(reg: Registry, r: SecretRef, v: string, c: Client) {
    reg.content(r, v) != "" && reg.build(reg.content(r, v)) == Some(c)
  }

  /** Every entry holds the client its own version builds, for a reference in use. */
  ghost predicate Faithful(reg: Registry, refs: iset<SecretRef>, clients: map<string, Entry>) {
    forall k :: k in clients ==>
      exists r :: r in refs && CacheKey(r) == k && Built(reg, r, clients[k].version, clients[k].client)
  }

  lemma {:induction false} EntryIsBuilt(reg: Registry, refs: iset<SecretRef>, clients: map<string, Entry>, r: SecretRef)
    requires Faithful(reg, refs, clients) && CollisionFree(refs) && r in refs && CacheKey(r) in clients
    ensures Built(reg, r, clients[CacheKey(r)].version, clients[CacheKey(r)].client)
  {
  }

  /** The cache as one caller at a time sees it. */
  class Cache {
    var clients: map<string, Entry>

    constructor ()
      ensures clients == map[]
    {
      clients := map[];
    }

    /** `read` is the version the caller's own Secret read returned, if it succeeded
        with a non-empty kubeconfig; `refs` are the references in use, any at all. */
    method GetOrCreate(reg: Registry, ghost refs: iset<SecretRef>, r: SecretRef, read: Option<string>)
        returns (c: Option<Client>)
      requires r in refs && Faithful(reg, refs, clients)
      requires read.Some? ==> reg.content(r, read.value) != ""
      modifies this
      ensures Faithful(reg, refs, clients)
      ensures (clients, c) == Fetched(reg, old(clients), r, read)
      ensures read.Some? && CollisionFree(refs) ==> c == reg.build(reg.content(r, read.value))
      ensures read.Some? && !(CacheKey(r) in old(clients) && old(clients)[CacheKey(r)].version == read.value) ==>
                c == reg.build(reg.content(r, read.value))
      ensures read.None? || (CacheKey(r) in old(clients) && old(clients)[CacheKey(r)].version == read.value) ==>
                c == if CacheKey(r) in old(clients) then Some(old(clients)[CacheKey(r)].client) else None
      ensures clients == if read.Some? && c.Some? then old(clients)[CacheKey(r) := Entry(c.value, read.value)]
                         else old(clients)
    {
      var k := CacheKey(r);
      if read.None? {
        if k in clients {
          return Some(clients[k].client);
        }
        return None;
      }
      if k in clients && clients[k].version == read.value {
        if CollisionFree(refs) {
          EntryIsBuilt(reg, refs, clients, r);
        }
        c := Some(clients[k].client);
        assert clients[k := Entry(c.value, read.value)] == clients;
        return;
      }
      c := reg.build(reg.content(r, read.value));
      if c.None? {
        return;
      }
      StoreKeepsFaithful(reg, refs, clients, r, Entry(c.value, read.value));
      clients := clients[k := Entry(c.value, read.value)];
    }

    method Invalidate(r: SecretRef)
      modifies this
      ensures clients == old(clients) - {CacheKey(r)}
    {
      clients := clients - {CacheKey(r)};
    }
  }

  lemma {:induction false} StoreKeepsFaithful(
      reg: Registry, refs: iset<SecretRef>, clients: map<string, Entry>, r: SecretRef, e: Entry)
    requires Faithful(reg, refs, clients) && r in refs && Built(reg, r, e.version, e.client)
    ensures Faithful(reg, refs, clients[CacheKey(r) := e])
  {
  }

  // ---- Interleavings ----

  /** Where one call of GetOrCreate stands between its critical sections. */
  datatype Call =
    | Called(ref: SecretRef)
    | Read(ref: SecretRef, version: string)
    | ReadFailed(ref: SecretRef)
    | Stale(ref: SecretRef, version: string)
    | Ready(ref: SecretRef, version: string, client: Client)
    | Returned(ref: SecretRef, read: Option<string>, result: Option<Client>)

  datatype State = State(clients: map<string, Entry>, calls: map<nat, Call>)

  /** One atomic action of one call (or of Invalidate); an action that is not
      possible changes nothing. */
  datatype Action =
    | Enter(id: nat, ref: SecretRef)
    | Load(id: nat, version: Option<string>)
    | Look(id: nat)
    | Build(id: nat)
    | Keep(id: nat)
    | Invalidate(ref: SecretRef)

  function Lookup(s: State, c: Call): Call {
    var k := CacheKey(c.ref);
    match c
    case Read(r, v) =>
      if k in s.clients && s.clients[k].version == v then Returned(r, Some(v), Some(s.clients[k].client))
      else Stale(r, v)
    case ReadFailed(r) => Returned(r, None, if k in s.clients then Some(s.clients[k].client) else None)
    case _ => c
  }

  function Act(reg: Registry, s: State, a: Action): State {
    match a
    case Invalidate(r) => s.(clients := s.clients - {CacheKey(r)})
    case Enter(id, r) => if id in s.calls then s else s.(calls := s.calls[id := Called(r)])
    case _ =>
      if a.id !in s.calls then s else
      var c := s.calls[a.id];
      match a
      case Load(id, v) =>
        if !c.Called? then s
        else if v.Some? && reg.content(c.ref, v.value) != "" then s.(calls := s.calls[id := Read(c.ref, v.value)])
        else s.(calls := s.calls[id := ReadFailed(c.ref)])
      case Look(id) => s.(calls := s.calls[id := Lookup(s, c)])
      case Build(id) =>
        if !c.Stale? then s else
        (match reg.build(reg.content(c.ref, c.version))
         case None => s.(calls := s.calls[id := Returned(c.ref, Some(c.version), None)])
         case Some(cli) => s.(calls := s.calls[id := Ready(c.ref, c.version, cli)]))
      case Keep(id) =>
        if !c.Ready? then s else
        State(s.clients[CacheKey(c.ref) := Entry(c.client, c.version)],
              s.calls[id := Returned(c.ref, Some(c.version), Some(c.client))])
      case _ => s
  }

  function Interleave(reg: Registry, actions: seq<Action>): State {
    if actions == [] then State(map[], map[])
    else Act(reg, Interleave(reg, actions[..|actions| - 1]), actions[|actions| - 1])
  }

  /** The calls of an interleaving use these references. */
  ghost predicate Uses(actions: seq<Action>, refs: iset<SecretRef>) {
    forall i :: 0 <= i < |actions| && actions[i].Enter? ==> actions[i].ref in refs
  }

  /** What is known of a call at each of its points. */
  ghost predicate Honest(reg: Registry, refs: iset<SecretRef>, c: Call) {
    && c.ref in refs
    && match c
       case Called(r) => true
       case Read(r, v) => reg.content(r, v) != ""
       case ReadFailed(r) => true
       case Stale(r, v) => reg.content(r, v) != ""
       case Ready(r, v, cli) => Built(reg, r, v, cli)
       case Returned(r, Some(v), result) => reg.content(r, v) != "" && result == reg.build(reg.content(r, v))
       case Returned(r, None, result) => result.Some? ==> exists v :: Built(reg, r, v, result.value)
  }

  lemma {:induction false} LookupIsHonest(reg: Registry, refs: iset<SecretRef>, s: State, c: Call)
    requires Faithful(reg, refs, s.clients) && CollisionFree(refs) && Honest(reg, refs, c)
    ensures Honest(reg, refs, Lookup(s, c))
  {
  }

  ghost predicate Consistent(reg: Registry, refs: iset<SecretRef>, s: State) {
    Faithful(reg, refs, s.clients) && forall id :: id in s.calls ==> Honest(reg, refs, s.calls[id])
  }

  lemma {:induction false} ActIsConsistent(reg: Registry, refs: iset<SecretRef>, s: State, a: Action)
    requires Consistent(reg, refs, s) && CollisionFree(refs) && (a.Enter? ==> a.ref in refs)
    ensures Consistent(reg, refs, Act(reg, s, a))
  {
    match a
    case Look(id) =>
      if id in s.calls {
        LookupIsHonest(reg, refs, s, s.calls[id]);
      }
    case Keep(id) =>
      if id in s.calls && s.calls[id].Ready? {
        var c := s.calls[id];
        StoreKeepsFaithful(reg, refs, s.clients, c.ref, Entry(c.client, c.version));
      }
    case _ =>
  }

  /** Transparency: in every interleaving each entry's client is the one its version
      builds; a call whose Secret read succeeded returns exactly what building from
      the version it read itself gives; and a call that fell back on the cache
      returns a client some version of its own Secret builds. */
  lemma {:induction false} CacheIsTransparent(reg: Registry, refs: iset<SecretRef>, actions: seq<Action>)
    requires CollisionFree(refs) && Uses(actions, refs)
    ensures Consistent(reg, refs, Interleave(reg, actions))
  {
    if actions != [] {
      var front := actions[..|actions| - 1];
      assert forall i :: 0 <= i < |front| ==> front[i] == actions[i];
      CacheIsTransparent(reg, refs, front);
      ActIsConsistent(reg, refs, Interleave(reg, front), actions[|actions| - 1]);
    } else {
      assert Faithful(reg, refs, map[]);
    }
  }

  /** A sequence of actions from a given state. */
  function Continue(reg: Registry, s: State, actions: seq<Action>): State
    decreases |actions|
  {
    if actions == [] then s else Continue(reg, Act(reg, s, actions[0]), actions[1..])
  }

  lemma {:induction false} ContinueTwo(reg: Registry, s: State, a: Action, b: Action)
    ensures Continue(reg, s, [a, b]) == Act(reg, Act(reg, s, a), b)
  {
    var s1 := Act(reg, s, a);
    assert [a, b][1..] == [b] && [b][1..] == [];
    assert Continue(reg, s1, [b]) == Continue(reg, Act(reg, s1, b), []);
  }

  lemma {:induction false} ContinueInterleaves(reg: Registry, done: seq<Action>, actions: seq<Action>)
    ensures Interleave(reg, done + actions) == Continue(reg, Interleave(reg, done), actions)
    decreases |actions|
  {
    if actions == [] {
      assert done + actions == done;
    } else {
      var next := done + [actions[0]];
      assert next[..|next| - 1] == done;
      assert done + actions == next + actions[1..];
      ContinueInterleaves(reg, next, actions[1..]);
    }
  }

  /** What a call does to the cache and returns, all at once. */
  function Fetched(reg: Registry, clients: map<string, Entry>, r: SecretRef, read: Option<string>)
      : (map<string, Entry>, Option<Client>)
  {
    var k := CacheKey(r);
    var cached := if k in clients then Some(clients[k].client) else None;
    if read.None? || (k in clients && clients[k].version == read.value) then (clients, cached) else
    match reg.build(reg.content(r, read.value))
    case None => (clients, None)
    case Some(c) => (clients[k := Entry(c, read.value)], Some(c))
  }

  lemma {:induction false} CallLooksUp(reg: Registry, s: State, id: nat, r: SecretRef, v: Option<string>)
    requires id !in s.calls
    ensures var read := v.Some? && reg.content(r, v.value) != "";
      Continue(reg, s, [Enter(id, r), Load(id, v), Look(id)]) ==
        s.(calls := s.calls[id := Lookup(s, if read then Read(r, v.value) else ReadFailed(r))])
  {
    var s1 := Act(reg, s, Enter(id, r));
    var s2 := Act(reg, s1, Load(id, v));
    var c := s2.calls[id];
    ContinueTwo(reg, s1, Load(id, v), Look(id));
    assert [Enter(id, r), Load(id, v), Look(id)][1..] == [Load(id, v), Look(id)];
    assert s2.clients == s.clients && s2.calls == s.calls[id := c];
    assert Lookup(s2, c) == Lookup(s, c);
  }

  lemma {:induction false} ContinueAppends(reg: Registry, s: State, xs: seq<Action>, ys: seq<Action>)
    ensures Continue(reg, s, xs + ys) == Continue(reg, Continue(reg, s, xs), ys)
    decreases |xs|
  {
    if xs == [] {
      assert xs + ys == ys;
    } else {
      assert (xs + ys)[1..] == xs[1..] + ys;
      ContinueAppends(reg, Act(reg, s, xs[0]), xs[1..], ys);
    }
  }

  /** A call that nothing interrupts does just that: it is the sequential GetOrCreate. */
  lemma {:induction false} UninterruptedCall(reg: Registry, s: State, id: nat, r: SecretRef, v: Option<string>)
    requires id !in s.calls
    ensures var read := if v.Some? && reg.content(r, v.value) != "" then v else None;
      var s' := Continue(reg, s, [Enter(id, r), Load(id, v), Look(id)] + [Build(id), Keep(id)]);
      && s'.clients == Fetched(reg, s.clients, r, read).0
      && s'.calls == s.calls[id := Returned(r, read, Fetched(reg, s.clients, r, read).1)]
  {
    var begin := [Enter(id, r), Load(id, v), Look(id)];
    CallLooksUp(reg, s, id, r, v);
    ContinueAppends(reg, s, begin, [Build(id), Keep(id)]);
    ContinueTwo(reg, Continue(reg, s, begin), Build(id), Keep(id));
  }

  /** An invalidated client is not served again: a call that then cannot read its Secret
      has nothing to fall back on. */
  lemma {:induction false} InvalidatedIsNotServed(reg: Registry, s: State, id: nat, r: SecretRef)
    requires id !in s.calls
    ensures var call := [Enter(id, r), Load(id, None), Look(id)] + [Build(id), Keep(id)];
      var s' := Continue(reg, Act(reg, s, Invalidate(r)), call);
      id in s'.calls && s'.calls[id] == Returned(r, None, None) && s'.clients == s.clients - {CacheKey(r)}
  {
    UninterruptedCall(reg, Act(reg, s, Invalidate(r)), id, r, None);
  }

  /** Each of two references has its own kubeconfig, and each kubeconfig its own client. */
  function TwoClients(r: SecretRef): Registry {
    Registry((x: SecretRef, v: string) => if x == r then "mine" else "other",
             (config: string) => Some(Client(if config == "mine" then 1 else 2)))
  }

  function WholeCall(id: nat, r: SecretRef): seq<Action> {
    [Enter(id, r), Load(id, Some("1")), Look(id)] + [Build(id), Keep(id)]
  }

  /** One call after the other. */
  lemma {:induction false} TwoCalls(reg: Registry, r: SecretRef, r': SecretRef)
    requires reg.content(r, "1") != "" && reg.content(r', "1") != ""
    ensures var s := Interleave(reg, WholeCall(0, r) + WholeCall(1, r'));
      var clients := Fetched(reg, map[], r, Some("1")).0;
      1 in s.calls && s.calls[1] == Returned(r', Some("1"), Fetched(reg, clients, r', Some("1")).1)
  {
    var empty, actions := State(map[], map[]), WholeCall(0, r) + WholeCall(1, r');
    UninterruptedCall(reg, empty, 0, r, Some("1"));
    UninterruptedCall(reg, Continue(reg, empty, WholeCall(0, r)), 1, r', Some("1"));
    ContinueAppends(reg, empty, WholeCall(0, r), WholeCall(1, r'));
    ContinueInterleaves(reg, [], actions);
    assert [] + actions == actions;
  }

  /** Two references that share a key spoil the cache: a call for `r` can read its own
      Secret and still be handed the client of `other`. */
  lemma {:induction false} CollisionSpoils(refs: iset<SecretRef>, r: SecretRef, other: SecretRef)
      returns (reg: Registry, actions: seq<Action>)
    requires r in refs && other in refs && r != other && CacheKey(r) == CacheKey(other)
    ensures Uses(actions, refs) && !Consistent(reg, refs, Interleave(reg, actions))
  {
    reg := TwoClients(r);
    actions := WholeCall(0, other) + WholeCall(1, r);
    TwoCalls(reg, other, r);
    var s := Interleave(reg, actions);
    assert s.calls[1] == Returned(r, Some("1"), Some(Client(2)));
    assert !Honest(reg, refs, s.calls[1]);
  }

  /** The cache is transparent for a set of references exactly when no two of them
      share a key. */
  lemma {:induction false} TransparentExactly(refs: iset<SecretRef>)
    ensures CollisionFree(refs) <==>
              forall reg: Registry, actions | Uses(actions, refs) :: Consistent(reg, refs, Interleave(reg, actions))
  {
    if CollisionFree(refs) {
      forall reg: Registry, actions | Uses(actions, refs)
        ensures Consistent(reg, refs, Interleave(reg, actions))
      {
        CacheIsTransparent(reg, refs, actions);
      }
    } else {
      var r, other :| r in refs && other in refs && CacheKey(r) == CacheKey(other) && r != other;
      var reg, actions := CollisionSpoils(refs, r, other);
      assert !Consistent(reg, refs, Interleave(reg, actions));
    }
  }
}
