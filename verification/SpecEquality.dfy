/** Comparison of two SiddhiProcess specs, which decides whether an update is rolled out. */
module SpecEquality {
  import opened SiddhiTypes
  import opened StringSort

  /** Every element of `p` occurs somewhere in `q`. */
  predicate Included<T(==)>(p: seq<T>, q: seq<T>) {
    forall x | x in p :: x in q
  }

  predicate EqualApps(p: seq<AppRef>, q: seq<AppRef>) {
    |p| == |q| && Included(p, q)
  }

  predicate EqualContainers(p: Container, q: Container) {
    p.image == q.image && Included(p.env, q.env)
  }

  predicate EqualMessaging(p: Messaging, q: Messaging) {
    && |p.servers| == |q.servers|
    && Sort(p.servers) == Sort(q.servers)
    && p.typ == q.typ
    && p.clusterId == q.clusterId
  }

  function Modes(c: ClaimSpec): seq<string> {
    if c.accessModes.None? then [] else c.accessModes.value
  }

  predicate EqualClaims(p: ClaimSpec, q: ClaimSpec) {
    && Modes(p) == Modes(q)
    && p.volumeMode == q.volumeMode
    && p.storageClass == q.storageClass
    && p.resources == q.resources
  }

  /** The comparison reaches the step that sorts both server lists in place. */
  predicate SortsServers(p: Spec, q: Spec) {
    && EqualApps(p.apps, q.apps)
    && p.siddhiConfig == q.siddhiConfig
    && EqualContainers(p.container, q.container)
    && |p.messaging.servers| == |q.messaging.servers|
  }

  predicate Equals(p: Spec, q: Spec) {
    && EqualApps(p.apps, q.apps)
    && p.siddhiConfig == q.siddhiConfig
    && EqualContainers(p.container, q.container)
    && EqualMessaging(p.messaging, q.messaging)
    && EqualClaims(p.pvc, q.pvc)
    && p.imagePullSecret == q.imagePullSecret
  }

  /** What the comparison with `p` leaves in `q`. */
  function AfterCompare(p: Spec, q: Spec): Spec {
    if SortsServers(p, q) then
      q.(messaging := q.messaging.(servers := Sort(q.messaging.servers)))
    else q
  }

  ghost predicate NoDuplicates<T>(s: seq<T>) {
    forall i, j :: 0 <= i < j < |s| ==> s[i] != s[j]
  }

  lemma EqualsReflexive(p: Spec)
    ensures Equals(p, p)
  {
  }

  lemma EqualsTransitive(p: Spec, q: Spec, r: Spec)
    requires Equals(p, q) && Equals(q, r)
    ensures Equals(p, r)
  {
  }

  /** Sorting the servers in place does not change what a spec is equal to. */
  lemma AfterCompareEqual(p: Spec, q: Spec)
    ensures Equals(q, AfterCompare(p, q)) && Equals(AfterCompare(p, q), q)
  {
    SortIsSorting(q.messaging.servers);
    SortIdempotent(q.messaging.servers);
  }

  lemma {:induction false} RemoveAt<T>(s: seq<T>, k: nat)
    requires k < |s|
    ensures multiset(s) == multiset(s[..k] + s[k + 1..]) + multiset{s[k]}
  {
    assert s == s[..k] + [s[k]] + s[k + 1..];
  }

  /** Pigeonhole: a duplicate-free list included in a list of the same length is a permutation of it. */
  lemma {:induction false} Pigeonhole<T>(p: seq<T>, q: seq<T>)
    requires |p| == |q| && NoDuplicates(p) && Included(p, q)
    ensures multiset(p) == multiset(q)
  {
    if p != [] {
      var x, rest := p[0], p[1..];
      assert x in p;
      var k :| 0 <= k < |q| && q[k] == x;
      var others := q[..k] + q[k + 1..];
      forall y | y in rest ensures y in others {
        var i :| 0 <= i < |rest| && rest[i] == y;
        assert p[i + 1] == y && y != p[0];
        assert y in p;
        var m :| 0 <= m < |q| && q[m] == y;
        assert y == if m < k then others[m] else others[m - 1];
      }
      Pigeonhole(rest, others);
      RemoveAt(q, k);
      assert p == [x] + rest;
    }
  }

  lemma IncludedIfPermutation<T>(p: seq<T>, q: seq<T>)
    requires multiset(p) == multiset(q)
    ensures |p| == |q| && Included(p, q)
  {
    assert |p| == |multiset(p)| && |q| == |multiset(q)|;
    forall x | x in p ensures x in q {
      assert x in multiset(p);
    }
  }

  /** A config map name longer than all names in `p`. */
  function FreshName(p: seq<AppRef>): (n: string)
    ensures forall a | a in p :: |a.configMap| < |n|
  {
    if p == [] then "x"
    else
      var n := FreshName(p[1..]);
      assert forall a | a in p :: a == p[0] || a in p[1..];
      n + p[0].configMap
  }

  /** `EqualApps` decides equality of app lists up to order exactly for those old lists that
      repeat no entry.  With a repeated entry some genuine change goes unnoticed. */
  lemma EqualAppsExactIff(p: seq<AppRef>)
    ensures (forall q :: EqualApps(p, q) <==> multiset(p) == multiset(q)) <==> NoDuplicates(p)
  {
    if NoDuplicates(p) {
      forall q ensures EqualApps(p, q) <==> multiset(p) == multiset(q) {
        if EqualApps(p, q) {
          Pigeonhole(p, q);
        } else if multiset(p) == multiset(q) {
          IncludedIfPermutation(p, q);
        }
      }
    } else {
      var i, j :| 0 <= i < j < |p| && p[i] == p[j];
      UnseenChange(p, i, j);
    }
  }

  lemma UnseenChange(p: seq<AppRef>, i: nat, j: nat)
    requires i < j < |p| && p[i] == p[j]
    ensures exists q :: EqualApps(p, q) && multiset(p) != multiset(q)
  {
    var unseen := AppRef(FreshName(p), "");
    var q := p[j := unseen];
    forall x | x in p ensures x in q {
      var k :| 0 <= k < |p| && p[k] == x;
      assert q[if k == j then i else k] == x;
    }
    assert unseen !in p;
    assert q[j] == unseen && unseen in multiset(q) && unseen !in multiset(p);
    assert EqualApps(p, q);
  }

  lemma EqualAppsNotSymmetric()
    ensures exists p, q :: EqualApps(p, q) && !EqualApps(q, p)
  {
    var a, b := AppRef("a", ""), AppRef("b", "");
    assert b in [a, b] && b !in [a, a];
    assert EqualApps([a, a], [a, b]) && !EqualApps([a, b], [a, a]);
  }

  /** Environment variables may be added without notice; nothing else about a container may change. */
  lemma EqualContainersIff(p: Container, q: Container)
    ensures EqualContainers(p, q) <==> p.image == q.image && (set e | e in p.env) <= (set e | e in q.env)
  {
    var pe, qe := set e | e in p.env, set e | e in q.env;
    if pe <= qe {
      forall x | x in p.env ensures x in q.env {
        assert x in pe;
      }
    }
  }

  /** Two messaging configurations are equal exactly when type, cluster id and the servers
      up to order agree. */
  lemma EqualMessagingIff(p: Messaging, q: Messaging)
    ensures EqualMessaging(p, q) <==>
            p.typ == q.typ && p.clusterId == q.clusterId && multiset(p.servers) == multiset(q.servers)
  {
    SortIsSorting(p.servers);
    SortIsSorting(q.servers);
    if multiset(p.servers) == multiset(q.servers) {
      SortedUnique(Sort(p.servers), Sort(q.servers));
      assert |p.servers| == |multiset(p.servers)|;
      assert |q.servers| == |multiset(q.servers)|;
    }
  }

  /** No access modes at all and an empty list of them are the same. */
  predicate SameModes(m: Option<seq<string>>, n: Option<seq<string>>) {
    m == n || (m in {None, Some([])} && n in {None, Some([])})
  }

  /** The claims are equal exactly when they agree in everything but the volume name, with nil and empty
      access modes taken as the same. */
  lemma EqualClaimsIff(p: ClaimSpec, q: ClaimSpec)
    ensures EqualClaims(p, q) <==>
            SameModes(p.accessModes, q.accessModes)
            && p == q.(accessModes := p.accessModes, volumeName := p.volumeName)
  {
    assert p.accessModes.Some? ==> p.accessModes == Some(Modes(p));
    assert q.accessModes.Some? ==> q.accessModes == Some(Modes(q));
  }

  /** All that the comparison looks at: apps by number and inclusion, the runner configuration, image and
      inclusion of variables, the messaging system with its servers up to order, the claim but for its volume
      name and with nil and empty access modes taken as the same, and the pull secret. */
  ghost predicate LooksAlike(p: Spec, q: Spec) {
    && |p.apps| == |q.apps| && (forall a | a in p.apps :: a in q.apps)
    && p.siddhiConfig == q.siddhiConfig
    && p.container.image == q.container.image && (forall v | v in p.container.env :: v in q.container.env)
    && p.messaging.typ == q.messaging.typ && p.messaging.clusterId == q.messaging.clusterId
    && multiset(p.messaging.servers) == multiset(q.messaging.servers)
    && p.pvc.volumeMode == q.pvc.volumeMode && p.pvc.storageClass == q.pvc.storageClass
    && p.pvc.resources.limits == q.pvc.resources.limits && p.pvc.resources.requests == q.pvc.resources.requests
    && (p.pvc.accessModes == q.pvc.accessModes
        || (p.pvc.accessModes in {None, Some([])} && q.pvc.accessModes in {None, Some([])}))
    && p.imagePullSecret == q.imagePullSecret
  }

  /** The whole comparison decides exactly that. */
  lemma EqualsIff(p: Spec, q: Spec)
    ensures Equals(p, q) <==> LooksAlike(p, q)
  {
    EqualContainersIff(p.container, q.container);
    EqualMessagingIff(p.messaging, q.messaging);
    EqualClaimsIff(p.pvc, q.pvc);
  }

  /** What the comparison leaves in the new spec: the servers sorted when it gets to them, and nothing else
      changed. */
  lemma ComparedSpec(p: Spec, q: Spec)
    ensures var r := AfterCompare(p, q);
            && r == q.(messaging := q.messaging.(servers := r.messaging.servers))
            && multiset(r.messaging.servers) == multiset(q.messaging.servers)
            && (if EqualApps(p.apps, q.apps) && p.siddhiConfig == q.siddhiConfig
                   && EqualContainers(p.container, q.container) && |p.messaging.servers| == |q.messaging.servers|
                then Sorted(r.messaging.servers) else r == q)
  {
    SortIsSorting(q.messaging.servers);
  }

  /** Nested search loops of `EqualApps`. */
  method EqualAppsLoop(p: seq<AppRef>, q: seq<AppRef>) returns (r: bool)
    ensures r == EqualApps(p, q)
  {
    if |p| != |q| {
      return false;
    }
    r := AllContained(p, q);
  }

  method AllContained<T(==)>(p: seq<T>, q: seq<T>) returns (r: bool)
    ensures r == Included(p, q)
  {
    for i := 0 to |p|
      invariant forall k :: 0 <= k < i ==> p[k] in q
    {
      var contained := false;
      for j := 0 to |q|
        invariant !contained
        invariant p[i] !in q[..j]
      {
        if p[i] == q[j] {
          contained := true;
          break;
        }
      }
      if !contained {
        assert q[..|q|] == q && p[i] in p;
        return false;
      }
    }
    return true;
  }

  method EqualContainersLoop(p: Container, q: Container) returns (r: bool)
    ensures r == EqualContainers(p, q)
  {
    if p.image != q.image {
      return false;
    }
    r := AllContained(p.env, q.env);
  }

  /** Messaging configuration whose server list is a shared, mutable slice. */
  class MessagingSystem {
    const typ: string
    const clusterId: string
    const servers: array<string>

    constructor (m: Messaging)
      ensures Value() == m && fresh(servers)
    {
      typ := m.typ;
      clusterId := m.clusterId;
      servers := new string[|m.servers|](i requires 0 <= i < |m.servers| => m.servers[i]);
      new;
      assert servers[..] == m.servers;
    }

    function Value(): Messaging
      reads servers
    {
      Messaging(typ, clusterId, servers[..])
    }

    /** Sorts both server lists, unless their lengths already differ. */
    method Equals(q: MessagingSystem) returns (r: bool)
      modifies servers, q.servers
      ensures r == EqualMessaging(old(Value()), old(q.Value()))
      ensures servers[..] == if servers.Length == q.servers.Length then Sort(old(servers[..])) else old(servers[..])
      ensures q.servers[..] ==
              if servers.Length == q.servers.Length then Sort(old(q.servers[..])) else old(q.servers[..])
    {
      var typeEq := typ == q.typ;
      var cidEq := clusterId == q.clusterId;
      if servers.Length != q.servers.Length {
        return false;
      }
      SortInPlace(servers);
      SortIdempotent(old(servers[..]));
      SortInPlace(q.servers);
      assert servers[..] == Sort(old(servers[..]));
      assert q.servers[..] == Sort(old(q.servers[..]));
      for i := 0 to servers.Length
        invariant servers[..] == Sort(old(servers[..])) && q.servers[..] == Sort(old(q.servers[..]))
        invariant servers[..i] == q.servers[..i]
      {
        if servers[i] != q.servers[i] {
          assert servers[..][i] != q.servers[..][i];
          return false;
        }
      }
      assert servers[..servers.Length] == servers[..] && q.servers[..q.servers.Length] == q.servers[..];
      return typeEq && cidEq;
    }
  }

  /** The conjunction of all comparisons, in the order and with the early exits of the operator.
      `q` is the mutable messaging part of the new spec. */
  method SpecEquals(p: Spec, q: Spec, pm: MessagingSystem, qm: MessagingSystem) returns (r: bool)
    requires pm.Value() == p.messaging && qm.Value() == q.messaging && pm.servers != qm.servers
    modifies pm.servers, qm.servers
    ensures r == Equals(p, q)
    ensures qm.Value() == AfterCompare(p, q).messaging
    ensures pm.Value() == p.messaging || pm.servers[..] == Sort(p.messaging.servers)
  {
    var apps := EqualAppsLoop(p.apps, q.apps);
    if !apps {
      return false;
    }
    if p.siddhiConfig != q.siddhiConfig {
      return false;
    }
    var containers := EqualContainersLoop(p.container, q.container);
    if !containers {
      return false;
    }
    var messaging := pm.Equals(qm);
    if !messaging {
      return false;
    }
    if !EqualClaims(p.pvc, q.pvc) {
      return false;
    }
    if p.imagePullSecret != q.imagePullSecret {
      return false;
    }
    return true;
  }
}
