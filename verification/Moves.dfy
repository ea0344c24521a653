/** The write requests that a reconcile pass of one process may issue, as a protocol: which effect
    is legal in which phase of the pass and in which state of the cluster. */
module Moves {
  import opened Ingress
  import opened Names
  import opened Cluster

  /** `Cleaning(lo, hi, prev)` removes the applications from `lo` up to `hi`;
      `Rolling(n, version)` provides `n` applications at a version. */
  datatype Pass = Parsing | Cleaning(lo: nat, hi: nat, prev: nat) | Rolling(n: nat, version: nat)

  ghost predicate Present(s: Store, v: Volume) {
    match v
    case ConfigVolume(n) => n in s.configMaps
    case ClaimVolume(n) => n in s.claims
  }

  /** What the deployment of application `d` of process `p` mounts at a version. */
  ghost predicate VolumeAt(p: string, d: string, version: nat, v: Volume) {
    match v
    case ConfigVolume(n) => n == RunnerConfigName(p) || n == RunnerConfigName(d) || n == AppsConfigName(d, version)
    case ClaimVolume(n) => n == ClaimName(d)
  }

  ghost predicate IsAppBelow(d: string, p: string, lo: nat, hi: nat) {
    exists i: nat :: lo <= i < hi && d == AppName(p, i)
  }

  /** The base of `n` under one of the naming schemes is an application in the range. */
  ghost predicate LegalConfig(p: string, n: string, count: nat, version: nat) {
    n == RunnerConfigName(p)
    || exists i: nat :: i < count
         && (n == RunnerConfigName(AppName(p, i)) || n == AppsConfigName(AppName(p, i), version))
  }

  /** The process whose pass it is may touch its own artifacts only, and each phase its own kinds; a
      deployment is written only when everything that it mounts is there. */
  ghost predicate Legal(p: string, pass: Pass, s: Store, eff: Effect) {
    match pass
    case Parsing =>
      (match eff
       case PutConfig(n, _) => n == RunnerConfigName(p)
       case PutDeployment(n, _, t) =>
         n == ParserName(p) && forall v | v in t.volumes :: v == ConfigVolume(RunnerConfigName(p)) && Present(s, v)
       case PutService(n, _, _) => n == ParserName(p)
       case DropDeployment(n) => n == ParserName(p)
       case DropService(n) => n == ParserName(p)
       case _ => false)
    case Cleaning(lo, hi, prev) =>
      (match eff
       case DropDeployment(n) => IsAppBelow(n, p, lo, hi)
       case DropService(n) => IsAppBelow(n, p, lo, hi)
       case DropClaim(n) =>
         exists i: nat :: lo <= i < hi && n == ClaimName(AppName(p, i))
       case DropConfig(n) =>
         exists i: nat :: lo <= i < hi && n == AppsConfigName(AppName(p, i), prev)
       case _ => false)
    case Rolling(count, version) =>
      (match eff
       case PutConfig(n, _) => LegalConfig(p, n, count, version)
       case PutClaim(n, _) => exists i: nat :: i < count && n == ClaimName(AppName(p, i))
       case PutDeployment(n, _, t) =>
         IsAppBelow(n, p, 0, count) && forall v | v in t.volumes :: VolumeAt(p, n, version, v) && Present(s, v)
       case PutService(n, _, _) => IsAppBelow(n, p, 0, count)
       case PutIngress(_, paths) => exists i: nat, ports :: i < count && paths == PathsOf(AppName(p, i), ports)
       case Scale(n, _) => IsAppBelow(n, p, 0, count)
       case _ => false)
  }

  ghost predicate Move(p: string, pass: Pass, s: Store, t: Store) {
    exists eff :: Legal(p, pass, s, eff) && t == Perform(s, p, eff)
  }

  /** `h'` continues the history `h` by legal moves. */
  ghost predicate Continues(p: string, pass: Pass, h: seq<Store>, h': seq<Store>) {
    h <= h' && forall i {:trigger h'[i]} :: 0 < |h| <= i < |h'| ==> Move(p, pass, h'[i - 1], h'[i])
  }

  /** Everything that happened to the objects between `k` and `k'` is a sequence of legal moves. */
  ghost predicate Trace(p: string, pass: Pass, k: Kube, k': Kube) {
    Continues(p, pass, History(k), History(k'))
  }

  lemma TraceTransitive(p: string, pass: Pass, k0: Kube, k1: Kube, k2: Kube)
    requires Trace(p, pass, k0, k1) && Trace(p, pass, k1, k2)
    ensures Trace(p, pass, k0, k2)
  {
  }

  lemma WriteTraced(e: Env, k: Kube, p: string, pass: Pass, eff: Effect, op: OperationResult)
    requires Legal(p, pass, k.store, eff)
    ensures Trace(p, pass, k, Write(e, k, p, eff, op).kube)
  {
  }

  lemma ApplyTraced(e: Env, k: Kube, p: string, pass: Pass, eff: Effect)
    requires Legal(p, pass, k.store, eff)
    ensures Trace(p, pass, k, CreateOrUpdate(e, k, p, eff).kube)
    ensures var r := CreateOrUpdate(e, k, p, eff);
            !r.err ==> r.kube.store == Perform(k.store, p, eff)
    ensures var r := CreateOrUpdate(e, k, p, eff);
            r.kube.store == k.store || r.kube.store == Perform(k.store, p, eff)
  {
    WriteTraced(e, Tick(k), p, pass, eff, Created);
    WriteTraced(e, Tick(k), p, pass, eff, Updated);
  }

  lemma DeleteTraced(e: Env, k: Kube, p: string, pass: Pass, eff: Effect)
    requires Legal(p, pass, k.store, eff)
    ensures Trace(p, pass, k, Delete(e, k, p, eff).kube)
  {
    WriteTraced(e, Tick(k), p, pass, eff, Updated);
  }

  /** An invariant of the moves holds in every state along a trace. */
  lemma {:induction false} TraceInvariant(p: string, pass: Pass, k: Kube, k': Kube, inv: Store -> bool)
    requires Trace(p, pass, k, k')
    requires inv(k.store)
    requires forall s, t :: inv(s) && Move(p, pass, s, t) ==> inv(t)
    ensures forall i :: |History(k)| - 1 <= i < |History(k')| ==> inv(History(k')[i])
    ensures inv(k'.store)
  {
    var h, h' := History(k), History(k');
    var n := |h| - 1;
    assert h'[n] == h[n] == k.store;
    while n < |h'| - 1
      invariant |h| - 1 <= n < |h'|
      invariant forall i :: |h| - 1 <= i <= n ==> inv(h'[i])
    {
      assert Move(p, pass, h'[n + 1 - 1], h'[n + 1]);
      n := n + 1;
    }
    assert h'[|h'| - 1] == k'.store;
  }
}
