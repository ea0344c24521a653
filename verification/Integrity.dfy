/** Referential integrity: what a deployment mounts exists. */
module Integrity {
  import opened Decimal
  import opened Names
  import opened Cluster
  import opened Moves
  import opened Isolation

  ghost predicate Intact(s: Store) {
    forall d | d in s.deployments :: forall v | v in s.deployments[d].template.volumes :: Present(s, v)
  }

  /** What deployment `d` of process `p` may mount when its version is at most `max`. */
  ghost predicate VolumeUpTo(p: string, d: string, max: nat, v: Volume) {
    match v
    case ConfigVolume(n) =>
      n == RunnerConfigName(p)
      || (IsAppOf(d, p) && (n == RunnerConfigName(d) || exists w: nat :: w <= max && n == AppsConfigName(d, w)))
    case ClaimVolume(n) => n == ClaimName(d) && IsAppOf(d, p)
  }

  /** `versions` gives every process the newest version that its deployments may run. */
  ghost predicate Mounted(s: Store, versions: map<string, nat>) {
    forall d | d in s.deployments ::
      var p := s.deployments[d].owner;
      && p in versions
      && forall v | v in s.deployments[d].template.volumes :: Present(s, v) && VolumeUpTo(p, d, versions[p], v)
  }

  /** Integrity together with what keeps it: names tell owners apart, and no deployment runs a
      version newer than its process admits. */
  ghost predicate Sound(s: Store, versions: map<string, nat>) {
    Owned(s) && Mounted(s, versions)
  }

  /** A deployment of `p` mounts a config map that also is the previous-version name of an
      application with a smaller index. */
  ghost predicate Entangled(p: string, prev: int, s: Store) {
    exists i: nat, j: nat :: i < j && EntangledAt(p, prev, s, i, j)
  }

  ghost predicate EntangledAt(p: string, prev: int, s: Store, i: nat, j: nat) {
    AppName(p, j) in s.deployments
    && ConfigVolume(AppsConfigName(AppName(p, i), prev)) in s.deployments[AppName(p, j)].template.volumes
  }

  lemma SoundIntact(s: Store, versions: map<string, nat>)
    requires Sound(s, versions)
    ensures Intact(s)
  {
  }

  lemma VolumeAtUpTo(p: string, d: string, w: nat, max: nat, v: Volume)
    requires VolumeAt(p, d, w, v) && w <= max && IsAppOf(d, p)
    ensures VolumeUpTo(p, d, max, v)
  {
  }

  lemma ParsingSound(p: string, s: Store, eff: Effect, versions: map<string, nat>)
    requires Sound(s, versions) && p in versions && Legal(p, Parsing, s, eff)
    ensures Sound(Perform(s, p, eff), versions)
  {
    LegalAddresses(p, Parsing, s, eff);
    PerformOwned(p, s, eff);
    if eff.PutDeployment? && eff.name in s.deployments {
      DeploymentOwnerUnique(eff.name, p, s.deployments[eff.name].owner);
    }
  }

  lemma RollingSound(p: string, count: nat, version: nat, s: Store, eff: Effect, versions: map<string, nat>)
    requires Sound(s, versions) && p in versions && version <= versions[p]
    requires Legal(p, Rolling(count, version), s, eff)
    ensures Sound(Perform(s, p, eff), versions)
  {
    LegalAddresses(p, Rolling(count, version), s, eff);
    PerformOwned(p, s, eff);
    if eff.PutDeployment? {
      var i: nat :| 0 <= i < count && eff.name == AppName(p, i);
      if eff.name in s.deployments {
        DeploymentOwnerUnique(eff.name, p, s.deployments[eff.name].owner);
      }
      forall v | v in eff.template.volumes ensures VolumeUpTo(p, eff.name, versions[p], v) {
        VolumeAtUpTo(p, eff.name, version, versions[p], v);
      }
    }
  }

  /** A config map or claim that a cleaning pass drops is mounted by no deployment that is left. */
  lemma DroppedClaimUnmounted(p: string, i: nat, s: Store, versions: map<string, nat>, d: string)
    requires Sound(s, versions) && AppName(p, i) !in s.deployments && d in s.deployments
    ensures ClaimVolume(ClaimName(AppName(p, i))) !in s.deployments[d].template.volumes
  {
    if ClaimVolume(ClaimName(AppName(p, i))) in s.deployments[d].template.volumes {
      ClaimNameInjective(AppName(p, i), d);
    }
  }

  lemma DroppedConfigUnmounted(p: string, i: nat, s: Store, versions: map<string, nat>, d: string)
    requires Sound(s, versions) && p in versions && AppName(p, i) !in s.deployments && d in s.deployments
    requires !Entangled(p, versions[p], s)
    ensures ConfigVolume(AppsConfigName(AppName(p, i), versions[p])) !in s.deployments[d].template.volumes
  {
    var n, q := AppsConfigName(AppName(p, i), versions[p]), s.deployments[d].owner;
    if ConfigVolume(n) in s.deployments[d].template.volumes {
      AppsConfigIsNotRunnerConfig(AppName(p, i), versions[p], q);
      AppsConfigIsNotRunnerConfig(AppName(p, i), versions[p], d);
      var w: nat :| w <= versions[q] && n == AppsConfigName(d, w);
      var j: nat :| d == AppName(q, j);
      AppsConfigSplit(p, i, versions[p], q, j, w);
      if j <= i {
        ConcatCollision(i, versions[p], j, w);
      } else {
        assert EntangledAt(p, versions[p], s, i, j);
      }
    }
  }

  /** Every state of a history from position `from` on is intact. */
  ghost predicate IntactFrom(h: seq<Store>, from: nat) {
    forall i :: from <= i < |h| ==> Intact(h[i])
  }

  /** Parsing and rolling out keep everything intact: nothing that may be mounted is dropped, and a
      deployment is written only when all that it mounts is there. */
  lemma TraceIntact(p: string, pass: Pass, k: Kube, k': Kube)
    requires Trace(p, pass, k, k') && !pass.Cleaning? && Intact(k.store)
    ensures History(k) <= History(k') && IntactFrom(History(k'), |k.past|) && Intact(k'.store)
  {
    var inv := (s: Store) => Intact(s);
    forall s, t | inv(s) && Move(p, pass, s, t) ensures inv(t) {
      MoveIntact(p, pass, s, t);
    }
    TraceInvariant(p, pass, k, k', inv);
  }

  lemma MoveIntact(p: string, pass: Pass, s: Store, t: Store)
    requires Move(p, pass, s, t) && !pass.Cleaning? && Intact(s)
    ensures Intact(t)
  {
    var eff :| Legal(p, pass, s, eff) && t == Perform(s, p, eff);
    LegalMounts(p, pass, s, eff);
    EffectIntact(p, s, eff);
  }

  /** Nothing that may be mounted goes, and what a deployment mounts is there. */
  ghost predicate Mountable(s: Store, eff: Effect) {
    && !eff.DropConfig? && !eff.DropClaim?
    && (eff.PutDeployment? ==> forall v | v in eff.template.volumes :: Present(s, v))
  }

  lemma LegalMounts(p: string, pass: Pass, s: Store, eff: Effect)
    requires Legal(p, pass, s, eff) && !pass.Cleaning?
    ensures Mountable(s, eff)
  {
  }

  lemma EffectIntact(p: string, s: Store, eff: Effect)
    requires Intact(s) && Mountable(s, eff)
    ensures Intact(Perform(s, p, eff))
  {
    forall v | Present(s, v) ensures Present(Perform(s, p, eff), v) {
    }
  }

  lemma ParsingTraceSound(p: string, k: Kube, k': Kube, versions: map<string, nat>)
    requires Trace(p, Parsing, k, k') && Sound(k.store, versions) && p in versions
    ensures Sound(k'.store, versions)
  {
    var inv := (s: Store) => Sound(s, versions);
    forall s, t | inv(s) && Move(p, Parsing, s, t) ensures inv(t) {
      var eff :| Legal(p, Parsing, s, eff) && t == Perform(s, p, eff);
      ParsingSound(p, s, eff, versions);
    }
    TraceInvariant(p, Parsing, k, k', inv);
  }

  lemma RollingTraceSound(p: string, count: nat, version: nat, k: Kube, k': Kube, versions: map<string, nat>)
    requires Trace(p, Rolling(count, version), k, k') && Sound(k.store, versions)
    requires p in versions && version <= versions[p]
    ensures Sound(k'.store, versions)
  {
    var inv := (s: Store) => Sound(s, versions);
    forall s, t | inv(s) && Move(p, Rolling(count, version), s, t) ensures inv(t) {
      var eff :| Legal(p, Rolling(count, version), s, eff) && t == Perform(s, p, eff);
      RollingSound(p, count, version, s, eff, versions);
    }
    TraceInvariant(p, Rolling(count, version), k, k', inv);
  }

  /** Parsing and rolling out never entangle a process further than its own rollout does: parsing
      leaves the applications' deployments as they are. */
  lemma ParsingKeepsApps(p: string, k: Kube, k': Kube)
    requires Trace(p, Parsing, k, k')
    ensures forall i: nat :: SameAt(k.store.deployments, k'.store.deployments, AppName(p, i))
  {
    var inv := (t: Store) => forall i: nat :: SameAt(k.store.deployments, t.deployments, AppName(p, i));
    forall s, t | inv(s) && Move(p, Parsing, s, t) ensures inv(t) {
      var eff :| Legal(p, Parsing, s, eff) && t == Perform(s, p, eff);
      forall i: nat ensures SameAt(k.store.deployments, t.deployments, AppName(p, i)) {
        AppIsNotParser(p, i, p);
        assert SameAt(k.store.deployments, s.deployments, AppName(p, i));
      }
    }
    TraceInvariant(p, Parsing, k, k', inv);
  }

  /** An entangled process has more than ten applications, and one of them has been left at a
      version with fewer digits than the previous one. */
  lemma EntangledNeedsLaggard(p: string, s: Store, versions: map<string, nat>, i: nat, j: nat)
    requires Sound(s, versions) && p in versions && i < j && EntangledAt(p, versions[p], s, i, j)
    ensures j >= 10
    ensures exists w: nat ::
              ConfigVolume(AppsConfigName(AppName(p, j), w)) in s.deployments[AppName(p, j)].template.volumes
              && |Digits(w)| < |Digits(versions[p])|
  {
    var d, n := AppName(p, j), AppsConfigName(AppName(p, i), versions[p]);
    var q := s.deployments[d].owner;
    AppsConfigIsNotRunnerConfig(AppName(p, i), versions[p], q);
    AppsConfigIsNotRunnerConfig(AppName(p, i), versions[p], d);
    var w: nat :| w <= versions[q] && n == AppsConfigName(d, w);
    AppsConfigSplit(p, i, versions[p], p, j, w);
    var a, b := Digits(i) + Digits(versions[p]), Digits(j) + Digits(w);
    assert |a| == |b|;
    DigitsMonotone(i, j);
    if |Digits(i)| == |Digits(j)| {
      assert Digits(i) == a[..|Digits(i)|] && Digits(j) == b[..|Digits(j)|];
      DigitsInjective(i, j);
    }
  }

  /** An upper bound on the number of applications rules entanglement out. */
  lemma FewAppsNotEntangled(p: string, s: Store, versions: map<string, nat>)
    requires Sound(s, versions) && p in versions && Bounded(p, 10, s)
    ensures !Entangled(p, versions[p], s)
  {
    if i: nat, j: nat :| i < j && EntangledAt(p, versions[p], s, i, j) {
      BoundedPresent(p, 10, s, j);
      EntangledNeedsLaggard(p, s, versions, i, j);
    }
  }

  /** No deployment of another process mounts an object that `p` owns. */
  ghost predicate GarbageUnmounted(s: Store, p: string) {
    forall d | d in s.deployments && s.deployments[d].owner != p ::
      forall v | v in s.deployments[d].template.volumes :: !OwnedBy(s, v, p)
  }

  /** Deleting a process keeps everything intact exactly when no deployment of another process
      mounts an object that it owns. */
  lemma GarbageIntactIff(s: Store, p: string)
    requires Intact(s)
    ensures Intact(CollectGarbage(s, p)) <==> GarbageUnmounted(s, p)
  {
    var t := CollectGarbage(s, p);
    assert forall v | Present(s, v) :: Present(t, v) <==> !OwnedBy(s, v, p);
    if Intact(t) {
      forall d, v | d in s.deployments && s.deployments[d].owner != p && v in s.deployments[d].template.volumes
        ensures !OwnedBy(s, v, p)
      {
        assert d in t.deployments && Present(t, v);
      }
    }
  }

  ghost predicate OwnedBy(s: Store, v: Volume, p: string) {
    match v
    case ConfigVolume(n) => n in s.configMaps && s.configMaps[n].owner == p
    case ClaimVolume(n) => n in s.claims && s.claims[n].owner == p
  }

  /** Names that make such a deletion possible: the shared runner configuration of a process and of
      an application of another one. */
  lemma SharedRunnerConfig()
    ensures IsConfigOf("a-0-depyml", "a") && IsConfigOf("a-0-depyml", "a-0")
  {
    assert Digits(0) == "0";
    assert AppName("a", 0) == "a-0";
    assert RunnerConfigName("a-0") == "a-0-depyml";
  }
}
