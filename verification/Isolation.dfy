/** What a reconcile pass of one process leaves alone, and who owns what. */
module Isolation {
  import opened Names
  import opened Cluster
  import opened Moves

  ghost predicate SameAt<V>(m: map<string, V>, m': map<string, V>, n: string) {
    (n in m <==> n in m') && (n in m ==> m[n] == m'[n])
  }

  /** Between `s` and `t` nothing but artifacts named for process `p` and the ingress has changed. */
  ghost predicate Untouched(p: string, s: Store, t: Store) {
    && (forall n :: !IsDeploymentOf(n, p) ==> SameAt(s.deployments, t.deployments, n))
    && (forall n :: !IsDeploymentOf(n, p) ==> SameAt(s.services, t.services, n))
    && (forall n :: !IsClaimOf(n, p) ==> SameAt(s.claims, t.claims, n))
    && (forall n :: !IsConfigOf(n, p) ==> SameAt(s.configMaps, t.configMaps, n))
  }

  /** The name in a legal effect is one of the process. */
  ghost predicate Addresses(p: string, eff: Effect) {
    match eff
    case PutConfig(n, _) => IsConfigOf(n, p)
    case PutClaim(n, _) => IsClaimOf(n, p)
    case PutDeployment(n, _, _) => IsDeploymentOf(n, p)
    case PutService(n, _, _) => IsDeploymentOf(n, p)
    case PutIngress(_, _) => true
    case Scale(n, _) => IsDeploymentOf(n, p)
    case DropDeployment(n) => IsDeploymentOf(n, p)
    case DropService(n) => IsDeploymentOf(n, p)
    case DropClaim(n) => IsClaimOf(n, p)
    case DropConfig(n) => IsConfigOf(n, p)
  }

  lemma LegalAddresses(p: string, pass: Pass, s: Store, eff: Effect)
    requires Legal(p, pass, s, eff)
    ensures Addresses(p, eff)
  {
  }

  lemma PerformUntouched(p: string, s: Store, eff: Effect)
    requires Addresses(p, eff)
    ensures Untouched(p, s, Perform(s, p, eff))
  {
  }

  lemma UntouchedTransitive(p: string, s: Store, t: Store, u: Store)
    requires Untouched(p, s, t) && Untouched(p, t, u)
    ensures Untouched(p, s, u)
  {
  }

  lemma TraceUntouched(p: string, pass: Pass, k: Kube, k': Kube)
    requires Trace(p, pass, k, k')
    ensures forall i :: |History(k)| - 1 <= i < |History(k')| ==> Untouched(p, k.store, History(k')[i])
    ensures Untouched(p, k.store, k'.store)
  {
    var inv := (t: Store) => Untouched(p, k.store, t);
    forall s, t | inv(s) && Move(p, pass, s, t) ensures inv(t) {
      var eff :| Legal(p, pass, s, eff) && t == Perform(s, p, eff);
      LegalAddresses(p, pass, s, eff);
      PerformUntouched(p, s, eff);
      UntouchedTransitive(p, k.store, s, t);
    }
    TraceInvariant(p, pass, k, k', inv);
  }

  /** Every object is named for the process that owns it. */
  ghost predicate Owned(s: Store) {
    && (forall n | n in s.deployments :: IsDeploymentOf(n, s.deployments[n].owner))
    && (forall n | n in s.services :: IsDeploymentOf(n, s.services[n].owner))
    && (forall n | n in s.claims :: IsClaimOf(n, s.claims[n].owner))
    && (forall n | n in s.configMaps :: IsConfigOf(n, s.configMaps[n].owner))
  }

  lemma PerformOwned(p: string, s: Store, eff: Effect)
    requires Addresses(p, eff) && Owned(s)
    ensures Owned(Perform(s, p, eff))
  {
  }

  lemma TraceOwned(p: string, pass: Pass, k: Kube, k': Kube)
    requires Trace(p, pass, k, k') && Owned(k.store)
    ensures Owned(k'.store)
  {
    var inv := (s: Store) => Owned(s);
    forall s, t | inv(s) && Move(p, pass, s, t) ensures inv(t) {
      var eff :| Legal(p, pass, s, eff) && t == Perform(s, p, eff);
      LegalAddresses(p, pass, s, eff);
      PerformOwned(p, s, eff);
    }
    TraceInvariant(p, pass, k, k', inv);
  }

  /** No deployment, service or claim of application `i` of process `p` exists. */
  ghost predicate Absent(p: string, i: nat, s: Store) {
    && AppName(p, i) !in s.deployments
    && AppName(p, i) !in s.services
    && ClaimName(AppName(p, i)) !in s.claims
  }

  /** All applications of `p` that have left traces are among the first `n`. */
  ghost predicate Bounded(p: string, n: nat, s: Store) {
    forall i: nat :: i >= n ==> Absent(p, i, s)
  }

  lemma BoundedPresent(p: string, n: nat, s: Store, j: nat)
    requires Bounded(p, n, s) && AppName(p, j) in s.deployments
    ensures j < n
  {
    assert j >= n ==> Absent(p, j, s);
  }

  /** An effect adds nothing that belongs to application `i`. */
  ghost predicate Spares(p: string, i: nat, eff: Effect) {
    match eff
    case PutClaim(n, _) => n != ClaimName(AppName(p, i))
    case PutDeployment(n, _, _) => n != AppName(p, i)
    case PutService(n, _, _) => n != AppName(p, i)
    case _ => true
  }

  lemma LegalSpares(p: string, pass: Pass, s: Store, eff: Effect, i: nat)
    requires Legal(p, pass, s, eff)
    requires pass.Rolling? ==> pass.n <= i
    ensures Spares(p, i, eff)
  {
    AppIsNotParser(p, i, p);
    if pass.Rolling? && (eff.PutDeployment? || eff.PutService?) {
      var j: nat :| j < pass.n && eff.name == AppName(p, j);
      if AppName(p, j) == AppName(p, i) {
        AppNameInjective(p, j, p, i);
      }
    }
    if pass.Rolling? && eff.PutClaim? {
      var j: nat :| j < pass.n && eff.name == ClaimName(AppName(p, j));
      if ClaimName(AppName(p, j)) == ClaimName(AppName(p, i)) {
        ClaimNameInjective(AppName(p, j), AppName(p, i));
        AppNameInjective(p, j, p, i);
      }
    }
  }

  /** What is gone stays gone, unless its index is rolled out again. */
  lemma TraceAbsent(p: string, pass: Pass, k: Kube, k': Kube, i: nat)
    requires Trace(p, pass, k, k') && Absent(p, i, k.store)
    requires pass.Rolling? ==> pass.n <= i
    ensures Absent(p, i, k'.store)
  {
    var inv := (s: Store) => Absent(p, i, s);
    forall s, t | inv(s) && Move(p, pass, s, t) ensures inv(t) {
      var eff :| Legal(p, pass, s, eff) && t == Perform(s, p, eff);
      LegalSpares(p, pass, s, eff, i);
    }
    TraceInvariant(p, pass, k, k', inv);
  }

  lemma TraceBounded(p: string, pass: Pass, k: Kube, k': Kube, n: nat)
    requires Trace(p, pass, k, k') && Bounded(p, n, k.store)
    requires pass.Rolling? ==> pass.n <= n
    ensures Bounded(p, n, k'.store)
  {
    forall i: nat | i >= n ensures Absent(p, i, k'.store) {
      TraceAbsent(p, pass, k, k', i);
    }
  }

  /** A rollout removes nothing. */
  lemma RolloutKeepsApps(p: string, n: nat, version: nat, k: Kube, k': Kube, i: nat)
    requires Trace(p, Rolling(n, version), k, k') && Absent(p, i, k'.store)
    ensures Absent(p, i, k.store)
  {
    if !Absent(p, i, k.store) {
      var inv := (s: Store) => !Absent(p, i, s);
      forall s, t | inv(s) && Move(p, Rolling(n, version), s, t) ensures inv(t) {
        RollingMoveKeeps(p, n, version, s, t, i);
      }
      TraceInvariant(p, Rolling(n, version), k, k', inv);
    }
  }

  lemma RollingMoveKeeps(p: string, n: nat, version: nat, s: Store, t: Store, i: nat)
    requires Move(p, Rolling(n, version), s, t)
    ensures Absent(p, i, t) ==> Absent(p, i, s)
  {
    var eff :| Legal(p, Rolling(n, version), s, eff) && t == Perform(s, p, eff);
    RollingDropsNothing(p, n, version, s, eff);
    EffectKeeps(p, s, eff);
  }

  predicate Drop(eff: Effect) {
    eff.DropDeployment? || eff.DropService? || eff.DropClaim? || eff.DropConfig?
  }

  lemma RollingDropsNothing(p: string, n: nat, version: nat, s: Store, eff: Effect)
    requires Legal(p, Rolling(n, version), s, eff)
    ensures !Drop(eff)
  {
  }

  lemma EffectKeeps(p: string, s: Store, eff: Effect)
    requires !Drop(eff)
    ensures var t := Perform(s, p, eff);
            && s.deployments.Keys <= t.deployments.Keys && s.services.Keys <= t.services.Keys
            && s.claims.Keys <= t.claims.Keys && s.configMaps.Keys <= t.configMaps.Keys
  {
  }

  /** The bound of one process is none of another's business. */
  lemma UntouchedBounded(p: string, q: string, n: nat, s: Store, t: Store)
    requires Untouched(p, s, t) && p != q && Bounded(q, n, s)
    ensures Bounded(q, n, t)
  {
    forall i: nat | i >= n ensures Absent(q, i, t) {
      var a := AppName(q, i);
      if IsDeploymentOf(a, p) {
        assert IsAppOf(a, q);
        DeploymentOwnerUnique(a, p, q);
      }
      if IsClaimOf(ClaimName(a), p) {
        assert IsClaimOf(ClaimName(a), q);
        ClaimOwnerUnique(ClaimName(a), p, q);
      }
      assert Absent(q, i, s);
    }
  }

  lemma SameNamesBounded(p: string, len: nat, s: Store, t: Store)
    requires Bounded(p, len, s)
    requires t.deployments.Keys <= s.deployments.Keys && t.services.Keys <= s.services.Keys
             && t.claims.Keys <= s.claims.Keys
    ensures Bounded(p, len, t)
  {
    forall i: nat | i >= len ensures Absent(p, i, t) {
      assert Absent(p, i, s);
    }
  }

  /** The parser of `p` has neither a deployment nor a service. */
  ghost predicate ParserGone(p: string, s: Store) {
    ParserName(p) !in s.deployments && ParserName(p) !in s.services
  }

  /** Cleaning and rolling out leave the parser alone. */
  lemma TraceParserGone(p: string, pass: Pass, k: Kube, k': Kube)
    requires Trace(p, pass, k, k') && !pass.Parsing?
    ensures ParserGone(p, k'.store) <==> ParserGone(p, k.store)
  {
    var gone := ParserGone(p, k.store);
    var inv := (s: Store) => ParserGone(p, s) == gone;
    forall s, t | inv(s) && Move(p, pass, s, t) ensures inv(t) {
      var eff :| Legal(p, pass, s, eff) && t == Perform(s, p, eff);
      SparesParser(p, pass, s, eff);
    }
    TraceInvariant(p, pass, k, k', inv);
  }

  lemma SparesParser(p: string, pass: Pass, s: Store, eff: Effect)
    requires Legal(p, pass, s, eff) && !pass.Parsing?
    ensures ParserGone(p, Perform(s, p, eff)) <==> ParserGone(p, s)
  {
    if eff.PutDeployment? || eff.PutService? || eff.Scale? || eff.DropDeployment? || eff.DropService? {
      var j: nat :| eff.name == AppName(p, j);
      AppIsNotParser(p, j, p);
    }
  }

  lemma UntouchedParserGone(p: string, q: string, s: Store, t: Store)
    requires Untouched(p, s, t) && p != q && ParserGone(q, s)
    ensures ParserGone(q, t)
  {
    if IsDeploymentOf(ParserName(q), p) {
      DeploymentOwnerUnique(ParserName(q), p, q);
    }
  }

  /** A rollout never writes a config map of Siddhi files of a version that differs modulo ten,
      for whatever process and index, in any of its intermediate states. */
  lemma RolloutSparesOtherVersions(p: string, count: nat, version: nat, k: Kube, k': Kube, q: string,
                                   j: nat, w: nat)
    requires Trace(p, Rolling(count, version), k, k') && w % 10 != version % 10
    ensures forall i :: |History(k)| - 1 <= i < |History(k')| ==>
              SameAt(k.store.configMaps, History(k')[i].configMaps, AppsConfigName(AppName(q, j), w))
  {
    var n := AppsConfigName(AppName(q, j), w);
    var inv := (t: Store) => SameAt(k.store.configMaps, t.configMaps, n);
    forall s, t | inv(s) && Move(p, Rolling(count, version), s, t) ensures inv(t) {
      var eff :| Legal(p, Rolling(count, version), s, eff) && t == Perform(s, p, eff);
      if eff.PutConfig? && eff.name == n {
        AppsConfigIsNotRunnerConfig(AppName(q, j), w, p);
        var i: nat :|
          i < count && (n == RunnerConfigName(AppName(p, i)) || n == AppsConfigName(AppName(p, i), version));
        AppsConfigIsNotRunnerConfig(AppName(q, j), w, AppName(p, i));
        VersionsApart(p, i, version, q, j, w);
      }
    }
    TraceInvariant(p, Rolling(count, version), k, k', inv);
  }
}
