/** The removal of surplus applications, call by call: what it drops, whatever lookups and writes fail,
    when that breaks a deployment, and when it leaves something behind. */
module Removals {
  import opened Names
  import opened Cluster
  import opened Controller
  import opened Moves
  import opened Isolation
  import opened Integrity

  // ---------------------------------------------------------------- effects

  /** A Delete helper drops an object exactly when it finds it and the write goes through. */
  predicate Drops(e: Env, k: Kube, eff: Effect) {
    k.calls !in e.failedLookups && Exists(k.store, eff) && k.calls + 1 !in e.failedWrites
  }

  lemma DeleteEffect(e: Env, k: Kube, p: string, eff: Effect)
    ensures var r := Delete(e, k, p, eff);
            && r.kube.store == (if Drops(e, k, eff) then Perform(k.store, p, eff) else k.store)
            && History(r.kube) == (if Drops(e, k, eff) then History(k) + [Perform(k.store, p, eff)] else History(k))
            && (r.err <==> k.calls !in e.failedLookups && Exists(k.store, eff) && k.calls + 1 in e.failedWrites)
            && r.kube.calls > k.calls && SameRecords(k, r.kube)
  {
  }

  /** The controller between the deletions of the deployment and of the service of application `i`. */
  function DeploymentDeleted(e: Env, c: Ctl, i: nat): Ctl {
    Report(e, c.(kube := Delete(e, c.kube, c.sp.name, DropDeployment(AppName(c.sp.name, i))).kube))
  }

  /** The numbers of the four lookups, in the order in which they are made. */
  function DeploymentLookup(c: Ctl): nat {
    c.kube.calls
  }

  function ServiceLookup(e: Env, c: Ctl, i: nat): nat {
    DeploymentDeleted(e, c, i).kube.calls
  }

  function ClaimLookup(e: Env, c: Ctl, i: nat): nat {
    AppStopped(e, c, i).ctl.kube.calls
  }

  function ClaimDeletion(e: Env, c: Ctl, i: nat): Result {
    Delete(e, AppStopped(e, c, i).ctl.kube, c.sp.name, DropClaim(ClaimName(AppName(c.sp.name, i))))
  }

  function ConfigLookup(e: Env, c: Ctl, i: nat): nat {
    ClaimDeletion(e, c, i).kube.calls
  }

  /** `t` is `s` but for some deployments and services of the name `n`. */
  ghost predicate Stopping(n: string, s: Store, t: Store) {
    && t.claims == s.claims && t.configMaps == s.configMaps
    && (t.deployments == s.deployments || t.deployments == s.deployments - {n})
    && (t.services == s.services || t.services == s.services - {n})
  }

  lemma StopEffect(e: Env, c: Ctl, i: nat)
    ensures var r, s, n := AppStopped(e, c, i), c.kube.store, AppName(c.sp.name, i);
            var t := r.ctl.kube.store;
            && r.ctl.sp == c.sp && Stopping(n, s, t)
            && (!r.err ==> t.deployments == if DeploymentLookup(c) in e.failedLookups then s.deployments
                                            else s.deployments - {n})
            && (!r.err ==> t.services == if ServiceLookup(e, c, i) in e.failedLookups then s.services
                                         else s.services - {n})
    ensures var h, h' := History(c.kube), History(AppStopped(e, c, i).ctl.kube);
            h <= h' && forall j :: |c.kube.past| <= j < |h'| ==> Stopping(AppName(c.sp.name, i), c.kube.store, h'[j])
  {
    var n, p := AppName(c.sp.name, i), c.sp.name;
    DropsDeployment(e, c.kube, p, n);
    StopStages(e, c, i);
    if !Delete(e, c.kube, p, DropDeployment(n)).err {
      DropsService(e, DeploymentDeleted(e, c, i).kube, p, n);
    }
  }

  lemma DropsDeployment(e: Env, k: Kube, p: string, n: string)
    ensures var r := Delete(e, k, p, DropDeployment(n));
            && r.kube.store == k.store.(deployments := if k.calls in e.failedLookups || r.err then k.store.deployments
                                                       else k.store.deployments - {n})
            && (History(r.kube) == History(k) || History(r.kube) == History(k) + [r.kube.store])
  {
    DeleteEffect(e, k, p, DropDeployment(n));
    assert n !in k.store.deployments ==> k.store.deployments - {n} == k.store.deployments;
  }

  lemma DropsService(e: Env, k: Kube, p: string, n: string)
    ensures var r := Delete(e, k, p, DropService(n));
            && r.kube.store == k.store.(services := if k.calls in e.failedLookups || r.err then k.store.services
                                                    else k.store.services - {n})
            && (History(r.kube) == History(k) || History(r.kube) == History(k) + [r.kube.store])
  {
    DeleteEffect(e, k, p, DropService(n));
    assert n !in k.store.services ==> k.store.services - {n} == k.store.services;
  }

  lemma StopStages(e: Env, c: Ctl, i: nat)
    ensures var n, p, r := AppName(c.sp.name, i), c.sp.name, AppStopped(e, c, i);
            var d, c1 := Delete(e, c.kube, p, DropDeployment(n)), DeploymentDeleted(e, c, i);
            var s := Delete(e, c1.kube, p, DropService(n));
            && r.ctl.sp == c.sp && r.err == (d.err || s.err)
            && c1.kube.store == d.kube.store && History(c1.kube) == History(d.kube)
            && r.ctl.kube.store == (if d.err then d else s).kube.store
            && History(r.ctl.kube) == History((if d.err then d else s).kube)
  {
  }

  lemma ReleaseEffect(e: Env, c: Ctl, i: nat)
    ensures var r, s, n := AppReleased(e, c, i), c.kube.store, AppName(c.sp.name, i);
            var t, v := r.ctl.kube.store, Delete(e, c.kube, c.sp.name, DropClaim(ClaimName(n)));
            var config := DropConfig(AppsConfigName(n, c.sp.status.previous));
            && r.ctl.sp == c.sp && t.deployments == s.deployments && t.services == s.services
            && t.claims == (if Drops(e, c.kube, DropClaim(ClaimName(n))) then s.claims - {ClaimName(n)} else s.claims)
            && t.configMaps ==
               (if !v.err && Drops(e, v.kube, config) then s.configMaps - {config.name} else s.configMaps)
            && (!r.err ==> t.claims == if c.kube.calls in e.failedLookups then s.claims else s.claims - {ClaimName(n)})
  {
    var n, p := AppName(c.sp.name, i), c.sp.name;
    DeleteEffect(e, c.kube, p, DropClaim(ClaimName(n)));
    var v := Delete(e, c.kube, p, DropClaim(ClaimName(n)));
    DeleteEffect(e, v.kube, p, DropConfig(AppsConfigName(n, c.sp.status.previous)));
  }

  // ---------------------------------------------------------------- integrity

  /** Deployment `d` is still there once application `i` has been stopped: it is another one, or the lookup
      of the application's own deployment fails. */
  predicate Stays(e: Env, c: Ctl, i: nat, d: string) {
    d in c.kube.store.deployments && (d != AppName(c.sp.name, i) || DeploymentLookup(c) in e.failedLookups)
  }

  predicate Mounts(s: Store, d: string, v: Volume)
    requires d in s.deployments
  {
    v in s.deployments[d].template.volumes
  }

  /** The removal gets to the claim, and neither its lookup nor its deletion fails. */
  predicate ReleasesClaim(e: Env, c: Ctl, i: nat) {
    && !AppStopped(e, c, i).err
    && ClaimLookup(e, c, i) !in e.failedLookups && ClaimLookup(e, c, i) + 1 !in e.failedWrites
  }

  /** The removal gets to the config map, and neither its lookup nor its deletion fails. */
  predicate ReleasesConfig(e: Env, c: Ctl, i: nat) {
    && !AppStopped(e, c, i).err && !ClaimDeletion(e, c, i).err
    && ConfigLookup(e, c, i) !in e.failedLookups && ConfigLookup(e, c, i) + 1 !in e.failedWrites
  }

  /** No deployment that stays mounts the claim or the config map that the removal takes away. */
  ghost predicate RemovalHarmless(e: Env, c: Ctl, i: nat) {
    var n, s := AppName(c.sp.name, i), c.kube.store;
    forall d | Stays(e, c, i, d) ::
      && (Mounts(s, d, ClaimVolume(ClaimName(n))) ==> !ReleasesClaim(e, c, i))
      && (Mounts(s, d, ConfigVolume(AppsConfigName(n, c.sp.status.previous))) ==> !ReleasesConfig(e, c, i))
  }

  lemma StoppedIntact(e: Env, c: Ctl, i: nat)
    requires Intact(c.kube.store)
    ensures IntactFrom(History(AppStopped(e, c, i).ctl.kube), |c.kube.past|)
    ensures Intact(AppStopped(e, c, i).ctl.kube.store)
  {
    StopEffect(e, c, i);
    var h := History(AppStopped(e, c, i).ctl.kube);
    forall j | |c.kube.past| <= j < |h| ensures Intact(h[j]) {
      forall v | Present(c.kube.store, v) ensures Present(h[j], v) {
      }
    }
  }

  /** While an application is released, integrity that is lost stays lost. */
  lemma ReleasedHistory(e: Env, c: Ctl, i: nat)
    requires Intact(c.kube.store)
    ensures var r := AppReleased(e, c, i).ctl.kube;
            && History(c.kube) <= History(r)
            && (IntactFrom(History(r), |c.kube.past|) <==> Intact(r.store))
  {
    var n, p := AppName(c.sp.name, i), c.sp.name;
    var claim, config := DropClaim(ClaimName(n)), DropConfig(AppsConfigName(n, c.sp.status.previous));
    DeleteEffect(e, c.kube, p, claim);
    var v := Delete(e, c.kube, p, claim);
    DeleteEffect(e, v.kube, p, config);
    var r, h := AppReleased(e, c, i).ctl.kube, History(AppReleased(e, c, i).ctl.kube);
    assert h[|h| - 1] == r.store;
    if Intact(r.store) {
      ConfigKept(v.kube.store, r.store);
    }
  }

  lemma ConfigKept(s: Store, t: Store)
    requires t.deployments == s.deployments && t.claims == s.claims && t.configMaps.Keys <= s.configMaps.Keys
    requires Intact(t)
    ensures Intact(s)
  {
    forall u | Present(t, u) ensures Present(s, u) {
    }
  }

  /** No deployment mounts the claim or the config map of `n`, as far as they go. */
  ghost predicate Unmounted(s: Store, n: string, prev: int, claimGoes: bool, configGoes: bool) {
    forall d | d in s.deployments ::
      && (Mounts(s, d, ClaimVolume(ClaimName(n))) ==> !claimGoes)
      && (Mounts(s, d, ConfigVolume(AppsConfigName(n, prev))) ==> !configGoes)
  }

  lemma ReleasedIntactIff(e: Env, c: Ctl, i: nat)
    requires Intact(c.kube.store)
    ensures var n, s := AppName(c.sp.name, i), c.kube.store;
            var v := Delete(e, c.kube, c.sp.name, DropClaim(ClaimName(n)));
            Intact(AppReleased(e, c, i).ctl.kube.store) <==>
            Unmounted(s, n, c.sp.status.previous,
                      c.kube.calls !in e.failedLookups && c.kube.calls + 1 !in e.failedWrites,
                      !v.err && v.kube.calls !in e.failedLookups && v.kube.calls + 1 !in e.failedWrites)
  {
    ReleaseEffect(e, c, i);
    var n, s, t := AppName(c.sp.name, i), c.kube.store, AppReleased(e, c, i).ctl.kube.store;
    var claim, config := ClaimVolume(ClaimName(n)), ConfigVolume(AppsConfigName(n, c.sp.status.previous));
    var v := Delete(e, c.kube, c.sp.name, DropClaim(ClaimName(n)));
    DeleteEffect(e, c.kube, c.sp.name, DropClaim(ClaimName(n)));
    assert forall u | Present(s, u) ::
      Present(t, u) <==>
        && (u == claim ==> c.kube.calls in e.failedLookups || c.kube.calls + 1 in e.failedWrites)
        && (u == config ==> v.err || v.kube.calls in e.failedLookups || v.kube.calls + 1 in e.failedWrites);
    if Intact(t) {
      forall d | d in s.deployments
        ensures Mounts(s, d, claim) ==> Present(s, claim) && Present(t, claim)
        ensures Mounts(s, d, config) ==> Present(s, config) && Present(t, config)
      {
      }
    }
  }

  lemma IntactSplit(h: seq<Store>, h': seq<Store>, from: nat)
    requires h <= h' && from < |h|
    ensures IntactFrom(h', from) <==> IntactFrom(h, from) && IntactFrom(h', |h| - 1)
  {
    forall j | from <= j < |h| ensures h'[j] == h[j] {
    }
  }

  /** Whatever lookups and writes fail: removing an application keeps everything intact, at every client
      call, exactly when no deployment that stays mounts what the removal takes away. */
  lemma RemovalIntactIff(e: Env, c: Ctl, i: nat)
    requires Intact(c.kube.store)
    ensures History(c.kube) <= History(AppRemoved(e, c, i).ctl.kube)
    ensures IntactFrom(History(AppRemoved(e, c, i).ctl.kube), |c.kube.past|) <==> RemovalHarmless(e, c, i)
    ensures Intact(AppRemoved(e, c, i).ctl.kube.store) <==> RemovalHarmless(e, c, i)
  {
    var r := AppStopped(e, c, i);
    StopEffect(e, c, i);
    StoppedIntact(e, c, i);
    if !r.err {
      ReleasedHistory(e, r.ctl, i);
      HarmlessOnceStopped(e, c, i);
      IntactSplit(History(r.ctl.kube), History(AppRemoved(e, c, i).ctl.kube), |c.kube.past|);
    }
  }

  lemma HarmlessOnceStopped(e: Env, c: Ctl, i: nat)
    requires Intact(c.kube.store) && !AppStopped(e, c, i).err
    ensures Intact(AppReleased(e, AppStopped(e, c, i).ctl, i).ctl.kube.store) <==> RemovalHarmless(e, c, i)
  {
    var r := AppStopped(e, c, i).ctl;
    StaysOnceStopped(e, c, i);
    StoppedIntact(e, c, i);
    ReleasedIntactIff(e, r, i);
    HarmlessByStopped(e, c, i, r.kube.store);
  }

  /** `RemovalHarmless` in terms of what is there once the application has been stopped. */
  lemma HarmlessByStopped(e: Env, c: Ctl, i: nat, t: Store)
    requires !AppStopped(e, c, i).err && forall d :: d in t.deployments <==> Stays(e, c, i, d)
    requires forall d | Stays(e, c, i, d) :: t.deployments[d] == c.kube.store.deployments[d]
    ensures RemovalHarmless(e, c, i) <==>
            Unmounted(t, AppName(c.sp.name, i), c.sp.status.previous, ReleasesClaim(e, c, i), ReleasesConfig(e, c, i))
  {
  }

  lemma StaysOnceStopped(e: Env, c: Ctl, i: nat)
    requires !AppStopped(e, c, i).err
    ensures var s, r := c.kube.store, AppStopped(e, c, i).ctl;
            && r.sp == c.sp
            && (forall d :: d in r.kube.store.deployments <==> Stays(e, c, i, d))
            && forall d | Stays(e, c, i, d) :: r.kube.store.deployments[d] == s.deployments[d]
  {
    StopEffect(e, c, i);
  }

  /** Each removal below `n` that the cleaning pass gets to is harmless. */
  ghost predicate HarmlessUpTo(e: Env, c: Ctl, lo: nat, n: nat)
    decreases n
  {
    n <= lo || (HarmlessUpTo(e, c, lo, n - 1) && HarmlessIf(e, RemovedUpTo(e, c, lo, n - 1), n - 1))
  }

  ghost predicate HarmlessIf(e: Env, q: Cleaned, i: nat) {
    q.err || RemovalHarmless(e, q.ctl, i)
  }

  /** The next step of a cleaning pass that has got to `q`. */
  function Continued(e: Env, q: Cleaned, i: nat): Cleaned {
    if q.err then q else AppRemoved(e, q.ctl, i)
  }

  lemma ContinuedIntact(e: Env, c: Ctl, q: Cleaned, i: nat, r: Cleaned)
    requires History(c.kube) <= History(q.ctl.kube) && r == Continued(e, q, i)
    ensures History(c.kube) <= History(r.ctl.kube)
    ensures IntactFrom(History(r.ctl.kube), |c.kube.past|) <==>
            IntactFrom(History(q.ctl.kube), |c.kube.past|) && HarmlessIf(e, q, i)
  {
    var h := History(q.ctl.kube);
    if !q.err {
      RemovalExtends(e, q.ctl, i);
      IntactSplit(h, History(r.ctl.kube), |c.kube.past|);
      if IntactFrom(h, |c.kube.past|) {
        assert h[|h| - 1] == q.ctl.kube.store;
        RemovalIntactIff(e, q.ctl, i);
      }
    }
  }

  lemma {:induction false} RemovedUpToIntact(e: Env, c: Ctl, lo: nat, n: nat) returns (r: Cleaned)
    requires Intact(c.kube.store)
    ensures r == RemovedUpTo(e, c, lo, n) && History(c.kube) <= History(r.ctl.kube)
    ensures IntactFrom(History(r.ctl.kube), |c.kube.past|) <==> HarmlessUpTo(e, c, lo, n)
    decreases n
  {
    if n <= lo {
      r := Cleaned(c, false);
    } else {
      var q := RemovedUpToIntact(e, c, lo, n - 1);
      r := Continued(e, q, n - 1);
      ContinuedIntact(e, c, q, n - 1, r);
      assert r == RemovedUpTo(e, c, lo, n);
    }
  }

  /** Whatever lookups and writes fail: a cleaning pass keeps everything intact, at every client call,
      exactly when each of its removals is harmless. */
  lemma CleaningIntactIff(e: Env, c: Ctl, lo: nat, hi: nat)
    requires Intact(c.kube.store)
    ensures IntactFrom(History(ArtifactsCleaned(e, c, hi, lo).ctl.kube), |c.kube.past|) <==> HarmlessUpTo(e, c, lo, hi)
  {
    var _ := RemovedUpToIntact(e, c, lo, hi);
  }

  // ---------------------------------------------------------------- leftovers

  /** Every lookup of a deployment, service or claim of application `i` that exists succeeds. */
  predicate SeesAll(e: Env, c: Ctl, i: nat) {
    var n, s := AppName(c.sp.name, i), c.kube.store;
    && SeesDeployment(e, c, i)
    && (n in s.services ==> ServiceLookup(e, c, i) !in e.failedLookups)
    && (ClaimName(n) in s.claims ==> ClaimLookup(e, c, i) !in e.failedLookups)
  }

  predicate SeesDeployment(e: Env, c: Ctl, i: nat) {
    AppName(c.sp.name, i) in c.kube.store.deployments ==> DeploymentLookup(c) !in e.failedLookups
  }

  /** Each removal below `n` that the cleaning pass gets to sees everything. */
  predicate SeesAllUpTo(e: Env, c: Ctl, lo: nat, n: nat)
    decreases n
  {
    n <= lo || (SeesAllUpTo(e, c, lo, n - 1) && SeesAllIf(e, RemovedUpTo(e, c, lo, n - 1), n - 1))
  }

  predicate SeesAllIf(e: Env, q: Cleaned, i: nat) {
    q.err || SeesAll(e, q.ctl, i)
  }

  /** Each removal below `n` that the cleaning pass gets to sees the deployment. */
  predicate SeesDeploymentsUpTo(e: Env, c: Ctl, lo: nat, n: nat)
    decreases n
  {
    n <= lo || (SeesDeploymentsUpTo(e, c, lo, n - 1) && SeesDeploymentIf(e, RemovedUpTo(e, c, lo, n - 1), n - 1))
  }

  predicate SeesDeploymentIf(e: Env, q: Cleaned, i: nat) {
    q.err || SeesDeployment(e, q.ctl, i)
  }

  /** A removal takes away objects of its own application and nothing else. */
  ghost predicate Removing(n: string, prev: int, s: Store, t: Store) {
    && (t.deployments == s.deployments || t.deployments == s.deployments - {n})
    && (t.services == s.services || t.services == s.services - {n})
    && (t.claims == s.claims || t.claims == s.claims - {ClaimName(n)})
    && (t.configMaps == s.configMaps || t.configMaps == s.configMaps - {AppsConfigName(n, prev)})
  }

  lemma RemovalEffect(e: Env, c: Ctl, i: nat)
    ensures var r, n := AppRemoved(e, c, i), AppName(c.sp.name, i);
            r.ctl.sp == c.sp && Removing(n, c.sp.status.previous, c.kube.store, r.ctl.kube.store)
  {
    StopEffect(e, c, i);
    ReleaseEffect(e, AppStopped(e, c, i).ctl, i);
  }

  lemma RemovalExtends(e: Env, c: Ctl, i: nat)
    ensures History(c.kube) <= History(AppRemoved(e, c, i).ctl.kube)
  {
    StopEffect(e, c, i);
    var r, n, p := AppStopped(e, c, i).ctl, AppName(c.sp.name, i), c.sp.name;
    DeleteEffect(e, r.kube, p, DropClaim(ClaimName(n)));
    DeleteEffect(e, ClaimDeletion(e, c, i).kube, p, DropConfig(AppsConfigName(n, c.sp.status.previous)));
  }

  /** A removal that reports success leaves no deployment, service or claim of its application exactly when
      no lookup of one of them fails. */
  lemma RemovalAbsentIff(e: Env, c: Ctl, i: nat)
    requires !AppRemoved(e, c, i).err
    ensures Absent(c.sp.name, i, AppRemoved(e, c, i).ctl.kube.store) <==> SeesAll(e, c, i)
  {
    StopEffect(e, c, i);
    ReleaseEffect(e, AppStopped(e, c, i).ctl, i);
  }

  /** One failed lookup of a deployment is enough to leave it behind without an error. */
  lemma BlindRemovalOrphans(e: Env, c: Ctl, i: nat)
    requires DeploymentLookup(c) in e.failedLookups && AppName(c.sp.name, i) in c.kube.store.deployments
    requires e.failedWrites == {}
    ensures !AppRemoved(e, c, i).err && !Absent(c.sp.name, i, AppRemoved(e, c, i).ctl.kube.store)
  {
    RemovalSucceeds(e, c, i);
    RemovalAbsentIff(e, c, i);
  }

  lemma RemovalSucceeds(e: Env, c: Ctl, i: nat)
    requires e.failedWrites == {}
    ensures !AppRemoved(e, c, i).err
  {
  }

  lemma RemovalSparesOthers(p: string, i: nat, prev: int, s: Store, t: Store, j: nat)
    requires Removing(AppName(p, i), prev, s, t) && i != j
    ensures Absent(p, j, s) <==> Absent(p, j, t)
  {
    if AppName(p, i) == AppName(p, j) {
      AppNameInjective(p, i, p, j);
    }
    if ClaimName(AppName(p, i)) == ClaimName(AppName(p, j)) {
      ClaimNameInjective(AppName(p, i), AppName(p, j));
    }
  }

  /** Nothing of the applications from `lo` up to `n` is left. */
  ghost predicate AbsentFrom(p: string, lo: nat, n: nat, s: Store) {
    forall i: nat :: lo <= i < n ==> Absent(p, i, s)
  }

  /** From `s` to `t` nothing has changed for the applications outside of the range. */
  ghost predicate SameOutside(p: string, lo: nat, n: nat, s: Store, t: Store) {
    forall j: nat :: !(lo <= j < n) ==> (Absent(p, j, t) <==> Absent(p, j, s))
  }

  lemma ContinuedAbsent(e: Env, c: Ctl, q: Cleaned, lo: nat, i: nat)
    requires lo <= i && q.ctl.sp == c.sp && SameOutside(c.sp.name, lo, i, c.kube.store, q.ctl.kube.store)
    ensures var r, p := Continued(e, q, i), c.sp.name;
            && r.ctl.sp == c.sp && SameOutside(p, lo, i + 1, c.kube.store, r.ctl.kube.store)
            && (!r.err ==> !q.err && (AbsentFrom(p, lo, i + 1, r.ctl.kube.store) <==>
                                        AbsentFrom(p, lo, i, q.ctl.kube.store) && SeesAllIf(e, q, i)))
  {
    if !q.err {
      var p, s, t := c.sp.name, q.ctl.kube.store, Continued(e, q, i).ctl.kube.store;
      RemovalEffect(e, q.ctl, i);
      forall j: nat | j != i ensures Absent(p, j, t) <==> Absent(p, j, s) {
        RemovalSparesOthers(p, i, c.sp.status.previous, s, t, j);
      }
      if !Continued(e, q, i).err {
        RemovalAbsentIff(e, q.ctl, i);
      }
    }
  }

  /** A cleaning pass that reports success leaves nothing in its range exactly when each of its removals
      sees what there is to remove; it does not touch what is outside of its range. */
  lemma {:induction false} CleaningAbsentIff(e: Env, c: Ctl, lo: nat, n: nat) returns (r: Cleaned)
    ensures r == RemovedUpTo(e, c, lo, n) && r.ctl.sp == c.sp
    ensures !r.err ==> (AbsentFrom(c.sp.name, lo, n, r.ctl.kube.store) <==> SeesAllUpTo(e, c, lo, n))
    ensures SameOutside(c.sp.name, lo, n, c.kube.store, r.ctl.kube.store)
    decreases n
  {
    if n <= lo {
      r := Cleaned(c, false);
    } else {
      var q := CleaningAbsentIff(e, c, lo, n - 1);
      ContinuedAbsent(e, c, q, lo, n - 1);
      r := Continued(e, q, n - 1);
    }
  }

  // ---------------------------------------------------------------- sound clusters

  /** In a sound cluster, the removal of an application whose deployment is seen is harmless, unless the
      process is entangled, and leaves a sound cluster. */
  lemma SoundRemoval(e: Env, c: Ctl, i: nat, versions: map<string, nat>)
    requires Sound(c.kube.store, versions) && c.sp.name in versions && versions[c.sp.name] == c.sp.status.previous
    requires !Entangled(c.sp.name, c.sp.status.previous, c.kube.store) && SeesDeployment(e, c, i)
    ensures RemovalHarmless(e, c, i)
    ensures var t := AppRemoved(e, c, i).ctl.kube.store;
            Sound(t, versions) && !Entangled(c.sp.name, c.sp.status.previous, t)
  {
    var p, n, s := c.sp.name, AppName(c.sp.name, i), c.kube.store;
    var rest := s.(deployments := s.deployments - {n});
    SoundIntact(s, versions);
    FewerSound(p, s, rest, versions);
    forall d | Stays(e, c, i, d)
      ensures !Mounts(s, d, ClaimVolume(ClaimName(n)))
      ensures !Mounts(s, d, ConfigVolume(AppsConfigName(n, c.sp.status.previous)))
    {
      DroppedClaimUnmounted(p, i, rest, versions, d);
      DroppedConfigUnmounted(p, i, rest, versions, d);
    }
    RemovalIntactIff(e, c, i);
    RemovalEffect(e, c, i);
    FewerSound(p, s, AppRemoved(e, c, i).ctl.kube.store, versions);
  }

  /** A sound cluster stays sound while objects disappear, as long as it stays intact. */
  lemma FewerSound(p: string, s: Store, t: Store, versions: map<string, nat>)
    requires Sound(s, versions) && p in versions && !Entangled(p, versions[p], s)
    requires Fewer(s.deployments, t.deployments) && Fewer(s.services, t.services)
             && Fewer(s.configMaps, t.configMaps) && Fewer(s.claims, t.claims)
    requires Intact(t)
    ensures Sound(t, versions) && !Entangled(p, versions[p], t)
  {
    forall i: nat, j: nat | i < j && EntangledAt(p, versions[p], t, i, j) ensures false {
      assert EntangledAt(p, versions[p], s, i, j);
    }
  }

  ghost predicate Fewer<T>(m: map<string, T>, m': map<string, T>) {
    forall k | k in m' :: k in m && m'[k] == m[k]
  }

  lemma ContinuedSound(e: Env, q: Cleaned, i: nat, versions: map<string, nat>, r: Cleaned)
    requires r == Continued(e, q, i)
    requires Sound(q.ctl.kube.store, versions) && q.ctl.sp.name in versions
    requires versions[q.ctl.sp.name] == q.ctl.sp.status.previous
    requires !Entangled(q.ctl.sp.name, q.ctl.sp.status.previous, q.ctl.kube.store) && SeesDeploymentIf(e, q, i)
    ensures r.ctl.sp == q.ctl.sp && HarmlessIf(e, q, i) && Sound(r.ctl.kube.store, versions)
    ensures !Entangled(q.ctl.sp.name, q.ctl.sp.status.previous, r.ctl.kube.store)
  {
    if !q.err {
      SoundRemoval(e, q.ctl, i, versions);
      RemovalEffect(e, q.ctl, i);
    }
  }

  lemma {:induction false} SoundCleaning(e: Env, c: Ctl, lo: nat, n: nat, versions: map<string, nat>)
    returns (r: Cleaned)
    requires Sound(c.kube.store, versions) && c.sp.name in versions && versions[c.sp.name] == c.sp.status.previous
    requires !Entangled(c.sp.name, c.sp.status.previous, c.kube.store) && SeesDeploymentsUpTo(e, c, lo, n)
    ensures r == RemovedUpTo(e, c, lo, n) && r.ctl.sp == c.sp
    ensures Sound(r.ctl.kube.store, versions) && !Entangled(c.sp.name, c.sp.status.previous, r.ctl.kube.store)
    ensures HarmlessUpTo(e, c, lo, n)
    decreases n
  {
    if n <= lo {
      r := Cleaned(c, false);
    } else {
      var q := SoundCleaning(e, c, lo, n - 1, versions);
      r := Continued(e, q, n - 1);
      ContinuedSound(e, q, n - 1, versions, r);
      assert r == RemovedUpTo(e, c, lo, n);
    }
  }

  /** Removing application `i` takes away what a deployment mounts under the same name. */
  lemma EntangledBreaks(e: Env, c: Ctl, i: nat, j: nat)
    requires e.failedLookups == {} && e.failedWrites == {} && Intact(c.kube.store)
    requires i != j && EntangledAt(c.sp.name, c.sp.status.previous, c.kube.store, i, j)
    ensures !RemovalHarmless(e, c, i) && !AppRemoved(e, c, i).err && !Intact(AppRemoved(e, c, i).ctl.kube.store)
  {
    RemovalIntactIff(e, c, i);
    RemovalSucceeds(e, c, i);
    if AppName(c.sp.name, i) == AppName(c.sp.name, j) {
      AppNameInjective(c.sp.name, i, c.sp.name, j);
    }
    assert Stays(e, c, i, AppName(c.sp.name, j));
  }

  lemma {:induction false} HarmlessBelow(e: Env, c: Ctl, lo: nat, m: nat, n: nat)
    requires m <= n && HarmlessUpTo(e, c, lo, n) && lo < m
    ensures HarmlessUpTo(e, c, lo, m)
    decreases n
  {
    if m < n {
      HarmlessBelow(e, c, lo, m, n - 1);
    }
  }

  /** Lookups that do not fail see everything. */
  lemma {:induction false} SeesWithoutFaults(e: Env, c: Ctl, lo: nat, n: nat)
    requires e.failedLookups == {}
    ensures SeesAllUpTo(e, c, lo, n) && SeesDeploymentsUpTo(e, c, lo, n)
    decreases n
  {
    if n > lo {
      SeesWithoutFaults(e, c, lo, n - 1);
    }
  }

  /** While all calls succeed, cleaning passes of any extent keep everything intact at every client call
      exactly when the process is not entangled. */
  lemma EntangledIff(e: Env, c: Ctl, hi: nat, versions: map<string, nat>)
    requires e.failedLookups == {} && e.failedWrites == {}
    requires c.sp.name in versions && versions[c.sp.name] == c.sp.status.previous
    requires Sound(c.kube.store, versions) && Bounded(c.sp.name, hi, c.kube.store)
    ensures (forall lo: nat :: lo <= hi ==> IntactFrom(History(ArtifactsCleaned(e, c, hi, lo).ctl.kube), |c.kube.past|))
            <==> !Entangled(c.sp.name, c.sp.status.previous, c.kube.store)
  {
    SoundIntact(c.kube.store, versions);
    if !Entangled(c.sp.name, c.sp.status.previous, c.kube.store) {
      forall lo: nat | lo <= hi ensures IntactFrom(History(ArtifactsCleaned(e, c, hi, lo).ctl.kube), |c.kube.past|) {
        SeesWithoutFaults(e, c, lo, hi);
        var _ := SoundCleaning(e, c, lo, hi, versions);
        CleaningIntactIff(e, c, lo, hi);
      }
    } else {
      var i: nat, j: nat :| i < j && EntangledAt(c.sp.name, c.sp.status.previous, c.kube.store, i, j);
      BoundedPresent(c.sp.name, hi, c.kube.store, j);
      EntangledNotHarmless(e, c, i, j, hi);
      CleaningIntactIff(e, c, i, hi);
    }
  }

  lemma EntangledNotHarmless(e: Env, c: Ctl, i: nat, j: nat, hi: nat)
    requires e.failedLookups == {} && e.failedWrites == {} && Intact(c.kube.store) && i < hi
    requires i != j && EntangledAt(c.sp.name, c.sp.status.previous, c.kube.store, i, j)
    ensures !HarmlessUpTo(e, c, i, hi)
  {
    EntangledBreaks(e, c, i, j);
    FirstRemoval(e, c, i);
    if HarmlessUpTo(e, c, i, hi) {
      HarmlessBelow(e, c, i, i + 1, hi);
    }
  }

  lemma FirstRemoval(e: Env, c: Ctl, i: nat)
    ensures HarmlessUpTo(e, c, i, i + 1) <==> RemovalHarmless(e, c, i)
  {
    assert RemovedUpTo(e, c, i, i) == Cleaned(c, false);
  }

  /** A stored version that lags behind what is running breaks integrity too: with previous version
      1 in store and version 11 running, the removal of application 11 hits application 1. */
  lemma StaleVersionBreaks(e: Env, c: Ctl)
    requires e.failedLookups == {} && e.failedWrites == {} && Intact(c.kube.store) && c.sp.status.previous == 1
    requires AppName(c.sp.name, 1) in c.kube.store.deployments
    requires Mounts(c.kube.store, AppName(c.sp.name, 1), ConfigVolume(AppsConfigName(AppName(c.sp.name, 1), 11)))
    ensures !AppRemoved(e, c, 11).err && !Intact(AppRemoved(e, c, 11).ctl.kube.store)
  {
    DistantVersionsCollide(c.sp.name);
    EntangledBreaks(e, c, 11, 1);
  }

  /** A failed lookup of a deployment breaks integrity: its claim goes although it stays. */
  lemma BlindRemovalBreaks(e: Env, c: Ctl, i: nat)
    requires e.failedLookups == {DeploymentLookup(c)} && e.failedWrites == {} && Intact(c.kube.store)
    requires var d := AppName(c.sp.name, i);
             d in c.kube.store.deployments && Mounts(c.kube.store, d, ClaimVolume(ClaimName(d)))
    ensures !AppRemoved(e, c, i).err && !Intact(AppRemoved(e, c, i).ctl.kube.store)
  {
    RemovalIntactIff(e, c, i);
    RemovalSucceeds(e, c, i);
    StopTakesCalls(e, c, i);
    assert Stays(e, c, i, AppName(c.sp.name, i));
  }

  lemma StopTakesCalls(e: Env, c: Ctl, i: nat)
    ensures ClaimLookup(e, c, i) > DeploymentLookup(c)
  {
  }
}
