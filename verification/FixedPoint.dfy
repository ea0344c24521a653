/** What a pass without failures achieves, and that a second one adds nothing. */
module FixedPoint {
  import opened SiddhiTypes
  import opened Names
  import opened Cluster
  import opened Deployments
  import opened Controller
  import opened Operator
  import opened Conformance
  import opened Isolation
  import opened StatusFlow
  import opened StoredVersions
  import opened Passes
  import opened Runs
  import opened Orphans
  import opened Locality
  import opened Provisioning

  // ---------------------------------------------------------------- replica counts

  ghost predicate Scaled(a: Application, s: Store) {
    a.name in s.deployments ==> s.deployments[a.name].replicas == a.replicas
  }

  ghost predicate AllScaled(apps: seq<Application>, n: nat, s: Store)
    requires n <= |apps|
  {
    forall i :: 0 <= i < n ==> Scaled(apps[i], s)
  }

  /** Scaling changes replica counts and nothing else. */
  ghost predicate OnlyScaled(s: Store, t: Store) {
    && t == s.(deployments := t.deployments)
    && t.deployments.Keys == s.deployments.Keys
    && forall d | d in s.deployments :: t.deployments[d].template == s.deployments[d].template
  }

  lemma RescaledScales(e: Env, c: Ctl, a: Application)
    requires NoFaults(e)
    ensures var t := Rescaled(e, c, a).kube.store;
            && Scaled(a, t) && OnlyScaled(c.kube.store, t)
            && forall d | d in t.deployments && d != a.name :: t.deployments[d] == c.kube.store.deployments[d]
  {
  }

  lemma {:induction false} RescaledUpToScales(e: Env, c: Ctl, apps: seq<Application>, n: nat)
    requires NoFaults(e) && Named(c.sp.name, apps) && n <= |apps|
    ensures AllScaled(apps, n, RescaledUpTo(e, c, apps, n).kube.store)
    ensures OnlyScaled(c.kube.store, RescaledUpTo(e, c, apps, n).kube.store)
    decreases n
  {
    if n > 0 {
      var c1, m := RescaledUpTo(e, c, apps, n - 1), n - 1;
      RescaledUpToScales(e, c, apps, m);
      RescaledScales(e, c1, apps[m]);
      var t := Rescaled(e, c1, apps[m]).kube.store;
      forall i: nat | i < n ensures Scaled(apps[i], t) {
        if i < m {
          if apps[i].name == apps[m].name {
            AppNameInjective(c.sp.name, i, c.sp.name, m);
          }
          assert Scaled(apps[i], c1.kube.store);
        }
      }
    }
  }

  lemma {:induction false} RescaledUpToFixed(e: Env, c: Ctl, apps: seq<Application>, n: nat)
    requires n <= |apps| && AllScaled(apps, |apps|, c.kube.store)
    ensures RescaledUpTo(e, c, apps, n).kube.store == c.kube.store
    decreases n
  {
    if n > 0 {
      RescaledUpToFixed(e, c, apps, n - 1);
      assert Scaled(apps[n - 1], c.kube.store);
    }
  }

  lemma OnlyScaledHandled(e: Env, cfg: Config, sp: SiddhiProcess, a: Application, s: Store, t: Store)
    requires OnlyScaled(s, t) && Handled(e, cfg, sp, a, s)
    ensures Handled(e, cfg, sp, a, t)
  {
  }

  // ---------------------------------------------------------------- a pass without failures

  /** What a process looks like after a pass in which nothing failed: replica counts are right, and
      at version 0 or after a rollout every application is provided or refused. */
  ghost predicate Achieved(e: Env, cfg: Config, sp: SiddhiProcess, rolled: bool, apps: seq<Application>, s: Store) {
    && Named(sp.name, apps)
    && AllScaled(apps, |apps|, s)
    && (rolled ==> AllHandled(e, cfg, Core(sp), apps, |apps|, s))
  }

  lemma RolloutsAchieve(e: Env, cfg: Config, event: OperationResult, c: Ctl, apps: seq<Application>)
    requires NoFaults(e) && Named(c.sp.name, apps) && c.sp.status.current >= 0
    ensures event != Unchanged ==>
              AllHandled(e, cfg, Core(c.sp), apps, |apps|, Rollouts(e, cfg, event, c, apps).kube.store)
    ensures event == Unchanged || AllHandled(e, cfg, Core(c.sp), apps, |apps|, c.kube.store) ==>
              Rollouts(e, cfg, event, c, apps).kube.store == c.kube.store
  {
    var c1 := ReportPartialApps(e, c, apps);
    if event != Unchanged {
      RolloutRefinesAttempts(e, cfg, event, c1, apps, |apps|);
      assert Core(c1.sp) == Core(c.sp);
      AttemptAllHandles(e, cfg, Core(c.sp), apps, |apps|, c.kube.store);
      if AllHandled(e, cfg, Core(c.sp), apps, |apps|, c.kube.store) {
        AttemptAllFixed(e, cfg, Core(c.sp), apps, |apps|, c.kube.store);
      }
    }
  }

  lemma AppliedAchieves(e: Env, w: World, cfg: Config, c: Ctl, apps: seq<Application>)
    requires NoFaults(e) && Named(c.sp.name, apps) && c.sp.status.current >= 0
    ensures var r := AppsApplied(e, w, cfg, c, apps);
            r.outcome == Completed ==>
              Achieved(e, cfg, c.sp, EventOf(c.sp.status) != Unchanged, apps, r.world.kube.store)
  {
    var event := EventOf(c.sp.status);
    var c0 := c.(kube := if NeedsMessaging(c.sp.spec, apps) then Tick(c.kube) else c.kube);
    RolloutsAchieve(e, cfg, event, c0, apps);
    ArtifactsCreatedTraced(e, cfg, c0, apps);
    var c1 := ArtifactsCreated(e, cfg, c0, apps);
    RescaledUpToScales(e, c1, apps, |apps|);
    var c2 := DeploymentsChecked(e, c1, apps);
    assert c1.kube.store == Rollouts(e, cfg, event, c0, apps).kube.store;
    if event != Unchanged {
      forall i | 0 <= i < |apps| ensures Handled(e, cfg, Core(c.sp), apps[i], c2.kube.store) {
        OnlyScaledHandled(e, cfg, Core(c.sp), apps[i], c1.kube.store, c2.kube.store);
      }
    }
  }

  lemma AppliedFixed(e: Env, w: World, cfg: Config, c: Ctl, apps: seq<Application>)
    requires NoFaults(e) && c.sp.status.current >= 0
    requires Achieved(e, cfg, c.sp, EventOf(c.sp.status) != Unchanged, apps, c.kube.store)
    ensures AppsApplied(e, w, cfg, c, apps).world.kube.store == c.kube.store
    ensures AppsApplied(e, w, cfg, c, apps).world.apps == w.apps
  {
    var event := EventOf(c.sp.status);
    var c0 := c.(kube := if NeedsMessaging(c.sp.spec, apps) then Tick(c.kube) else c.kube);
    RolloutsAchieve(e, cfg, event, c0, apps);
    var c1 := ArtifactsCreated(e, cfg, c0, apps);
    assert c1.kube.store == c.kube.store;
    RescaledUpToFixed(e, c1, apps, |apps|);
  }

  lemma ConcludedAchieves(e: Env, w: World, listeners: map<string, Listener>, cfg: Config, c: Ctl)
    requires NoFaults(e) && CacheNamed(w.apps, c.sp.name)
    requires c.sp.status.current >= 0 && c.sp.status.previous >= 0
    ensures var r := Concluded(e, w, listeners, cfg, c);
            r.outcome == Completed ==>
              c.sp.name in r.world.apps
              && Achieved(e, cfg, c.sp, EventOf(c.sp.status) != Unchanged, r.world.apps[c.sp.name], r.world.kube.store)
  {
    var pop := AppsPopulated(e, cfg, c, w.apps);
    var _, _ := PopulatedTraced(e, cfg, c, w.apps);
    if pop.apps.Some? {
      var w1 := CachesPopulated(w, listeners, cfg, c.sp, pop);
      AppliedCaches(e, w1, cfg, pop.ctl, pop.apps.value);
      AppliedAchieves(e, w1, cfg, pop.ctl, pop.apps.value);
      assert w1.apps[c.sp.name] == pop.apps.value;
    }
  }

  lemma ConcludedFixed(e: Env, w: World, listeners: map<string, Listener>, cfg: Config, c: Ctl)
    requires NoFaults(e) && c.sp.status.current >= 0
    requires c.sp.name in w.apps && !Modified(c.sp.status)
    requires Achieved(e, cfg, c.sp, EventOf(c.sp.status) != Unchanged, w.apps[c.sp.name], c.kube.store)
    ensures var r := Concluded(e, w, listeners, cfg, c);
            r.world.kube.store == c.kube.store && r.world.apps == w.apps
  {
    var pop := AppsPopulated(e, cfg, c, w.apps);
    AppliedFixed(e, CachesPopulated(w, listeners, cfg, c.sp, pop), cfg, pop.ctl, pop.apps.value);
  }

  lemma AdvancedAchieves(e: Env, w: World, cfg: Config, sp: SiddhiProcess, upgrade: bool)
    requires NoFaults(e) && CacheNamed(w.apps, sp.name) && VersionsOrdered(sp.status)
    ensures var r := Advanced(e, w, cfg, sp, upgrade);
            var sp' := sp.(status := sp.status.(current := VersionOf(sp, upgrade)));
            r.outcome == Completed ==>
              sp.name in r.world.apps
              && Achieved(e, cfg, sp', EventOf(sp'.status) != Unchanged, r.world.apps[sp.name], r.world.kube.store)
  {
    PreparedKeeps(e, w, cfg, sp, upgrade);
    var g, d := AllAppsRead(e, w, Opened(e, w, sp, upgrade)), Prepared(e, w, cfg, sp, upgrade);
    if !g.err {
      ConcludedAchieves(e, w, g.listeners, cfg, d);
      assert Core(d.sp) == Core(sp.(status := sp.status.(current := VersionOf(sp, upgrade))));
    }
  }

  lemma AdvancedFixed(e: Env, w: World, cfg: Config, sp: SiddhiProcess)
    requires NoFaults(e) && sp.status.current >= 0
    requires sp.name in w.apps && !Modified(sp.status)
    requires Achieved(e, cfg, sp, EventOf(sp.status) != Unchanged, w.apps[sp.name], w.kube.store)
    ensures var r := Advanced(e, w, cfg, sp, false);
            r.world.kube.store == w.kube.store && r.world.apps == w.apps
  {
    PreparedKeeps(e, w, cfg, sp, false);
    var g, d := AllAppsRead(e, w, Opened(e, w, sp, false)), Prepared(e, w, cfg, sp, false);
    if !g.err {
      assert Core(d.sp) == Core(sp);
      ConcludedFixed(e, w, g.listeners, cfg, d);
    }
  }

  /** After a rollout in which nothing failed or was refused, the deployments of the process are exactly
      those of its applications, one for each index, whatever was there before and whatever has failed
      before.  A refused application leaves its claim at most (`RefusedLeaves`). */
  lemma RolloutExact(e: Env, w: World, request: string, cfg: Config, i: nat)
    requires Calm(e, w.kube.calls, Reconcile(e, w, request, cfg).world.kube.calls)
    requires Consistent(w) && NoOrphans(w) && Reaches(e, w, request)
    requires Deployable(e, Reached(e, w, request).spec)
    requires Reconcile(e, w, request, cfg).outcome == Completed
    requires var sp := Reached(e, w, request);
             sp.status.current == 0 || Modified(sp.status) || ForConfigMap(e, w, request)
    ensures var w', p := Reconcile(e, w, request, cfg).world, Target(e, w, request);
            AppName(p, i) in w'.kube.store.deployments <==> i < Len(w'.apps, p)
  {
    var lo, hi := w.kube.calls, Reconcile(e, w, request, cfg).world.kube.calls;
    var e' := Only(e, lo, hi);
    OnlyAgrees(e, lo, hi);
    ReconcileLocal(e, e', hi, w, request, cfg);
    ReachLocal(e, e', hi, w, request);
    FaultlessRolloutExact(e', w, request, cfg, i);
  }

  lemma FaultlessRolloutExact(e: Env, w: World, request: string, cfg: Config, i: nat)
    requires NoFaults(e) && Consistent(w) && NoOrphans(w) && Reaches(e, w, request)
    requires Deployable(e, Reached(e, w, request).spec)
    requires Reconcile(e, w, request, cfg).outcome == Completed
    requires var sp := Reached(e, w, request);
             sp.status.current == 0 || Modified(sp.status) || ForConfigMap(e, w, request)
    ensures var w', p := Reconcile(e, w, request, cfg).world, Target(e, w, request);
            AppName(p, i) in w'.kube.store.deployments <==> i < Len(w'.apps, p)
  {
    var w', p := Reconcile(e, w, request, cfg).world, Target(e, w, request);
    if i < Len(w'.apps, p) {
      RolloutProvides(e, w, request, cfg, i);
    } else {
      RolloutSweeps(e, w, request, cfg, i);
    }
  }

  lemma RolloutSweeps(e: Env, w: World, request: string, cfg: Config, i: nat)
    requires NoFaults(e) && Consistent(w) && NoOrphans(w)
    ensures var w', p := Reconcile(e, w, request, cfg).world, Target(e, w, request);
            i >= Len(w'.apps, p) ==> Absent(p, i, w'.kube.store)
  {
    SeeingStepSweeps(e, w, ReconcileRequest(request, cfg));
    NextNoOrphansIff(e, w, ReconcileRequest(request, cfg));
    var w', p := Next(e, w, ReconcileRequest(request, cfg)), Target(e, w, request);
    assert Bounded(p, Len(w'.apps, p), w'.kube.store);
  }

  lemma RolloutProvides(e: Env, w: World, request: string, cfg: Config, i: nat)
    requires NoFaults(e) && Consistent(w) && Reaches(e, w, request)
    requires Deployable(e, Reached(e, w, request).spec)
    requires Reconcile(e, w, request, cfg).outcome == Completed
    requires var sp := Reached(e, w, request);
             sp.status.current == 0 || Modified(sp.status) || ForConfigMap(e, w, request)
    ensures var w', p := Reconcile(e, w, request, cfg).world, Target(e, w, request);
            i < Len(w'.apps, p) ==> AppName(p, i) in w'.kube.store.deployments
  {
    var w', p := Reconcile(e, w, request, cfg).world, Target(e, w, request);
    var sp, upgrade, v := Reached(e, w, request), ForConfigMap(e, w, request), Entered(w);
    ReconcileCases(e, w, request, cfg);
    AdvancedAchieves(e, v, cfg, sp, upgrade);
    if i < Len(w'.apps, p) {
      var core := Core(sp.(status := sp.status.(current := VersionOf(sp, upgrade))));
      HandledDeployable(e, cfg, core, w'.apps[p][i], w'.kube.store);
    }
  }

  lemma HandledDeployable(e: Env, cfg: Config, sp: SiddhiProcess, a: Application, s: Store)
    requires Deployable(e, sp.spec) && Handled(e, cfg, sp, a, s)
    ensures a.name in s.deployments
  {
  }

  /** What has been achieved for a process still holds once its version has been synchronised. */
  lemma AchievedAfter(e: Env, cfg: Config, sp: SiddhiProcess, sp': SiddhiProcess, apps: seq<Application>, s: Store)
    requires sp' == sp.(status := sp'.status) && sp'.status.current == sp'.status.previous == sp.status.current
    requires Achieved(e, cfg, sp, EventOf(sp.status) != Unchanged, apps, s)
    ensures Achieved(e, cfg, sp', EventOf(sp'.status) != Unchanged, apps, s)
  {
  }

  /** The world after a completed pass in which nothing failed. */
  lemma CompletedAchieves(e: Env, w: World, cfg: Config, sp: SiddhiProcess, upgrade: bool)
    requires NoFaults(e) && Consistent(w) && sp.name in w.kube.crs && w.kube.crs[sp.name] == sp
    requires Found(e, w, cfg, sp, upgrade).outcome == Completed
    ensures var w' := Found(e, w, cfg, sp, upgrade).world;
            && Consistent(w') && sp.name in w'.kube.crs && sp.name in w'.apps
            && var sp' := w'.kube.crs[sp.name];
               && sp'.spec == sp.spec && !Modified(sp'.status)
               && Achieved(e, cfg, sp', EventOf(sp'.status) != Unchanged, w'.apps[sp.name], w'.kube.store)
  {
    FoundConsistent(e, w, cfg, sp, upgrade);
    AdvancedStatus(e, w, cfg, sp, upgrade);
    AdvancedBounds(e, w, cfg, sp, upgrade);
    NothingLost(e, w, cfg, sp, upgrade);
    AdvancedAchieves(e, w, cfg, sp, upgrade);
    var w' := Found(e, w, cfg, sp, upgrade).world;
    AchievedAfter(e, cfg, sp.(status := sp.status.(current := VersionOf(sp, upgrade))), w'.kube.crs[sp.name],
                  w'.apps[sp.name], w'.kube.store);
  }

  /** Reconcile is a fixed point: after a completed pass, a second pass for the same process with
      the same settings and no event in between changes no deployment, service, config map, claim
      or ingress and keeps the cached applications, at version 0 as well as above, if no call of the two
      passes fails. */
  lemma ReconcileFixedPoint(e: Env, w: World, request: string, cfg: Config)
    requires Consistent(w) && Reaches(e, w, request) && Reconcile(e, w, request, cfg).outcome == Completed
    requires !IsConfigMap(Reconcile(e, w, request, cfg).world, Target(e, w, request))
    requires var w1, p := Reconcile(e, w, request, cfg).world, Target(e, w, request);
             Calm(e, w.kube.calls, Reconcile(e, w1, p, cfg).world.kube.calls)
    ensures var w1, p := Reconcile(e, w, request, cfg).world, Target(e, w, request);
            var w2 := Reconcile(e, w1, p, cfg).world;
            w2.kube.store == w1.kube.store && w2.apps == w1.apps
  {
    var w1, p := Reconcile(e, w, request, cfg).world, Target(e, w, request);
    var lo, hi := w.kube.calls, Reconcile(e, w1, p, cfg).world.kube.calls;
    var e' := Only(e, lo, hi);
    OnlyAgrees(e, lo, hi);
    ReconcileLocal(e, e', hi, w1, p, cfg);
    ReconcileLocal(e, e', hi, w, request, cfg);
    AgreeLater(e, e', lo, w1.kube.calls, hi);
    ReachLocal(e, e', hi, w, request);
    FirstPassAchieves(e', w, request, cfg);
    SecondPassKeeps(e', w1, p, cfg);
  }

  /** What a completed pass without failures leaves for the next one. */
  ghost predicate Done(e: Env, cfg: Config, w: World, p: string) {
    && p in w.kube.crs && p in w.apps && VersionsOrdered(w.kube.crs[p].status) && w.kube.crs[p].name == p
    && var sp := w.kube.crs[p];
       !Modified(sp.status) && Achieved(e, cfg, sp, EventOf(sp.status) != Unchanged, w.apps[p], w.kube.store)
  }

  lemma FirstPassAchieves(e: Env, w: World, request: string, cfg: Config)
    requires NoFaults(e) && Consistent(w) && Reaches(e, w, request)
    requires Reconcile(e, w, request, cfg).outcome == Completed
    ensures Done(e, cfg, Reconcile(e, w, request, cfg).world, Target(e, w, request))
  {
    ReconcileCases(e, w, request, cfg);
    CompletedAchieves(e, Entered(w), cfg, Reached(e, w, request), ForConfigMap(e, w, request));
  }

  lemma SecondPassKeeps(e: Env, w: World, p: string, cfg: Config)
    requires NoFaults(e) && Done(e, cfg, w, p) && !IsConfigMap(w, p)
    ensures var w' := Reconcile(e, w, p, cfg).world; w'.kube.store == w.kube.store && w'.apps == w.apps
  {
    ReconcileCases(e, w, p, cfg);
    SecondPassFixed(e, Entered(w), cfg, Reached(e, w, p));
  }

  lemma SecondPassFixed(e: Env, w: World, cfg: Config, sp: SiddhiProcess)
    requires NoFaults(e) && VersionsOrdered(sp.status)
    requires sp.name in w.apps && !Modified(sp.status)
    requires Achieved(e, cfg, sp, EventOf(sp.status) != Unchanged, w.apps[sp.name], w.kube.store)
    ensures var r := Found(e, w, cfg, sp, false);
            r.world.kube.store == w.kube.store && r.world.apps == w.apps
  {
    if TimerPass(w, sp) {
      TimerKeeps(e, w, cfg, sp, false);
    } else {
      AdvancedFixed(e, w, cfg, sp);
    }
  }
}
