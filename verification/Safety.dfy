/** Isolation of processes in every run, and who owns what. */
module Safety {
  import opened SiddhiTypes
  import opened Names
  import opened Cluster
  import opened Deployments
  import opened Controller
  import opened Operator
  import opened Conformance
  import opened Isolation
  import opened StatusFlow
  import opened Passes
  import opened Runs

  /** Everything a pass does to the cluster, with its three phases. */
  lemma FoundTraced(e: Env, w: World, cfg: Config, sp: SiddhiProcess, upgrade: bool)
    returns (parsed: Kube, cleaned: Kube, n: nat, version: nat)
    requires Consistent(w) && sp.name in w.kube.crs && w.kube.crs[sp.name] == sp
    ensures var r := Found(e, w, cfg, sp, upgrade);
            && PassTrace(sp.name, sp.status.previous, Len(w.apps, sp.name), n, version, w.kube, parsed, cleaned,
                         r.world.kube)
            && version == VersionOf(sp, upgrade)
  {
    if TimerPass(w, sp) {
      TimerKeeps(e, w, cfg, sp, upgrade);
      parsed, cleaned, n, version := w.kube, w.kube, 0, VersionOf(sp, upgrade);
    } else {
      parsed, cleaned, n, version := AdvancedTraced(e, w, cfg, sp, upgrade);
    }
  }

  /** Isolation: whatever calls fail, in every state that a reconcile request leads the cluster
      through, the artifacts of all other processes are as they were before. */
  lemma ReconcileIsolated(e: Env, w: World, request: string, cfg: Config)
    requires Consistent(w)
    ensures var h := History(Reconcile(e, w, request, cfg).world.kube);
            && History(w.kube) <= h
            && forall i :: |w.kube.past| <= i < |h| ==> Untouched(Target(e, w, request), w.kube.store, h[i])
  {
    ReconcileCases(e, w, request, cfg);
    if Reaches(e, w, request) {
      var sp, upgrade := Reached(e, w, request), ForConfigMap(e, w, request);
      var parsed, cleaned, n, version := FoundTraced(e, Entered(w), cfg, sp, upgrade);
      PassUntouched(sp.name, sp.status.previous, Len(w.apps, sp.name), n, version, Entered(w).kube, parsed, cleaned,
                    PassOf(e, w, request, cfg).world.kube);
    }
  }

  /** The application config maps of another process are out of reach in particular, whatever the
      names of the two processes; only a runner configuration can be shared, and only as stated. */
  lemma UntouchedMeans(p: string, q: string, i: nat, v: nat, s: Store, t: Store)
    requires Untouched(p, s, t) && p != q
    ensures SameAt(s.deployments, t.deployments, AppName(q, i)) && SameAt(s.services, t.services, AppName(q, i))
    ensures SameAt(s.claims, t.claims, ClaimName(AppName(q, i)))
    ensures SameAt(s.configMaps, t.configMaps, AppsConfigName(AppName(q, i), v))
    ensures SameAt(s.deployments, t.deployments, ParserName(q))
    ensures Apart(p, q) ==> SameAt(s.configMaps, t.configMaps, RunnerConfigName(q))
                            && SameAt(s.configMaps, t.configMaps, RunnerConfigName(AppName(q, i)))
  {
    var a := AppName(q, i);
    assert IsDeploymentOf(a, q) && IsClaimOf(ClaimName(a), q) && IsAppsConfigOf(AppsConfigName(a, v), q);
    assert IsDeploymentOf(ParserName(q), q) && IsConfigOf(RunnerConfigName(q), q) && IsConfigOf(RunnerConfigName(a), q);
    if IsDeploymentOf(a, p) {
      DeploymentOwnerUnique(a, p, q);
    }
    if IsDeploymentOf(ParserName(q), p) {
      DeploymentOwnerUnique(ParserName(q), p, q);
    }
    if IsClaimOf(ClaimName(a), p) {
      ClaimOwnerUnique(ClaimName(a), p, q);
    }
    if IsConfigOf(AppsConfigName(a, v), p) {
      AppsConfigOwnerUnique(AppsConfigName(a, v), q, p);
    }
    if Apart(p, q) && IsConfigOf(RunnerConfigName(q), p) {
      ConfigOwnerUnique(RunnerConfigName(q), p, q);
    }
    if Apart(p, q) && IsConfigOf(RunnerConfigName(a), p) {
      ConfigOwnerUnique(RunnerConfigName(a), p, q);
    }
  }

  /** A rollout of one version, in whatever state it is interrupted or fails, has overwritten no
      config map of Siddhi files of a version that differs modulo ten, so none that a deployment of
      the preceding version mounts. */
  lemma RolloutOverwritesNothing(e: Env, cfg: Config, c: Ctl, apps: seq<Application>, q: string, j: nat, w: nat)
    requires Named(c.sp.name, apps) && c.sp.status.current >= 0 && w % 10 != c.sp.status.current % 10
    ensures var h := History(DeploymentsChecked(e, ArtifactsCreated(e, cfg, c, apps), apps).kube);
            forall i :: |c.kube.past| <= i < |h| ==>
              SameAt(c.kube.store.configMaps, h[i].configMaps, AppsConfigName(AppName(q, j), w))
  {
    RolloutTraced(e, cfg, c, apps);
    RolloutSparesOtherVersions(c.sp.name, |apps|, c.sp.status.current, c.kube,
                               DeploymentsChecked(e, ArtifactsCreated(e, cfg, c, apps), apps).kube, q, j, w);
  }

  // ---------------------------------------------------------------- ownership

  lemma GarbageOwned(s: Store, p: string)
    requires Owned(s)
    ensures Owned(CollectGarbage(s, p)) && Bounded(p, 0, CollectGarbage(s, p)) && ParserGone(p, CollectGarbage(s, p))
  {
    var t := CollectGarbage(s, p);
    forall i: nat ensures Absent(p, i, t) {
      var a := AppName(p, i);
      assert IsDeploymentOf(a, p) && IsClaimOf(ClaimName(a), p);
      if a in t.deployments {
        DeploymentOwnerUnique(a, p, s.deployments[a].owner);
      }
      if a in t.services {
        DeploymentOwnerUnique(a, p, s.services[a].owner);
      }
      if ClaimName(a) in t.claims {
        ClaimOwnerUnique(ClaimName(a), p, s.claims[ClaimName(a)].owner);
      }
    }
    var n := ParserName(p);
    if n in t.deployments {
      DeploymentOwnerUnique(n, p, s.deployments[n].owner);
    }
    if n in t.services {
      DeploymentOwnerUnique(n, p, s.services[n].owner);
    }
  }

  lemma ReconcileOwned(e: Env, w: World, request: string, cfg: Config)
    requires Consistent(w) && Owned(w.kube.store)
    ensures Owned(Reconcile(e, w, request, cfg).world.kube.store)
  {
    ReconcileCases(e, w, request, cfg);
    if Reaches(e, w, request) {
      var sp, upgrade := Reached(e, w, request), ForConfigMap(e, w, request);
      var parsed, cleaned, n, version := FoundTraced(e, Entered(w), cfg, sp, upgrade);
      PassOwned(sp.name, sp.status.previous, Len(w.apps, sp.name), n, version, Entered(w).kube, parsed, cleaned,
                PassOf(e, w, request, cfg).world.kube);
    }
  }

  lemma EventOwned(w: World, step: Step)
    requires Owned(w.kube.store) && !step.ReconcileRequest?
    ensures Owned(Event(w, step).kube.store)
  {
  }

  // ---------------------------------------------------------------- creation

  ghost predicate EverCreated(steps: seq<Step>, p: string) {
    exists k :: 0 <= k < |steps| && steps[k].CreateProcess? && steps[k].name == p
  }

  lemma {:induction false} RunCreated(e: Env, steps: seq<Step>, p: string)
    requires p in Run(e, steps).kube.crs
    ensures EverCreated(steps, p)
    decreases |steps|
  {
    if steps != [] {
      var init, step := steps[..|steps| - 1], steps[|steps| - 1];
      var w := Run(e, init);
      RunConsistent(e, init);
      if step.ReconcileRequest? {
        ReconcileCases(e, w, step.name, step.cfg);
        if Reaches(e, w, step.name) {
          FoundEvolves(e, Entered(w), step.cfg, Reached(e, w, step.name), ForConfigMap(e, w, step.name));
        }
      }
      if p in w.kube.crs {
        RunCreated(e, init, p);
        var k :| 0 <= k < |init| && init[k].CreateProcess? && init[k].name == p;
        assert steps[k] == init[k];
      } else {
        assert step.CreateProcess? && step.name == p;
      }
    }
  }

  /** No two processes that are ever created are named like applications of each other. */
  ghost predicate NamesApart(steps: seq<Step>) {
    forall p, q | EverCreated(steps, p) && EverCreated(steps, q) && p != q :: Apart(p, q)
  }

  lemma CreatedMonotone(init: seq<Step>, step: Step, p: string)
    requires EverCreated(init, p)
    ensures EverCreated(init + [step], p)
  {
    var k :| 0 <= k < |init| && init[k].CreateProcess? && init[k].name == p;
    assert (init + [step])[k] == init[k];
  }
}
