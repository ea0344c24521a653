/** No orphans: what a process has in the cluster belongs to its cached applications. */
module Orphans {
  import opened SiddhiTypes
  import opened Cluster
  import opened Deployments
  import opened Controller
  import opened ParserLifecycle
  import opened Operator
  import opened Moves
  import opened Conformance
  import opened Isolation
  import opened Removals
  import opened Passes
  import opened Runs
  import opened Safety

  /** The removals of the pass, if it parses anew and then cleans without an error, see all that there is
      to remove. */
  predicate CleansAll(e: Env, cfg: Config, c: Ctl, cache: map<string, seq<Application>>) {
    var r, oldLen := ProcessParsed(e, cfg, c.kube, c.sp), Len(cache, c.sp.name);
    Modified(c.sp.status) && r.apps.Some? && !ArtifactsCleaned(e, c.(kube := r.kube), oldLen, |r.apps.value|).err ==>
      SeesAllUpTo(e, c.(kube := r.kube), |r.apps.value|, oldLen)
  }

  lemma CleaningBoundedIff(e: Env, c: Ctl, lo: nat, hi: nat)
    requires Bounded(c.sp.name, hi, c.kube.store)
    ensures var r := ArtifactsCleaned(e, c, hi, lo);
            && Bounded(c.sp.name, hi, r.ctl.kube.store)
            && (!r.err && lo <= hi ==> (Bounded(c.sp.name, lo, r.ctl.kube.store) <==> SeesAllUpTo(e, c, lo, hi)))
            && (lo > hi ==> Bounded(c.sp.name, lo, r.ctl.kube.store) && SeesAllUpTo(e, c, lo, hi))
  {
    var r := CleaningAbsentIff(e, c, lo, hi);
    BoundedByParts(c.sp.name, lo, hi, c.kube.store, r.ctl.kube.store);
  }

  lemma BoundedByParts(p: string, lo: nat, hi: nat, s: Store, t: Store)
    requires Bounded(p, hi, s) && SameOutside(p, lo, hi, s, t)
    ensures Bounded(p, hi, t)
    ensures if lo <= hi then Bounded(p, lo, t) <==> AbsentFrom(p, lo, hi, t) else Bounded(p, lo, t)
  {
    forall i: nat | i >= hi ensures Absent(p, i, t) {
      assert Absent(p, i, s);
    }
    if lo <= hi && AbsentFrom(p, lo, hi, t) {
      forall i: nat | i >= lo ensures Absent(p, i, t) {
      }
    }
  }

  /** Once the applications are known, everything of the process is within the new bound exactly when the
      removals have seen everything; until then it is within the old one. */
  lemma PopulatedBoundedIff(e: Env, cfg: Config, c: Ctl, cache: map<string, seq<Application>>)
    requires CacheNamed(cache, c.sp.name) && c.sp.status.previous >= 0
    requires Bounded(c.sp.name, Len(cache, c.sp.name), c.kube.store)
    ensures var pop := AppsPopulated(e, cfg, c, cache);
            if pop.apps.None? then Bounded(c.sp.name, Len(cache, c.sp.name), pop.ctl.kube.store)
            else Bounded(c.sp.name, |pop.apps.value|, pop.ctl.kube.store) <==> CleansAll(e, cfg, c, cache)
  {
    var p, oldLen, r := c.sp.name, Len(cache, c.sp.name), ProcessParsed(e, cfg, c.kube, c.sp);
    ProcessParsedTraced(e, cfg, c.kube, c.sp);
    TraceBounded(p, Parsing, c.kube, r.kube, oldLen);
    if r.apps.Some? {
      CleaningBoundedIff(e, c.(kube := r.kube), |r.apps.value|, oldLen);
      assert oldLen == 0 ==> Bounded(p, |r.apps.value|, r.kube.store);
    }
  }

  /** A rollout neither adds to nor takes from what is beyond its applications. */
  lemma AppliedBoundedIff(e: Env, w: World, cfg: Config, c: Ctl, apps: seq<Application>)
    requires Named(c.sp.name, apps) && c.sp.status.current >= 0
    ensures var r := AppsApplied(e, w, cfg, c, apps).world;
            r.apps == w.apps && (Bounded(c.sp.name, |apps|, r.kube.store) <==> Bounded(c.sp.name, |apps|, c.kube.store))
  {
    var p, n, pass := c.sp.name, |apps|, Rolling(|apps|, c.sp.status.current);
    var k := AppsApplied(e, w, cfg, c, apps).world.kube;
    AppliedTraced(e, w, cfg, c, apps);
    if Bounded(p, n, c.kube.store) {
      TraceBounded(p, pass, c.kube, k, n);
    }
    if Bounded(p, n, k.store) {
      forall i: nat | i >= n ensures Absent(p, i, c.kube.store) {
        RolloutKeepsApps(p, n, c.sp.status.current, c.kube, k, i);
      }
    }
  }

  /** The pass either keeps the cached applications or cleans all that it no longer caches. */
  predicate Sweeps(e: Env, cfg: Config, c: Ctl, cache: map<string, seq<Application>>) {
    AppsPopulated(e, cfg, c, cache).apps.Some? ==> CleansAll(e, cfg, c, cache)
  }

  lemma ConcludedBoundedIff(e: Env, w: World, listeners: map<string, Listener>, cfg: Config, c: Ctl)
    requires CacheNamed(w.apps, c.sp.name) && c.sp.status.previous >= 0 && c.sp.status.current >= 0
    requires Bounded(c.sp.name, Len(w.apps, c.sp.name), c.kube.store)
    ensures var r := Concluded(e, w, listeners, cfg, c).world;
            Bounded(c.sp.name, Len(r.apps, c.sp.name), r.kube.store) <==> Sweeps(e, cfg, c, w.apps)
  {
    PopulatedBoundedIff(e, cfg, c, w.apps);
    PopulatedLen(e, w, listeners, cfg, c);
    var pop := AppsPopulated(e, cfg, c, w.apps);
    if pop.apps.Some? {
      var _, _ := PopulatedTraced(e, cfg, c, w.apps);
      AppliedBoundedIff(e, CachesPopulated(w, listeners, cfg, c.sp, pop), cfg, pop.ctl, pop.apps.value);
    }
  }

  /** The pass gives up before its applications are known, or sweeps. */
  predicate PassSweeps(e: Env, w: World, cfg: Config, sp: SiddhiProcess, upgrade: bool) {
    AllAppsRead(e, w, Opened(e, w, sp, upgrade)).err || Sweeps(e, cfg, Prepared(e, w, cfg, sp, upgrade), w.apps)
  }

  /** What the process has after a pass is within the bound that its cache states exactly when the pass
      sweeps. */
  lemma AdvancedBoundedIff(e: Env, w: World, cfg: Config, sp: SiddhiProcess, upgrade: bool)
    requires CacheNamed(w.apps, sp.name) && 0 <= sp.status.previous && 0 <= sp.status.current
    requires Bounded(sp.name, Len(w.apps, sp.name), w.kube.store)
    ensures var r := Advanced(e, w, cfg, sp, upgrade).world;
            Bounded(sp.name, Len(r.apps, sp.name), r.kube.store) <==> PassSweeps(e, w, cfg, sp, upgrade)
  {
    PreparedKeeps(e, w, cfg, sp, upgrade);
    var g := AllAppsRead(e, w, Opened(e, w, sp, upgrade));
    if !g.err {
      ConcludedBoundedIff(e, w, g.listeners, cfg, Prepared(e, w, cfg, sp, upgrade));
    }
  }

  /** The deployments, services and claims of every process belong to its cached applications. */
  ghost predicate NoOrphans(w: World) {
    Owned(w.kube.store) && forall p :: Bounded(p, Len(w.apps, p), w.kube.store)
  }

  /** The step is no pass that leaves something behind. */
  predicate StepSweeps(e: Env, w: World, step: Step) {
    step.ReconcileRequest? && Reaches(e, w, step.name) && !TimerPass(Entered(w), Reached(e, w, step.name)) ==>
      PassSweeps(e, Entered(w), step.cfg, Reached(e, w, step.name), ForConfigMap(e, w, step.name))
  }

  lemma OtherBounded(e: Env, w: World, request: string, cfg: Config, q: string)
    requires Consistent(w) && NoOrphans(w) && Reaches(e, w, request) && q != Target(e, w, request)
    ensures var w' := Reconcile(e, w, request, cfg).world; Bounded(q, Len(w'.apps, q), w'.kube.store)
  {
    var sp, upgrade, v := Reached(e, w, request), ForConfigMap(e, w, request), Entered(w);
    var w' := Reconcile(e, w, request, cfg).world;
    ReconcileCases(e, w, request, cfg);
    if TimerPass(v, sp) {
      TimerKeeps(e, v, cfg, sp, upgrade);
    } else {
      var _ := AdvancedCaches(e, v, cfg, sp, upgrade);
    }
    ReconcileIsolated(e, w, request, cfg);
    assert History(w'.kube)[|w'.kube.past|] == w'.kube.store;
    UntouchedBounded(sp.name, q, Len(w.apps, q), w.kube.store, w'.kube.store);
  }

  lemma TargetBoundedIff(e: Env, w: World, step: Step)
    requires Consistent(w) && NoOrphans(w) && step.ReconcileRequest? && Reaches(e, w, step.name)
    ensures var w', p := Next(e, w, step), Target(e, w, step.name);
            Bounded(p, Len(w'.apps, p), w'.kube.store) <==> StepSweeps(e, w, step)
  {
    var sp, upgrade, v := Reached(e, w, step.name), ForConfigMap(e, w, step.name), Entered(w);
    ReconcileCases(e, w, step.name, step.cfg);
    assert Bounded(sp.name, Len(w.apps, sp.name), w.kube.store);
    if TimerPass(v, sp) {
      TimerKeeps(e, v, step.cfg, sp, upgrade);
    } else {
      AdvancedBoundedIff(e, v, step.cfg, sp, upgrade);
    }
  }

  lemma EventBounded(w: World, step: Step, p: string)
    requires NoOrphans(w) && !step.ReconcileRequest?
    ensures var w' := Event(w, step); Bounded(p, Len(w'.apps, p), w'.kube.store)
  {
    assert Bounded(p, Len(w.apps, p), w.kube.store);
    if step.DeleteProcess? {
      GarbageOwned(w.kube.store, step.name);
      SameNamesBounded(p, Len(w.apps, p), w.kube.store, CollectGarbage(w.kube.store, step.name));
    } else {
      SameNamesBounded(p, Len(w.apps, p), w.kube.store, Event(w, step).kube.store);
    }
  }

  /** From a world without orphans a step leads to one exactly when it sweeps. */
  lemma NextNoOrphansIff(e: Env, w: World, step: Step)
    requires Consistent(w) && NoOrphans(w)
    ensures NoOrphans(Next(e, w, step)) <==> StepSweeps(e, w, step)
  {
    var w' := Next(e, w, step);
    if step.ReconcileRequest? {
      ReconcileOwned(e, w, step.name, step.cfg);
      if Reaches(e, w, step.name) {
        TargetBoundedIff(e, w, step);
        forall q | q != Target(e, w, step.name) ensures Bounded(q, Len(w'.apps, q), w'.kube.store) {
          OtherBounded(e, w, step.name, step.cfg, q);
        }
      } else {
        ReconcileCases(e, w, step.name, step.cfg);
        forall q ensures Bounded(q, Len(w'.apps, q), w'.kube.store) {
          assert Bounded(q, Len(w.apps, q), w.kube.store);
        }
      }
    } else {
      EventOwned(w, step);
      forall p ensures Bounded(p, Len(w'.apps, p), w'.kube.store) {
        EventBounded(w, step, p);
      }
    }
  }

  /** No process has had an orphan in any state between two steps of the run. */
  ghost predicate NeverOrphans(e: Env, steps: seq<Step>)
    decreases |steps|
  {
    NoOrphans(Run(e, steps)) && (steps == [] || NeverOrphans(e, steps[..|steps| - 1]))
  }

  /** Every step of the run sweeps. */
  predicate RunSweeps(e: Env, steps: seq<Step>)
    decreases |steps|
  {
    || steps == []
    || (RunSweeps(e, steps[..|steps| - 1]) && StepSweeps(e, Run(e, steps[..|steps| - 1]), steps[|steps| - 1]))
  }

  /** No orphans: in a run, whatever fails in it, no process ever has a deployment, service or claim beyond
      its cached applications exactly when every cleaning pass that reports success has seen all that it
      had to remove. */
  lemma {:induction false} RunNoOrphansIff(e: Env, steps: seq<Step>)
    ensures NeverOrphans(e, steps) <==> RunSweeps(e, steps)
    decreases |steps|
  {
    if steps != [] {
      var init := steps[..|steps| - 1];
      RunNoOrphansIff(e, init);
      if NeverOrphans(e, init) {
        RunConsistent(e, init);
        NextNoOrphansIff(e, Run(e, init), steps[|steps| - 1]);
      }
    }
  }

  /** While lookups before deletions succeed, every run sweeps, however often parsing, cleaning, writing or
      reporting fails. */
  lemma {:induction false} SeeingRunSweeps(e: Env, steps: seq<Step>)
    requires e.failedLookups == {}
    ensures RunSweeps(e, steps)
    decreases |steps|
  {
    if steps != [] {
      SeeingRunSweeps(e, steps[..|steps| - 1]);
      SeeingStepSweeps(e, Run(e, steps[..|steps| - 1]), steps[|steps| - 1]);
    }
  }

  lemma SeeingStepSweeps(e: Env, w: World, step: Step)
    requires e.failedLookups == {}
    ensures StepSweeps(e, w, step)
  {
    if step.ReconcileRequest? && Reaches(e, w, step.name) {
      var v := Entered(w);
      var d := Prepared(e, v, step.cfg, Reached(e, w, step.name), ForConfigMap(e, w, step.name));
      var r := ProcessParsed(e, step.cfg, d.kube, d.sp);
      if r.apps.Some? {
        SeesWithoutFaults(e, d.(kube := r.kube), |r.apps.value|, Len(v.apps, d.sp.name));
      }
    }
  }
}
