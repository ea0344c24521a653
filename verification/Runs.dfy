/** Invariants of every run: any order of events and reconcile passes, any failing calls. */
module Runs {
  import opened SiddhiTypes
  import opened Cluster
  import opened Deployments
  import opened Controller
  import opened ParserLifecycle
  import opened Operator
  import opened Conformance
  import opened StatusFlow
  import opened StoredVersions
  import opened Passes

  /** The caches and records of a world are consistent with its custom resources. */
  ghost predicate Consistent(w: World) {
    && (forall p | p in w.kube.crs :: w.kube.crs[p].name == p && VersionsOrdered(w.kube.crs[p].status))
    && (forall p | p in w.apps :: p in w.kube.crs && Named(p, w.apps[p]))
    && w.parsedSpec.Keys == w.apps.Keys
    && w.rollouts.Keys == w.kube.crs.Keys
  }

  ghost predicate VersionsOrdered(s: Status) {
    0 <= s.previous <= s.current
  }

  /** What a pass that is not a timer pass does to caches and records; `parsed` when it replaces
      the cached applications. */
  ghost predicate CachesAfter(w: World, w': World, sp: SiddhiProcess, version: int, outcome: Outcome, parsed: bool) {
    var p := sp.name;
    && (if parsed then
          p in w'.apps && Named(p, w'.apps[p])
          && w'.apps == w.apps[p := w'.apps[p]] && w'.parsedSpec == w.parsedSpec[p := sp.spec]
        else
          w'.apps == w.apps && w'.parsedSpec == w.parsedSpec
          && (outcome == Completed ==> p in w.apps && version <= sp.status.previous))
    && w'.rollouts == if outcome == Completed && version != 0 && version > sp.status.previous && p in w.rollouts then
                        w.rollouts[p := w.rollouts[p] + [version]]
                      else w.rollouts
  }

  lemma AppliedCaches(e: Env, w: World, cfg: Config, c: Ctl, apps: seq<Application>)
    ensures var r, v, p := AppsApplied(e, w, cfg, c, apps), c.sp.status.current, c.sp.name;
            && r.outcome in {MessagingFailed, Completed}
            && r.world.apps == w.apps && r.world.parsedSpec == w.parsedSpec
            && r.world.rollouts ==
               if r.outcome == Completed && v != 0 && v > c.sp.status.previous && p in w.rollouts then
                 w.rollouts[p := w.rollouts[p] + [v]]
               else w.rollouts
  {
  }

  lemma ConcludedCaches(e: Env, w: World, listeners: map<string, Listener>, cfg: Config, c: Ctl) returns (parsed: bool)
    requires Consistent(w) && c.sp.status.previous >= 0
    ensures var r := Concluded(e, w, listeners, cfg, c);
            CachesAfter(w, r.world, c.sp, c.sp.status.current, r.outcome, parsed)
  {
    var pop := AppsPopulated(e, cfg, c, w.apps);
    var _, _ := PopulatedTraced(e, cfg, c, w.apps);
    parsed := pop.parsed && pop.apps.Some?;
    assert pop.ctl.sp == c.sp;
    if pop.apps.Some? {
      AppliedCaches(e, CachesPopulated(w, listeners, cfg, c.sp, pop), cfg, pop.ctl, pop.apps.value);
    }
  }

  lemma AdvancedCaches(e: Env, w: World, cfg: Config, sp: SiddhiProcess, upgrade: bool) returns (parsed: bool)
    requires Consistent(w) && sp.status.previous >= 0
    ensures var r := Advanced(e, w, cfg, sp, upgrade);
            CachesAfter(w, r.world, sp, VersionOf(sp, upgrade), r.outcome, parsed)
  {
    PreparedKeeps(e, w, cfg, sp, upgrade);
    var g, d := AllAppsRead(e, w, Opened(e, w, sp, upgrade)), Prepared(e, w, cfg, sp, upgrade);
    if g.err {
      parsed := false;
    } else {
      parsed := ConcludedCaches(e, w, g.listeners, cfg, d);
    }
  }

  /** Worlds with the same cluster, custom resources and application cache. */
  ghost predicate SameState(w: World, w': World) {
    && w'.kube.crs == w.kube.crs && w'.kube.store == w.kube.store && w'.kube.past == w.kube.past
    && w'.apps == w.apps && w'.parsedSpec == w.parsedSpec && w'.rollouts == w.rollouts
  }

  /** The process that a reconcile request reaches, as the pass reads it. */
  function Reached(e: Env, w: World, request: string): SiddhiProcess
    requires Reaches(e, w, request)
  {
    w.kube.crs[Target(e, w, request)]
  }

  /** The pass of a reconcile request, before the listener of a config map is settled. */
  function PassOf(e: Env, w: World, request: string, cfg: Config): Reconciled
    requires Reaches(e, w, request)
  {
    Found(e, Entered(w), cfg, Reached(e, w, request), ForConfigMap(e, w, request))
  }

  /** The step is a completed pass whose version gets lost. */
  predicate LosesVersion(e: Env, w: World, step: Step) {
    && step.ReconcileRequest? && Reaches(e, w, step.name)
    && !TimerPass(Entered(w), Reached(e, w, step.name))
    && VersionLost(e, Entered(w), step.cfg, Reached(e, w, step.name), ForConfigMap(e, w, step.name))
  }

  /** No step of the run loses a version. */
  ghost predicate NoVersionLost(e: Env, steps: seq<Step>)
    decreases |steps|
  {
    steps == []
    || (NoVersionLost(e, steps[..|steps| - 1]) && !LosesVersion(e, Run(e, steps[..|steps| - 1]), steps[|steps| - 1]))
  }

  lemma StoredLosesNothing(e: Env, w: World, step: Step)
    requires Consistent(w) && (e.failedSyncs == {} || e.failedStatus == {})
    ensures !LosesVersion(e, w, step)
  {
    if step.ReconcileRequest? && Reaches(e, w, step.name) {
      NothingLost(e, Entered(w), step.cfg, Reached(e, w, step.name), ForConfigMap(e, w, step.name));
    }
  }

  lemma ReconcileCases(e: Env, w: World, request: string, cfg: Config)
    ensures SameState(w, Entered(w))
    ensures var r := Reconcile(e, w, request, cfg);
            if Reaches(e, w, request) then
              SameState(PassOf(e, w, request, cfg).world, r.world) && r.outcome == PassOf(e, w, request, cfg).outcome
            else SameState(w, r.world) && r.outcome == NotFound
  {
  }

  /** A timer pass touches the status of its process and nothing else. */
  lemma TimerKeeps(e: Env, w: World, cfg: Config, sp: SiddhiProcess, upgrade: bool)
    requires TimerPass(w, sp)
    ensures var r := Found(e, w, cfg, sp, upgrade).world;
            && r == w.(kube := r.kube) && r.kube.store == w.kube.store && r.kube.past == w.kube.past
  {
    var t := Tallied(e, w.kube, w.apps[sp.name]);
    var c := Ctl(w.kube.(calls := w.kube.calls + |w.apps[sp.name]|), sp);
    assert History(ReportReady(e, c, t.available, t.need).kube) == History(w.kube);
  }

  /** The whole effect of a pass on the records: its process advances, the others stay. */
  lemma FoundEvolves(e: Env, w: World, cfg: Config, sp: SiddhiProcess, upgrade: bool)
    requires sp.name in w.kube.crs && w.kube.crs[sp.name] == sp && VersionsOrdered(sp.status)
    ensures Evolved(sp.name, w.kube.crs, Found(e, w, cfg, sp, upgrade).world.kube.crs)
  {
    if TimerPass(w, sp) {
      TimerStatus(e, Ctl(w.kube, sp), w.apps[sp.name]);
    } else {
      AdvancedStatus(e, w, cfg, sp, upgrade);
    }
  }

  lemma ConsistentAfter(w: World, w': World, sp: SiddhiProcess, version: int, outcome: Outcome, parsed: bool)
    requires Consistent(w) && sp.name in w.kube.crs
    requires Evolved(sp.name, w.kube.crs, w'.kube.crs) && CachesAfter(w, w', sp, version, outcome, parsed)
    ensures Consistent(w')
  {
  }

  lemma FoundConsistent(e: Env, w: World, cfg: Config, sp: SiddhiProcess, upgrade: bool)
    requires Consistent(w) && sp.name in w.kube.crs && w.kube.crs[sp.name] == sp
    ensures Consistent(Found(e, w, cfg, sp, upgrade).world)
  {
    FoundEvolves(e, w, cfg, sp, upgrade);
    var r := Found(e, w, cfg, sp, upgrade);
    if TimerPass(w, sp) {
      TimerKeeps(e, w, cfg, sp, upgrade);
    } else {
      var parsed := AdvancedCaches(e, w, cfg, sp, upgrade);
      ConsistentAfter(w, r.world, sp, VersionOf(sp, upgrade), r.outcome, parsed);
    }
  }

  lemma EventConsistent(w: World, step: Step)
    requires Consistent(w) && !step.ReconcileRequest?
    ensures Consistent(Event(w, step))
  {
  }

  lemma NextConsistent(e: Env, w: World, step: Step)
    requires Consistent(w)
    ensures Consistent(Next(e, w, step))
  {
    if step.ReconcileRequest? {
      ReconcileCases(e, w, step.name, step.cfg);
      if Reaches(e, w, step.name) {
        FoundConsistent(e, Entered(w), step.cfg, Reached(e, w, step.name), ForConfigMap(e, w, step.name));
      }
    } else {
      EventConsistent(w, step);
    }
  }

  lemma {:induction false} RunConsistent(e: Env, steps: seq<Step>)
    ensures Consistent(Run(e, steps))
    decreases |steps|
  {
    if steps != [] {
      RunConsistent(e, steps[..|steps| - 1]);
      NextConsistent(e, Run(e, steps[..|steps| - 1]), steps[|steps| - 1]);
    }
  }
}
