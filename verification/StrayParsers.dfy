/** The temporary parser: when a run leaves one behind. */
module StrayParsers {
  import opened SiddhiTypes
  import opened Names
  import opened AppConfigs
  import opened Cluster
  import opened Deployments
  import opened Controller
  import opened ParserLifecycle
  import opened Operator
  import opened Moves
  import opened Conformance
  import opened Isolation
  import opened Removals
  import opened StatusFlow
  import opened LostUpdates
  import opened StoredVersions
  import opened Passes
  import opened Runs
  import opened Safety

  // ---------------------------------------------------------------- within a pass

  /** The removal of the parser sees the deployment and the service that are there. */
  predicate SeesParser(e: Env, cfg: Config, k: Kube, sp: SiddhiProcess) {
    var k1, n := Tick(ParserDeployed(e, cfg, k, sp)), ParserName(sp.name);
    && (n in k1.store.deployments ==> k1.calls !in e.failedLookups)
    && (n in k1.store.services ==> Delete(e, k1, sp.name, DropDeployment(n)).kube.calls !in e.failedLookups)
  }

  /** After a successful parse the parser is gone exactly when its removal has seen it. */
  lemma ParsedGoneIff(e: Env, cfg: Config, k: Kube, sp: SiddhiProcess)
    requires ProcessParsed(e, cfg, k, sp).apps.Some?
    ensures ParserGone(sp.name, ProcessParsed(e, cfg, k, sp).kube.store) <==> SeesParser(e, cfg, k, sp)
  {
    var k1, n := Tick(ParserDeployed(e, cfg, k, sp)), ParserName(sp.name);
    var d := Delete(e, k1, sp.name, DropDeployment(n));
    DeleteEffect(e, k1, sp.name, DropDeployment(n));
    DeleteEffect(e, d.kube, sp.name, DropService(n));
  }

  /** After a successful parse a parser that has been left behind is one that has not been seen. */
  lemma SeenParserGone(e: Env, cfg: Config, c: Ctl)
    requires ProcessParsed(e, cfg, c.kube, c.sp).apps.Some?
    ensures LeavesParser(e, cfg, c) <==> !SeesParser(e, cfg, c.kube, c.sp)
  {
    ParserLeftIff(e, cfg, c);
    ParsedGoneIff(e, cfg, c.kube, c.sp);
  }

  /** The parser has a deployment when it is asked: there was one before, or its volumes are prepared and
      it is created. */
  predicate StartsDeployment(e: Env, cfg: Config, k: Kube, sp: SiddhiProcess) {
    var s := Stage(e, k, ParserApp(sp.name), sp);
    || ParserName(sp.name) in k.store.deployments
    || (!s.err && s.kube.calls !in e.failedReads && s.kube.calls + 1 !in e.failedWrites)
  }

  /** The same for its service, which is created only when preparing the volumes has not failed. */
  predicate StartsService(e: Env, cfg: Config, k: Kube, sp: SiddhiProcess) {
    var d := Deployed(e, cfg, k, ParserApp(sp.name), sp);
    || ParserName(sp.name) in k.store.services
    || (!d.err && d.kube.calls !in e.failedReads && d.kube.calls + 1 !in e.failedWrites)
  }

  /** The parser answers, and each Siddhi application in the answer has a name. */
  predicate Answered(e: Env, cfg: Config, k: Kube, sp: SiddhiProcess) {
    var n := ParserDeployed(e, cfg, k, sp).calls;
    n in e.replies && Applications(sp.name, e.appNames, e.replies[n]).Some?
  }

  /** There is a deployment, and it is not deleted: no answer, or its lookup or its deletion fails. */
  predicate LeavesDeployment(e: Env, cfg: Config, k: Kube, sp: SiddhiProcess) {
    var k1 := Tick(ParserDeployed(e, cfg, k, sp));
    && StartsDeployment(e, cfg, k, sp)
    && (!Answered(e, cfg, k, sp) || k1.calls in e.failedLookups || k1.calls + 1 in e.failedWrites)
  }

  /** There is a service, and it is not deleted: for one of these reasons, or because deleting the
      deployment has failed before. */
  predicate LeavesService(e: Env, cfg: Config, k: Kube, sp: SiddhiProcess) {
    var d := Delete(e, Tick(ParserDeployed(e, cfg, k, sp)), sp.name, DropDeployment(ParserName(sp.name)));
    && StartsService(e, cfg, k, sp)
    && (!Answered(e, cfg, k, sp) || d.err || d.kube.calls in e.failedLookups || d.kube.calls + 1 in e.failedWrites)
  }

  lemma ConfigMountKeeps(e: Env, k: Kube, a: Application, sp: SiddhiProcess)
    ensures var t := MountRunnerConfig(e, k, a, sp).kube.store;
            t.deployments == k.store.deployments && t.services == k.store.services
  {
  }

  /** The parser mounts nothing but the runner configuration. */
  lemma ParserStage(e: Env, k: Kube, sp: SiddhiProcess)
    ensures var a := ParserApp(sp.name);
            var s, m := Stage(e, k, a, sp), MountRunnerConfig(e, k, a, sp);
            s.kube == m.kube && s.err == m.err
  {
    var a := ParserApp(sp.name);
    assert MountClaim(e, k, a, sp) == Staged(k, false, []);
    var m := MountRunnerConfig(e, k, a, sp);
    assert MountApps(e, m.kube, a, sp) == Staged(m.kube, false, []);
  }

  lemma StartedIff(e: Env, k: Kube, owner: string, eff: Effect)
    requires eff.PutDeployment? || eff.PutService?
    ensures var s := CreateOrUpdate(e, k, owner, eff).kube.store;
            && (Exists(s, eff) <==>
                Exists(k.store, eff) || (k.calls !in e.failedReads && k.calls + 1 !in e.failedWrites))
            && (eff.PutService? ==> s.deployments == k.store.deployments)
            && (eff.PutDeployment? ==> s.services == k.store.services)
  {
  }

  lemma ParserStartedIff(e: Env, cfg: Config, k: Kube, sp: SiddhiProcess)
    ensures var s, n := ParserDeployed(e, cfg, k, sp).store, ParserName(sp.name);
            && (n in s.deployments <==> StartsDeployment(e, cfg, k, sp))
            && (n in s.services <==> StartsService(e, cfg, k, sp))
  {
    var a := ParserApp(sp.name);
    ParserStage(e, k, sp);
    ConfigMountKeeps(e, k, a, sp);
    var s := Stage(e, k, a, sp);
    StartedIff(e, s.kube, sp.name, PutDeployment(a.name, a.replicas, TemplateOf(cfg, a, sp, s.volumes)));
    var d := Deployed(e, cfg, k, a, sp);
    StartedIff(e, d.kube, sp.name, ServiceOf(a.name, [PARSER_PORT]));
  }

  /** Whatever fails: after parsing, the parser is gone exactly when the calls leave nothing of it behind. */
  lemma ParserLeftIff(e: Env, cfg: Config, c: Ctl)
    ensures ParserGone(c.sp.name, ProcessParsed(e, cfg, c.kube, c.sp).kube.store) <==> !LeavesParser(e, cfg, c)
  {
    ParserStartedIff(e, cfg, c.kube, c.sp);
    var k1, n := Tick(ParserDeployed(e, cfg, c.kube, c.sp)), ParserName(c.sp.name);
    var d := Delete(e, k1, c.sp.name, DropDeployment(n));
    DeleteEffect(e, k1, c.sp.name, DropDeployment(n));
    DeleteEffect(e, d.kube, c.sp.name, DropService(n));
  }

  /** The pass parses anew. */
  predicate Parses(c: Ctl, cache: map<string, seq<Application>>) {
    Modified(c.sp.status) || c.sp.name !in cache
  }

  /** A pass that parses anew leaves the deployment or the service of the parser behind. */
  predicate LeavesParser(e: Env, cfg: Config, c: Ctl) {
    LeavesDeployment(e, cfg, c.kube, c.sp) || LeavesService(e, cfg, c.kube, c.sp)
  }

  lemma PopulatedParserIff(e: Env, cfg: Config, c: Ctl, cache: map<string, seq<Application>>)
    requires CacheNamed(cache, c.sp.name) && c.sp.status.previous >= 0
    ensures ParserGone(c.sp.name, AppsPopulated(e, cfg, c, cache).ctl.kube.store) <==>
            if Parses(c, cache) then !LeavesParser(e, cfg, c) else ParserGone(c.sp.name, c.kube.store)
  {
    var r, oldLen := ProcessParsed(e, cfg, c.kube, c.sp), Len(cache, c.sp.name);
    ParserLeftIff(e, cfg, c);
    if Parses(c, cache) && r.apps.Some? {
      if Modified(c.sp.status) {
        var c1, n := c.(kube := r.kube), |r.apps.value|;
        RemovedUpToTraced(e, c1, n, oldLen, oldLen);
        TraceParserGone(c.sp.name, Cleaning(n, oldLen, c.sp.status.previous), r.kube,
                        ArtifactsCleaned(e, c1, oldLen, n).ctl.kube);
      }
    }
  }

  lemma ConcludedParserIff(e: Env, w: World, listeners: map<string, Listener>, cfg: Config, c: Ctl)
    requires CacheNamed(w.apps, c.sp.name) && c.sp.status.previous >= 0 && c.sp.status.current >= 0
    ensures ParserGone(c.sp.name, Concluded(e, w, listeners, cfg, c).world.kube.store) <==>
            if Parses(c, w.apps) then !LeavesParser(e, cfg, c) else ParserGone(c.sp.name, c.kube.store)
  {
    PopulatedParserIff(e, cfg, c, w.apps);
    var _, _ := PopulatedTraced(e, cfg, c, w.apps);
    var pop := AppsPopulated(e, cfg, c, w.apps);
    if pop.apps.Some? {
      AppliedParserIff(e, CachesPopulated(w, listeners, cfg, c.sp, pop), cfg, pop.ctl, pop.apps.value);
    }
  }

  lemma AppliedParserIff(e: Env, w: World, cfg: Config, c: Ctl, apps: seq<Application>)
    requires Named(c.sp.name, apps) && c.sp.status.current >= 0
    ensures ParserGone(c.sp.name, AppsApplied(e, w, cfg, c, apps).world.kube.store) <==>
            ParserGone(c.sp.name, c.kube.store)
  {
    AppliedTraced(e, w, cfg, c, apps);
    var k := AppsApplied(e, w, cfg, c, apps).world.kube;
    TraceParserGone(c.sp.name, Rolling(|apps|, c.sp.status.current), c.kube, k);
  }

  lemma ConcludedCachesIff(e: Env, w: World, listeners: map<string, Listener>, cfg: Config, c: Ctl)
    ensures var r := Concluded(e, w, listeners, cfg, c).world;
            c.sp.name in r.apps <==> c.sp.name in w.apps || AppsPopulated(e, cfg, c, w.apps).apps.Some?
  {
    var pop := AppsPopulated(e, cfg, c, w.apps);
    if pop.apps.Some? {
      AppliedCaches(e, CachesPopulated(w, listeners, cfg, c.sp, pop), cfg, pop.ctl, pop.apps.value);
    }
  }

  // ---------------------------------------------------------------- after a pass

  /** The process is cached and no rollout is pending. */
  predicate Settled(w: World, p: string) {
    p in w.apps && p in w.kube.crs && !Modified(w.kube.crs[p].status)
  }

  /** No parser of `p` is there that should not be. */
  ghost predicate NoStrayOf(w: World, p: string) {
    Settled(w, p) || p !in w.kube.crs ==> ParserGone(p, w.kube.store)
  }

  /** A parser may be around only for a process that is not yet cached or has a rollout pending. */
  ghost predicate NoStrayParser(w: World) {
    Owned(w.kube.store) && forall p :: NoStrayOf(w, p)
  }

  /** The versions in store say that nothing is pending: a status update from the synchronisation on is
      stored, or the versions were settled before and the pass does not raise the current one, or loses every
      status update from the upgrade on. */
  predicate SaysSettled(e: Env, w: World, cfg: Config, sp: SiddhiProcess, upgrade: bool) {
    || SyncHeard(e, w, cfg, sp, upgrade)
    || (!Modified(sp.status) && (upgrade ==> PassUnheard(e, w, cfg, sp, upgrade)))
  }

  /** The pass has, or has had before, the applications of the process. */
  predicate Caches(e: Env, w: World, cfg: Config, sp: SiddhiProcess, upgrade: bool) {
    sp.name in w.apps || AppsPopulated(e, cfg, Prepared(e, w, cfg, sp, upgrade), w.apps).apps.Some?
  }

  /** A pass that parses anew and ends with the process cached and nothing pending leaves no parser. */
  predicate PassTidy(e: Env, w: World, cfg: Config, sp: SiddhiProcess, upgrade: bool) {
    var d := Prepared(e, w, cfg, sp, upgrade);
    !AllAppsRead(e, w, Opened(e, w, sp, upgrade)).err && Parses(d, w.apps)
      && Caches(e, w, cfg, sp, upgrade) && SaysSettled(e, w, cfg, sp, upgrade) ==>
      !LeavesParser(e, cfg, d)
  }

  lemma SettledIff(e: Env, w: World, cfg: Config, sp: SiddhiProcess, upgrade: bool)
    requires Consistent(w) && sp.name in w.kube.crs && w.kube.crs[sp.name] == sp
    ensures var w', g := Advanced(e, w, cfg, sp, upgrade).world, AllAppsRead(e, w, Opened(e, w, sp, upgrade));
            && (!g.err ==> (Settled(w', sp.name) <==>
                              Caches(e, w, cfg, sp, upgrade) && SaysSettled(e, w, cfg, sp, upgrade)))
            && (g.err ==> w'.apps == w.apps && w'.kube.store == w.kube.store)
  {
    AdvancedVersions(e, w, cfg, sp, upgrade);
    PreparedVersions(e, w, cfg, sp, upgrade);
    PreparedKeeps(e, w, cfg, sp, upgrade);
    var g, d := AllAppsRead(e, w, Opened(e, w, sp, upgrade)), Prepared(e, w, cfg, sp, upgrade);
    if !g.err {
      ConcludedCachesIff(e, w, g.listeners, cfg, d);
    }
  }

  /** Without a stray parser before, there is none after a pass exactly when the pass is tidy. */
  lemma AdvancedParserIff(e: Env, w: World, cfg: Config, sp: SiddhiProcess, upgrade: bool)
    requires Consistent(w) && NoStrayParser(w) && sp.name in w.kube.crs && w.kube.crs[sp.name] == sp
    ensures var w' := Advanced(e, w, cfg, sp, upgrade).world;
            (Settled(w', sp.name) ==> ParserGone(sp.name, w'.kube.store)) <==> PassTidy(e, w, cfg, sp, upgrade)
  {
    SettledIff(e, w, cfg, sp, upgrade);
    assert NoStrayOf(w, sp.name);
    if AllAppsRead(e, w, Opened(e, w, sp, upgrade)).err {
      UnreadSettled(e, w, cfg, sp, upgrade);
    } else {
      ReadParserIff(e, w, cfg, sp, upgrade);
      if !Parses(Prepared(e, w, cfg, sp, upgrade), w.apps) {
        UnparsedSettled(e, w, cfg, sp, upgrade);
      }
    }
  }

  lemma ReadParserIff(e: Env, w: World, cfg: Config, sp: SiddhiProcess, upgrade: bool)
    requires Consistent(w) && sp.name in w.kube.crs && w.kube.crs[sp.name] == sp
    requires !AllAppsRead(e, w, Opened(e, w, sp, upgrade)).err
    ensures var d := Prepared(e, w, cfg, sp, upgrade);
            ParserGone(sp.name, Advanced(e, w, cfg, sp, upgrade).world.kube.store) <==>
            if Parses(d, w.apps) then !LeavesParser(e, cfg, d) else ParserGone(sp.name, w.kube.store)
  {
    PreparedKeeps(e, w, cfg, sp, upgrade);
    var listeners := AllAppsRead(e, w, Opened(e, w, sp, upgrade)).listeners;
    ConcludedParserIff(e, w, listeners, cfg, Prepared(e, w, cfg, sp, upgrade));
  }

  lemma UnparsedSettled(e: Env, w: World, cfg: Config, sp: SiddhiProcess, upgrade: bool)
    requires Consistent(w) && sp.name in w.kube.crs && w.kube.crs[sp.name] == sp
    requires !Parses(Prepared(e, w, cfg, sp, upgrade), w.apps)
    ensures Settled(w, sp.name)
  {
    PreparedVersions(e, w, cfg, sp, upgrade);
    PreparedKeeps(e, w, cfg, sp, upgrade);
  }

  lemma UnreadSettled(e: Env, w: World, cfg: Config, sp: SiddhiProcess, upgrade: bool)
    requires Consistent(w) && sp.name in w.kube.crs && w.kube.crs[sp.name] == sp
    requires AllAppsRead(e, w, Opened(e, w, sp, upgrade)).err
    ensures Settled(Advanced(e, w, cfg, sp, upgrade).world, sp.name) ==> Settled(w, sp.name)
  {
    AdvancedVersions(e, w, cfg, sp, upgrade);
    PreparedVersions(e, w, cfg, sp, upgrade);
  }

  lemma TimerParserGone(e: Env, w: World, cfg: Config, sp: SiddhiProcess, upgrade: bool, q: string)
    requires Consistent(w) && NoStrayParser(w) && sp.name in w.kube.crs && w.kube.crs[sp.name] == sp && TimerPass(w, sp)
    ensures var w' := Found(e, w, cfg, sp, upgrade).world;
            NoStrayOf(w', q)
  {
    assert NoStrayOf(w, q);
    TimerKeeps(e, w, cfg, sp, upgrade);
    TimerStatus(e, Ctl(w.kube, sp), w.apps[sp.name]);
  }

  /** What a pass for another process does to `q` as far as a stray parser is concerned: nothing. */
  lemma OtherParserGone(p: string, q: string, w: World, w': World)
    requires p != q && NoStrayParser(w) && Untouched(p, w.kube.store, w'.kube.store)
    requires Evolved(p, w.kube.crs, w'.kube.crs) && (q in w'.apps ==> q in w.apps)
    ensures NoStrayOf(w', q)
  {
    assert NoStrayOf(w, q);
    if ParserGone(q, w.kube.store) {
      UntouchedParserGone(p, q, w.kube.store, w'.kube.store);
    }
  }

  /** The step is no pass that leaves a parser behind. */
  predicate StepTidy(e: Env, w: World, step: Step) {
    step.ReconcileRequest? && Reaches(e, w, step.name) && !TimerPass(Entered(w), Reached(e, w, step.name)) ==>
      PassTidy(e, Entered(w), step.cfg, Reached(e, w, step.name), ForConfigMap(e, w, step.name))
  }

  lemma SameStray(w: World, w': World)
    requires NoStrayParser(w) && SameState(w, w')
    ensures NoStrayParser(w')
  {
    forall p ensures NoStrayOf(w', p) {
      assert NoStrayOf(w, p);
    }
  }

  lemma TargetParserIff(e: Env, w: World, step: Step)
    requires Consistent(w) && NoStrayParser(w) && step.ReconcileRequest? && Reaches(e, w, step.name)
    ensures NoStrayOf(Next(e, w, step), Target(e, w, step.name)) <==> StepTidy(e, w, step)
  {
    var sp, upgrade, v := Reached(e, w, step.name), ForConfigMap(e, w, step.name), Entered(w);
    ReconcileCases(e, w, step.name, step.cfg);
    SameStray(w, v);
    if TimerPass(v, sp) {
      TimerParserGone(e, v, step.cfg, sp, upgrade, sp.name);
    } else {
      FoundEvolves(e, v, step.cfg, sp, upgrade);
      AdvancedParserIff(e, v, step.cfg, sp, upgrade);
    }
  }

  lemma OthersParser(e: Env, w: World, request: string, cfg: Config, q: string)
    requires Consistent(w) && NoStrayParser(w) && Reaches(e, w, request) && q != Target(e, w, request)
    ensures NoStrayOf(Reconcile(e, w, request, cfg).world, q)
  {
    var sp, upgrade, v := Reached(e, w, request), ForConfigMap(e, w, request), Entered(w);
    var w' := Reconcile(e, w, request, cfg).world;
    ReconcileCases(e, w, request, cfg);
    FoundEvolves(e, v, cfg, sp, upgrade);
    if TimerPass(v, sp) {
      TimerKeeps(e, v, cfg, sp, upgrade);
    } else {
      var _ := AdvancedCaches(e, v, cfg, sp, upgrade);
    }
    ReconcileIsolated(e, w, request, cfg);
    assert History(w'.kube)[|w'.kube.past|] == w'.kube.store;
    OtherParserGone(sp.name, q, w, w');
  }

  lemma DeleteParserGone(w: World, n: string, p: string)
    requires Consistent(w) && NoStrayParser(w) && n in w.kube.crs
    ensures var w' := Event(w, DeleteProcess(n)); NoStrayOf(w', p)
  {
    GarbageOwned(w.kube.store, n);
    assert NoStrayOf(w, p);
    assert Settled(Event(w, DeleteProcess(n)), p) ==> Settled(w, p);
  }

  lemma EventParserGone(w: World, step: Step, p: string)
    requires Consistent(w) && NoStrayParser(w) && !step.ReconcileRequest?
    ensures var w' := Event(w, step); NoStrayOf(w', p)
  {
    assert NoStrayOf(w, p);
    if step.DeleteProcess? && step.name in w.kube.crs {
      DeleteParserGone(w, step.name, p);
    } else {
      assert Settled(Event(w, step), p) || p !in Event(w, step).kube.crs ==> Settled(w, p) || p !in w.kube.crs;
    }
  }

  /** From a world without a stray parser a step leads to one exactly when it is tidy. */
  lemma NextNoStrayParserIff(e: Env, w: World, step: Step)
    requires Consistent(w) && NoStrayParser(w)
    ensures NoStrayParser(Next(e, w, step)) <==> StepTidy(e, w, step)
  {
    var w' := Next(e, w, step);
    if step.ReconcileRequest? {
      ReconcileOwned(e, w, step.name, step.cfg);
      if Reaches(e, w, step.name) {
        TargetParserIff(e, w, step);
        forall q | q != Target(e, w, step.name) ensures NoStrayOf(w', q) {
          OthersParser(e, w, step.name, step.cfg, q);
        }
      } else {
        ReconcileCases(e, w, step.name, step.cfg);
        forall q ensures NoStrayOf(w', q) {
          assert NoStrayOf(w, q);
        }
      }
    } else {
      EventOwned(w, step);
      forall q ensures NoStrayOf(w', q) {
        EventParserGone(w, step, q);
      }
    }
  }

  // ---------------------------------------------------------------- over runs

  /** No parser has been stray in any state between two steps of the run. */
  ghost predicate NeverStray(e: Env, steps: seq<Step>)
    decreases |steps|
  {
    NoStrayParser(Run(e, steps)) && (steps == [] || NeverStray(e, steps[..|steps| - 1]))
  }

  /** Every step of the run is tidy. */
  predicate TidyRun(e: Env, steps: seq<Step>)
    decreases |steps|
  {
    steps == [] || (TidyRun(e, steps[..|steps| - 1]) && StepTidy(e, Run(e, steps[..|steps| - 1]), steps[|steps| - 1]))
  }

  /** No parser leaks: in a run, whatever fails in it, a parser deployment or service remains between
      steps only while its process is uncached or has a rollout pending exactly when every pass is tidy. */
  lemma {:induction false} RunNoStrayParserIff(e: Env, steps: seq<Step>)
    ensures NeverStray(e, steps) <==> TidyRun(e, steps)
    decreases |steps|
  {
    if steps != [] {
      var init := steps[..|steps| - 1];
      RunNoStrayParserIff(e, init);
      if NeverStray(e, init) {
        RunConsistent(e, init);
        NextNoStrayParserIff(e, Run(e, init), steps[|steps| - 1]);
      }
    }
  }

  /** Every run is tidy while lookups before deletions succeed and upgrades, or else all other status
      updates, are stored. */
  lemma {:induction false} RunTidy(e: Env, steps: seq<Step>)
    requires e.failedLookups == {} && (e.failedUpgrades == {} || e.failedStatus == {})
    ensures TidyRun(e, steps)
    decreases |steps|
  {
    if steps != [] {
      var init := steps[..|steps| - 1];
      RunTidy(e, init);
      RunConsistent(e, init);
      StoredStepTidy(e, Run(e, init), steps[|steps| - 1]);
    }
  }

  lemma StoredStepTidy(e: Env, w: World, step: Step)
    requires e.failedLookups == {} && (e.failedUpgrades == {} || e.failedStatus == {}) && Consistent(w)
    ensures StepTidy(e, w, step)
  {
    if step.ReconcileRequest? && Reaches(e, w, step.name) {
      StoredPassTidy(e, Entered(w), step.cfg, Reached(e, w, step.name), ForConfigMap(e, w, step.name));
    }
  }

  lemma StoredPassTidy(e: Env, w: World, cfg: Config, sp: SiddhiProcess, upgrade: bool)
    requires e.failedLookups == {} && (e.failedUpgrades == {} || e.failedStatus == {})
    requires sp.name in w.kube.crs && w.kube.crs[sp.name] == sp
    ensures PassTidy(e, w, cfg, sp, upgrade)
  {
    var g, d := AllAppsRead(e, w, Opened(e, w, sp, upgrade)), Prepared(e, w, cfg, sp, upgrade);
    var r := ProcessParsed(e, cfg, d.kube, d.sp);
    PreparedVersions(e, w, cfg, sp, upgrade);
    if r.apps.Some? {
      SeenParserGone(e, cfg, d);
    } else if !g.err && Parses(d, w.apps) && Caches(e, w, cfg, sp, upgrade) {
      FailureStored(e, w, cfg, sp, upgrade);
    }
  }

  /** An error report after a failed parse tells that a version is pending, unless all is lost. */
  lemma FailureStored(e: Env, w: World, cfg: Config, sp: SiddhiProcess, upgrade: bool)
    requires e.failedUpgrades == {} || e.failedStatus == {}
    requires sp.name in w.kube.crs && w.kube.crs[sp.name] == sp && sp.name in w.apps
    requires !AllAppsRead(e, w, Opened(e, w, sp, upgrade)).err
    requires var d := Prepared(e, w, cfg, sp, upgrade);
             Modified(d.sp.status) && ProcessParsed(e, cfg, d.kube, d.sp).apps.None?
    ensures !SaysSettled(e, w, cfg, sp, upgrade)
  {
    var c, d, r := Opened(e, w, sp, upgrade), Prepared(e, w, cfg, sp, upgrade), Advanced(e, w, cfg, sp, upgrade);
    PreparedVersions(e, w, cfg, sp, upgrade);
    PreparedTracks(e, w, cfg, sp, upgrade);
    PreparedQuiet(e, w, cfg, sp, upgrade);
    ParsedCrs(e, cfg, d.kube, d.sp);
    var k := ProcessParsed(e, cfg, d.kube, d.sp).kube;
    assert r.outcome == ParserFailed && r.world.kube == ReportError(e, d.(kube := k)).kube;
    assert e.failedStatus == {} ==> r.world.kube.stored == k.stored + 1;
    assert upgrade && e.failedUpgrades == {} ==> c.kube.stored == UpgradePoint(e, w, sp).stored + 1;
  }

  /** Whenever a pass is about to roll out, no parser of its process is left, unless it has just parsed
      without seeing it. */
  lemma ReadyForRolloutIff(e: Env, w: World, cfg: Config, sp: SiddhiProcess, upgrade: bool)
    requires Consistent(w) && NoStrayParser(w) && sp.name in w.kube.crs && w.kube.crs[sp.name] == sp
    ensures var d := Prepared(e, w, cfg, sp, upgrade);
            var pop := AppsPopulated(e, cfg, d, w.apps);
            pop.apps.Some? ==>
              (ParserGone(sp.name, pop.ctl.kube.store) <==> (Parses(d, w.apps) ==> SeesParser(e, cfg, d.kube, d.sp)))
  {
    PreparedKeeps(e, w, cfg, sp, upgrade);
    var d := Prepared(e, w, cfg, sp, upgrade);
    assert NoStrayOf(w, sp.name);
    assert !Modified(d.sp.status) && sp.name in w.apps ==> Settled(w, sp.name);
    PopulatedParserIff(e, cfg, d, w.apps);
    if Parses(d, w.apps) && AppsPopulated(e, cfg, d, w.apps).apps.Some? {
      SeenParserGone(e, cfg, d);
    }
  }

  /** The same in every tidy run. */
  lemma RunParserGoneBeforeRollout(e: Env, steps: seq<Step>, request: string, cfg: Config)
    requires TidyRun(e, steps) && Reaches(e, Run(e, steps), request)
    ensures var w := Run(e, steps);
            var sp, upgrade := Reached(e, w, request), ForConfigMap(e, w, request);
            var d := Prepared(e, Entered(w), cfg, sp, upgrade);
            var pop := AppsPopulated(e, cfg, d, w.apps);
            pop.apps.Some? ==>
              (ParserGone(sp.name, pop.ctl.kube.store) <==> (Parses(d, w.apps) ==> SeesParser(e, cfg, d.kube, d.sp)))
  {
    var w := Run(e, steps);
    RunConsistent(e, steps);
    RunNoStrayParserIff(e, steps);
    SameStray(w, Entered(w));
    ReadyForRolloutIff(e, Entered(w), cfg, Reached(e, w, request), ForConfigMap(e, w, request));
  }

  /** The stored upgrade matters: when it is lost and the Siddhi parser does not answer and the error
      report is lost, too, then the parser stays although the process counts as settled. */
  lemma LostUpgradeLeaksParser(e: Env, w: World, cfg: Config, sp: SiddhiProcess)
    requires Consistent(w) && Settled(w, sp.name) && w.kube.crs[sp.name] == sp && cfg.natsInstalled
    requires e.failedReads == {} && e.failedWrites == {}
    requires var d := Prepared(e, w, cfg, sp, true); ParserDeployed(e, cfg, d.kube, d.sp).calls !in e.replies
    requires Opened(e, w, sp, false).kube.calls in e.failedUpgrades
    requires !AllAppsRead(e, w, Opened(e, w, sp, true)).err
    requires AppsPopulated(e, cfg, Prepared(e, w, cfg, sp, true), w.apps).ctl.kube.calls in e.failedStatus
    ensures var w' := Advanced(e, w, cfg, sp, true).world; Settled(w', sp.name) && !ParserGone(sp.name, w'.kube.store)
  {
    PreparedKeeps(e, w, cfg, sp, true);
    var d := Prepared(e, w, cfg, sp, true);
    UnansweredParser(e, cfg, d.kube, d.sp);
    ParsedCrs(e, cfg, d.kube, d.sp);
    PreparedTracks(e, w, cfg, sp, true);
    PreparedStored(e, w, cfg, sp);
  }

  lemma UnansweredParser(e: Env, cfg: Config, k: Kube, sp: SiddhiProcess)
    requires e.failedReads == {} && e.failedWrites == {} && ParserDeployed(e, cfg, k, sp).calls !in e.replies
    ensures ProcessParsed(e, cfg, k, sp).apps.None?
    ensures !ParserGone(sp.name, ProcessParsed(e, cfg, k, sp).kube.store)
  {
  }

  lemma PreparedStored(e: Env, w: World, cfg: Config, sp: SiddhiProcess)
    requires w.kube.crs.Keys >= {sp.name} && cfg.natsInstalled && UpgradePoint(e, w, sp).calls in e.failedUpgrades
    ensures Prepared(e, w, cfg, sp, true).kube.stored == UpgradePoint(e, w, sp).stored
  {
    PreparedQuiet(e, w, cfg, sp, true);
  }
}
