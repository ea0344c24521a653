/** Referential integrity in every run: when it holds, and what guarantees it. */
module IntactRuns {
  import opened SiddhiTypes
  import opened Names
  import opened Cluster
  import opened Deployments
  import opened Controller
  import opened ParserLifecycle
  import opened Operator
  import opened Moves
  import opened Conformance
  import opened Isolation
  import opened Integrity
  import opened Removals
  import opened StatusFlow
  import opened StoredVersions
  import opened Passes
  import opened Runs
  import opened Safety

  // ---------------------------------------------------------------- the exact condition

  /** Every state from the present one of `k` up to that of `k'` is intact. */
  ghost predicate IntactBetween(k: Kube, k': Kube) {
    History(k) <= History(k') && IntactFrom(History(k'), |k.past|)
  }

  lemma IntactJoined(k0: Kube, k1: Kube, k2: Kube)
    requires History(k0) <= History(k1) && History(k1) <= History(k2)
    ensures IntactBetween(k0, k2) <==> IntactBetween(k0, k1) && IntactBetween(k1, k2)
    ensures IntactBetween(k0, k1) ==> Intact(k1.store)
  {
    IntactSplit(History(k1), History(k2), |k0.past|);
    assert History(k1)[|k1.past|] == k1.store;
  }

  /** The removals of the pass, if it parses anew, take nothing away that is mounted. */
  ghost predicate CleansHarmlessly(e: Env, cfg: Config, c: Ctl, cache: map<string, seq<Application>>) {
    var r := ProcessParsed(e, cfg, c.kube, c.sp);
    Modified(c.sp.status) && r.apps.Some? ==>
      HarmlessUpTo(e, c.(kube := r.kube), |r.apps.value|, Len(cache, c.sp.name))
  }

  lemma PopulatedIntactIff(e: Env, cfg: Config, c: Ctl, cache: map<string, seq<Application>>)
    requires Intact(c.kube.store)
    ensures var k := AppsPopulated(e, cfg, c, cache).ctl.kube;
            History(c.kube) <= History(k) && (IntactBetween(c.kube, k) <==> CleansHarmlessly(e, cfg, c, cache))
  {
    var r := ProcessParsed(e, cfg, c.kube, c.sp);
    ProcessParsedTraced(e, cfg, c.kube, c.sp);
    TraceIntact(c.sp.name, Parsing, c.kube, r.kube);
    if Modified(c.sp.status) && r.apps.Some? {
      var k := RemovedUpToIntact(e, c.(kube := r.kube), |r.apps.value|, Len(cache, c.sp.name));
      IntactJoined(c.kube, r.kube, k.ctl.kube);
    }
  }

  lemma AppliedIntact(e: Env, w: World, cfg: Config, c: Ctl, apps: seq<Application>)
    requires Named(c.sp.name, apps) && c.sp.status.current >= 0
    ensures var k := AppsApplied(e, w, cfg, c, apps).world.kube;
            History(c.kube) <= History(k) && (Intact(c.kube.store) ==> IntactBetween(c.kube, k))
  {
    AppliedTraced(e, w, cfg, c, apps);
    if Intact(c.kube.store) {
      TraceIntact(c.sp.name, Rolling(|apps|, c.sp.status.current), c.kube, AppsApplied(e, w, cfg, c, apps).world.kube);
    }
  }

  lemma ConcludedIntactIff(e: Env, w: World, listeners: map<string, Listener>, cfg: Config, c: Ctl)
    requires Intact(c.kube.store) && CacheNamed(w.apps, c.sp.name)
    requires c.sp.status.previous >= 0 && c.sp.status.current >= 0
    ensures var k := Concluded(e, w, listeners, cfg, c).world.kube;
            History(c.kube) <= History(k) && (IntactBetween(c.kube, k) <==> CleansHarmlessly(e, cfg, c, w.apps))
  {
    PopulatedIntactIff(e, cfg, c, w.apps);
    var pop, k := AppsPopulated(e, cfg, c, w.apps), Concluded(e, w, listeners, cfg, c).world.kube;
    if pop.apps.Some? {
      var _, _ := PopulatedTraced(e, cfg, c, w.apps);
      AppliedIntact(e, CachesPopulated(w, listeners, cfg, c.sp, pop), cfg, pop.ctl, pop.apps.value);
      IntactJoined(c.kube, pop.ctl.kube, k);
    } else {
      assert History(k) == History(pop.ctl.kube);
    }
  }

  /** The pass gives up before its applications are known, or cleans harmlessly. */
  ghost predicate PassHarmless(e: Env, w: World, cfg: Config, sp: SiddhiProcess, upgrade: bool) {
    || AllAppsRead(e, w, Opened(e, w, sp, upgrade)).err
    || CleansHarmlessly(e, cfg, Prepared(e, w, cfg, sp, upgrade), w.apps)
  }

  lemma AdvancedIntactIff(e: Env, w: World, cfg: Config, sp: SiddhiProcess, upgrade: bool)
    requires Intact(w.kube.store) && CacheNamed(w.apps, sp.name)
    requires 0 <= sp.status.previous && 0 <= sp.status.current
    ensures var k := Advanced(e, w, cfg, sp, upgrade).world.kube;
            History(w.kube) <= History(k) && (IntactBetween(w.kube, k) <==> PassHarmless(e, w, cfg, sp, upgrade))
  {
    PreparedKeeps(e, w, cfg, sp, upgrade);
    var g, d := AllAppsRead(e, w, Opened(e, w, sp, upgrade)), Prepared(e, w, cfg, sp, upgrade);
    if g.err {
      assert History(Advanced(e, w, cfg, sp, upgrade).world.kube) == History(w.kube);
    } else {
      ConcludedIntactIff(e, w, g.listeners, cfg, d);
      SameHistory(w.kube, d.kube);
    }
  }

  lemma SameHistory(k: Kube, k': Kube)
    requires History(k) == History(k')
    ensures k.past == k'.past && k.store == k'.store
  {
    assert k.past == History(k)[..|History(k)| - 1] && k'.past == History(k')[..|History(k')| - 1];
    assert k.store == History(k)[|History(k)| - 1];
  }

  /** A step that does no harm: nobody mounts what a deleted process owns, and a pass cleans harmlessly. */
  ghost predicate Harmless(e: Env, w: World, step: Step) {
    match step
    case DeleteProcess(p) => p in w.kube.crs ==> GarbageUnmounted(w.kube.store, p)
    case ReconcileRequest(request, cfg) =>
      Reaches(e, w, request) && !TimerPass(Entered(w), Reached(e, w, request)) ==>
        PassHarmless(e, Entered(w), cfg, Reached(e, w, request), ForConfigMap(e, w, request))
    case _ => true
  }

  lemma EventIntactIff(e: Env, w: World, step: Step)
    requires Intact(w.kube.store) && !step.ReconcileRequest?
    ensures History(w.kube) <= History(Event(w, step).kube)
    ensures IntactBetween(w.kube, Event(w, step).kube) <==> Harmless(e, w, step)
  {
    var k, k' := w.kube, Event(w, step).kube;
    if step.DeleteProcess? && step.name in w.kube.crs {
      GarbageIntactIff(k.store, step.name);
      OneMore(k, k');
    } else if step.Observe? && step.name in w.kube.store.deployments {
      ObservedIntact(k.store, step.name, step.available);
      OneMore(k, k');
    } else {
      assert History(k') == History(k);
    }
  }

  lemma OneMore(k: Kube, k': Kube)
    requires k'.past == History(k) && Intact(k.store)
    ensures History(k) <= History(k') && (IntactBetween(k, k') <==> Intact(k'.store))
  {
    assert History(k')[|History(k)|] == k'.store;
    assert History(k')[|k.past|] == k.store;
  }

  lemma ObservedIntact(s: Store, n: string, available: int)
    requires Intact(s) && n in s.deployments
    ensures Intact(s.(deployments := s.deployments[n := s.deployments[n].(available := available)]))
  {
    var t := s.(deployments := s.deployments[n := s.deployments[n].(available := available)]);
    forall v | Present(s, v) ensures Present(t, v) {
    }
  }

  /** From an intact cluster a step leads through intact states only exactly when it does no harm. */
  lemma NextIntactIff(e: Env, w: World, step: Step)
    requires Consistent(w) && Intact(w.kube.store)
    ensures History(w.kube) <= History(Next(e, w, step).kube)
    ensures IntactBetween(w.kube, Next(e, w, step).kube) <==> Harmless(e, w, step)
  {
    if step.ReconcileRequest? {
      ReconcileCases(e, w, step.name, step.cfg);
      if Reaches(e, w, step.name) {
        FoundIntactIff(e, Entered(w), step.cfg, Reached(e, w, step.name), ForConfigMap(e, w, step.name));
      }
    } else {
      EventIntactIff(e, w, step);
    }
  }

  lemma FoundIntactIff(e: Env, w: World, cfg: Config, sp: SiddhiProcess, upgrade: bool)
    requires Intact(w.kube.store) && CacheNamed(w.apps, sp.name)
    requires 0 <= sp.status.previous && 0 <= sp.status.current
    ensures var k := Found(e, w, cfg, sp, upgrade).world.kube;
            && History(w.kube) <= History(k)
            && (IntactBetween(w.kube, k) <==> TimerPass(w, sp) || PassHarmless(e, w, cfg, sp, upgrade))
  {
    if TimerPass(w, sp) {
      TimerKeeps(e, w, cfg, sp, upgrade);
    } else {
      AdvancedIntactIff(e, w, cfg, sp, upgrade);
    }
  }

  /** Every step of the run does no harm. */
  ghost predicate HarmlessRun(e: Env, steps: seq<Step>)
    decreases |steps|
  {
    steps == []
    || (HarmlessRun(e, steps[..|steps| - 1]) && Harmless(e, Run(e, steps[..|steps| - 1]), steps[|steps| - 1]))
  }

  /** Every state of the cluster in the whole run, between any two client calls, is intact. */
  ghost predicate AlwaysIntact(e: Env, steps: seq<Step>) {
    IntactFrom(History(Run(e, steps).kube), 0)
  }

  lemma {:induction false} RunHistory(e: Env, steps: seq<Step>)
    requires steps != []
    ensures History(Run(e, steps[..|steps| - 1]).kube) <= History(Run(e, steps).kube)
  {
    var w, step := Run(e, steps[..|steps| - 1]), steps[|steps| - 1];
    RunConsistent(e, steps[..|steps| - 1]);
    if step.ReconcileRequest? {
      ReconcileIsolated(e, w, step.name, step.cfg);
    }
  }

  /** Referential integrity: in a run, whatever fails in it, every config map and claim that a deployment
      mounts exists in every state between any two client calls exactly when every step does no harm. */
  lemma {:induction false} RunIntactIff(e: Env, steps: seq<Step>)
    ensures AlwaysIntact(e, steps) <==> HarmlessRun(e, steps)
    decreases |steps|
  {
    if steps != [] {
      var init, step := steps[..|steps| - 1], steps[|steps| - 1];
      var k, k' := Run(e, init).kube, Run(e, steps).kube;
      RunIntactIff(e, init);
      RunHistory(e, steps);
      IntactSplit(History(k), History(k'), 0);
      if AlwaysIntact(e, init) {
        assert History(k)[|k.past|] == k.store;
        RunConsistent(e, init);
        NextIntactIff(e, Run(e, init), step);
      }
    }
  }

  // ---------------------------------------------------------------- what guarantees it

  /** The newest version that a process may run between passes is its previous version. */
  ghost function PrevOf(w: World): map<string, nat>
    requires Consistent(w)
  {
    map p | p in w.kube.crs :: w.kube.crs[p].status.previous
  }

  lemma SoundMonotone(s: Store, versions: map<string, nat>, versions': map<string, nat>)
    requires Sound(s, versions) && forall p | p in versions :: p in versions' && versions[p] <= versions'[p]
    ensures Sound(s, versions')
  {
  }

  /** Garbage collection spares what other processes mount when no name is shared. */
  lemma GarbageSound(s: Store, versions: map<string, nat>, p: string)
    requires Sound(s, versions) && forall q | q in versions && q != p :: Apart(p, q)
    ensures Sound(CollectGarbage(s, p), versions - {p})
  {
    var t := CollectGarbage(s, p);
    GarbageOwned(s, p);
    forall d, v | d in t.deployments && v in t.deployments[d].template.volumes ensures Present(t, v) {
      MountedOwner(s, versions, d, v, p);
    }
  }

  lemma MountedOwner(s: Store, versions: map<string, nat>, d: string, v: Volume, p: string)
    requires Sound(s, versions) && d in s.deployments && v in s.deployments[d].template.volumes
    requires s.deployments[d].owner != p && Apart(p, s.deployments[d].owner)
    ensures match v
            case ConfigVolume(n) => s.configMaps[n].owner != p
            case ClaimVolume(n) => s.claims[n].owner != p
  {
    var q := s.deployments[d].owner;
    assert VolumeUpTo(q, d, versions[q], v) && Present(s, v);
    match v
    case ConfigVolume(n) =>
      if s.configMaps[n].owner == p {
        assert IsConfigOf(n, q) by {
          if n != RunnerConfigName(q) {
            var i: nat :| d == AppName(q, i);
          }
        }
        ConfigOwnerUnique(n, p, q);
      }
    case ClaimVolume(n) =>
      if s.claims[n].owner == p {
        ClaimOwnerUnique(n, p, q);
      }
  }

  /** Garbage collection then breaks nothing. */
  lemma ApartUnmounted(s: Store, versions: map<string, nat>, p: string)
    requires Sound(s, versions) && forall q | q in versions && q != p :: Apart(p, q)
    ensures GarbageUnmounted(s, p)
  {
    forall d, v | d in s.deployments && s.deployments[d].owner != p && v in s.deployments[d].template.volumes
      ensures !OwnedBy(s, v, p)
    {
      MountedOwner(s, versions, d, v, p);
    }
  }

  /** The cluster is sound for the previous versions in store. */
  ghost predicate SoundWorld(w: World) {
    Consistent(w) && Sound(w.kube.store, PrevOf(w))
  }

  /** The removals of the pass, if it parses anew, see the deployments that they are to remove. */
  predicate SeesDeployments(e: Env, cfg: Config, c: Ctl, cache: map<string, seq<Application>>) {
    var r := ProcessParsed(e, cfg, c.kube, c.sp);
    Modified(c.sp.status) && r.apps.Some? ==>
      SeesDeploymentsUpTo(e, c.(kube := r.kube), |r.apps.value|, Len(cache, c.sp.name))
  }

  lemma PopulatedSound(e: Env, cfg: Config, c: Ctl, cache: map<string, seq<Application>>, versions: map<string, nat>)
    requires Sound(c.kube.store, versions) && c.sp.name in versions && versions[c.sp.name] == c.sp.status.previous
    requires !Entangled(c.sp.name, c.sp.status.previous, c.kube.store) && SeesDeployments(e, cfg, c, cache)
    ensures CleansHarmlessly(e, cfg, c, cache) && Sound(AppsPopulated(e, cfg, c, cache).ctl.kube.store, versions)
  {
    var r, p := ProcessParsed(e, cfg, c.kube, c.sp), c.sp.name;
    ProcessParsedTraced(e, cfg, c.kube, c.sp);
    ParsingTraceSound(p, c.kube, r.kube, versions);
    ParsingKeepsApps(p, c.kube, r.kube);
    forall i: nat, j: nat | i < j && EntangledAt(p, c.sp.status.previous, r.kube.store, i, j) ensures false {
      assert SameAt(c.kube.store.deployments, r.kube.store.deployments, AppName(p, j));
      assert EntangledAt(p, c.sp.status.previous, c.kube.store, i, j);
    }
    if Modified(c.sp.status) && r.apps.Some? {
      var _ := SoundCleaning(e, c.(kube := r.kube), |r.apps.value|, Len(cache, p), versions);
    }
  }

  lemma SoundLater(s: Store, versions: map<string, nat>, p: string, version: nat)
    requires Sound(s, versions) && p in versions && versions[p] <= version
    ensures Sound(s, versions[p := version])
  {
  }

  /** After a pass no deployment runs a version newer than the one that the pass has worked on, and none a
      newer one than before unless the pass completes. */
  lemma ConcludedSound(e: Env, w: World, listeners: map<string, Listener>, cfg: Config, c: Ctl,
                       versions: map<string, nat>)
    requires CacheNamed(w.apps, c.sp.name) && 0 <= c.sp.status.previous <= c.sp.status.current
    requires Sound(c.kube.store, versions) && c.sp.name in versions && versions[c.sp.name] == c.sp.status.previous
    requires !Entangled(c.sp.name, c.sp.status.previous, c.kube.store) && SeesDeployments(e, cfg, c, w.apps)
    ensures CleansHarmlessly(e, cfg, c, w.apps)
    ensures var r := Concluded(e, w, listeners, cfg, c);
            Sound(r.world.kube.store,
                  if r.outcome == Completed then versions[c.sp.name := c.sp.status.current] else versions)
  {
    PopulatedSound(e, cfg, c, w.apps, versions);
    var pop := AppsPopulated(e, cfg, c, w.apps);
    if pop.apps.Some? {
      var _, _ := PopulatedTraced(e, cfg, c, w.apps);
      AppliedSound(e, CachesPopulated(w, listeners, cfg, c.sp, pop), cfg, pop.ctl, pop.apps.value, versions);
    }
  }

  lemma AppliedSound(e: Env, w: World, cfg: Config, c: Ctl, apps: seq<Application>, versions: map<string, nat>)
    requires Named(c.sp.name, apps) && c.sp.status.current >= 0
    requires Sound(c.kube.store, versions) && c.sp.name in versions && versions[c.sp.name] <= c.sp.status.current
    ensures var r := AppsApplied(e, w, cfg, c, apps);
            Sound(r.world.kube.store,
                  if r.outcome == Completed then versions[c.sp.name := c.sp.status.current] else versions)
  {
    var r, v := AppsApplied(e, w, cfg, c, apps), c.sp.status.current;
    if r.outcome == Completed {
      AppliedTraced(e, w, cfg, c, apps);
      SoundLater(c.kube.store, versions, c.sp.name, v);
      RollingTraceSound(c.sp.name, |apps|, v, c.kube, r.world.kube, versions[c.sp.name := v]);
    }
  }

  lemma AdvancedSound(e: Env, w: World, cfg: Config, sp: SiddhiProcess, upgrade: bool)
    requires SoundWorld(w) && sp.name in w.kube.crs && w.kube.crs[sp.name] == sp
    requires !Entangled(sp.name, sp.status.previous, w.kube.store)
    requires PassSees(e, w, cfg, sp, upgrade)
    ensures PassHarmless(e, w, cfg, sp, upgrade)
    ensures var r := Advanced(e, w, cfg, sp, upgrade);
            Sound(r.world.kube.store,
                  if r.outcome == Completed then PrevOf(w)[sp.name := VersionOf(sp, upgrade)] else PrevOf(w))
  {
    PreparedKeeps(e, w, cfg, sp, upgrade);
    var g, d := AllAppsRead(e, w, Opened(e, w, sp, upgrade)), Prepared(e, w, cfg, sp, upgrade);
    if !g.err {
      ReadSound(e, w, g.listeners, cfg, sp, upgrade, d);
    }
  }

  lemma ReadSound(e: Env, w: World, listeners: map<string, Listener>, cfg: Config, sp: SiddhiProcess, upgrade: bool,
                  d: Ctl)
    requires SoundWorld(w) && sp.name in w.kube.crs && w.kube.crs[sp.name] == sp
    requires d == Prepared(e, w, cfg, sp, upgrade)
    requires !Entangled(sp.name, sp.status.previous, w.kube.store) && SeesDeployments(e, cfg, d, w.apps)
    ensures CleansHarmlessly(e, cfg, d, w.apps)
    ensures var r := Concluded(e, w, listeners, cfg, d);
            Sound(r.world.kube.store,
                  if r.outcome == Completed then PrevOf(w)[sp.name := VersionOf(sp, upgrade)] else PrevOf(w))
  {
    PreparedKeeps(e, w, cfg, sp, upgrade);
    PreparedSound(e, w, cfg, sp, upgrade);
    ConcludedSound(e, w, listeners, cfg, d, PrevOf(w));
  }

  lemma PreparedSound(e: Env, w: World, cfg: Config, sp: SiddhiProcess, upgrade: bool)
    requires SoundWorld(w) && sp.name in w.kube.crs && w.kube.crs[sp.name] == sp
    ensures var d := Prepared(e, w, cfg, sp, upgrade);
            && CacheNamed(w.apps, sp.name) && 0 <= d.sp.status.previous <= d.sp.status.current
            && sp.name in PrevOf(w) && PrevOf(w)[sp.name] == d.sp.status.previous
            && Sound(d.kube.store, PrevOf(w))
  {
    PreparedKeeps(e, w, cfg, sp, upgrade);
  }

  /** The pass gives up before its applications are known, or sees the deployments that it is to remove. */
  predicate PassSees(e: Env, w: World, cfg: Config, sp: SiddhiProcess, upgrade: bool) {
    || AllAppsRead(e, w, Opened(e, w, sp, upgrade)).err
    || SeesDeployments(e, cfg, Prepared(e, w, cfg, sp, upgrade), w.apps)
  }

  lemma FoundSound(e: Env, w: World, cfg: Config, sp: SiddhiProcess, upgrade: bool)
    requires SoundWorld(w) && sp.name in w.kube.crs && w.kube.crs[sp.name] == sp && !TimerPass(w, sp)
    requires !Entangled(sp.name, sp.status.previous, w.kube.store)
    requires PassSees(e, w, cfg, sp, upgrade) && !VersionLost(e, w, cfg, sp, upgrade)
    ensures PassHarmless(e, w, cfg, sp, upgrade) && SoundWorld(Found(e, w, cfg, sp, upgrade).world)
  {
    var r := Found(e, w, cfg, sp, upgrade);
    FoundConsistent(e, w, cfg, sp, upgrade);
    FoundEvolves(e, w, cfg, sp, upgrade);
    AdvancedSound(e, w, cfg, sp, upgrade);
    AdvancedBounds(e, w, cfg, sp, upgrade);
    if r.outcome == Completed {
      SoundAfter(w, r.world, sp.name, VersionOf(sp, upgrade));
    } else {
      PrevUnchanged(w, sp.name);
      SoundAfter(w, r.world, sp.name, sp.status.previous);
    }
  }

  lemma PrevUnchanged(w: World, p: string)
    requires Consistent(w) && p in w.kube.crs
    ensures w.kube.crs[p].status.previous >= 0 && PrevOf(w)[p := w.kube.crs[p].status.previous] == PrevOf(w)
  {
  }

  lemma SoundAfter(w: World, w': World, p: string, version: nat)
    requires Consistent(w) && Consistent(w') && Evolved(p, w.kube.crs, w'.kube.crs)
    requires version <= w'.kube.crs[p].status.previous && Sound(w'.kube.store, PrevOf(w)[p := version])
    ensures Sound(w'.kube.store, PrevOf(w'))
  {
    VersionsAfter(w, w', p, version);
    SoundMonotone(w'.kube.store, PrevOf(w)[p := version], PrevOf(w'));
  }

  /** The previous versions after a pass that reaches `version`. */
  lemma VersionsAfter(w: World, w': World, p: string, version: nat)
    requires Consistent(w) && Consistent(w') && Evolved(p, w.kube.crs, w'.kube.crs)
    requires version <= w'.kube.crs[p].status.previous
    ensures var versions := PrevOf(w)[p := version];
            forall q | q in versions :: q in PrevOf(w') && versions[q] <= PrevOf(w')[q]
  {
  }

  lemma TimerSound(e: Env, w: World, cfg: Config, sp: SiddhiProcess, upgrade: bool)
    requires SoundWorld(w) && sp.name in w.kube.crs && w.kube.crs[sp.name] == sp && TimerPass(w, sp)
    ensures SoundWorld(Found(e, w, cfg, sp, upgrade).world)
  {
    var w' := Found(e, w, cfg, sp, upgrade).world;
    FoundConsistent(e, w, cfg, sp, upgrade);
    FoundEvolves(e, w, cfg, sp, upgrade);
    TimerKeeps(e, w, cfg, sp, upgrade);
    SoundMonotone(w.kube.store, PrevOf(w), PrevOf(w'));
  }

  /** A step after which the cluster is still sound, and which does no harm: a deleted process shares no
      name with another one; a pass is for a process that is not entangled, sees the deployments that it
      is to remove, and does not lose its version. */
  ghost predicate Prudent(e: Env, w: World, step: Step) {
    match step
    case DeleteProcess(p) => p in w.kube.crs ==> forall q | q in w.kube.crs && q != p :: Apart(p, q)
    case ReconcileRequest(request, _) =>
      Reaches(e, w, request) ==>
        !Entangled(Target(e, w, request), Reached(e, w, request).status.previous, w.kube.store) && Heeds(e, w, step)
    case _ => true
  }

  /** The part of `Prudent` that only depends on which calls fail. */
  predicate Heeds(e: Env, w: World, step: Step) {
    step.ReconcileRequest? && Reaches(e, w, step.name) && !TimerPass(Entered(w), Reached(e, w, step.name)) ==>
      !LosesVersion(e, w, step)
      && PassSees(e, Entered(w), step.cfg, Reached(e, w, step.name), ForConfigMap(e, w, step.name))
  }

  lemma SameStateSound(w: World, w': World)
    requires SoundWorld(w) && SameState(w, w')
    ensures SoundWorld(w')
  {
    assert PrevOf(w) == PrevOf(w');
  }

  lemma DeleteSound(w: World, n: string)
    requires SoundWorld(w) && n in w.kube.crs && forall q | q in w.kube.crs && q != n :: Apart(n, q)
    ensures SoundWorld(Event(w, DeleteProcess(n)))
  {
    EventConsistent(w, DeleteProcess(n));
    GarbageSound(w.kube.store, PrevOf(w), n);
    PrevAfterDelete(w, n);
  }

  lemma PrevAfterDelete(w: World, n: string)
    requires Consistent(w) && n in w.kube.crs && Consistent(Event(w, DeleteProcess(n)))
    ensures PrevOf(Event(w, DeleteProcess(n))) == PrevOf(w) - {n}
  {
  }

  lemma ObserveSound(s: Store, versions: map<string, nat>, n: string, available: int)
    requires Sound(s, versions) && n in s.deployments
    ensures Sound(s.(deployments := s.deployments[n := s.deployments[n].(available := available)]), versions)
  {
  }

  lemma EventSound(e: Env, w: World, step: Step)
    requires SoundWorld(w) && Prudent(e, w, step) && !step.ReconcileRequest?
    ensures Harmless(e, w, step) && SoundWorld(Event(w, step))
  {
    if step.DeleteProcess? && step.name in w.kube.crs {
      ApartUnmounted(w.kube.store, PrevOf(w), step.name);
      DeleteSound(w, step.name);
    } else {
      QuietEventSound(w, step);
    }
  }

  lemma QuietEventSound(w: World, step: Step)
    requires SoundWorld(w) && !step.ReconcileRequest? && (step.DeleteProcess? ==> step.name !in w.kube.crs)
    ensures SoundWorld(Event(w, step))
  {
    EventConsistent(w, step);
    PrevGrows(w, step);
    if step.Observe? && step.name in w.kube.store.deployments {
      ObserveSound(w.kube.store, PrevOf(w), step.name, step.available);
    }
    SoundMonotone(Event(w, step).kube.store, PrevOf(w), PrevOf(Event(w, step)));
  }

  lemma PrevGrows(w: World, step: Step)
    requires Consistent(w) && !step.ReconcileRequest? && (step.DeleteProcess? ==> step.name !in w.kube.crs)
    requires Consistent(Event(w, step))
    ensures forall p | p in PrevOf(w) :: p in PrevOf(Event(w, step)) && PrevOf(w)[p] <= PrevOf(Event(w, step))[p]
  {
    forall p | p in w.kube.crs
      ensures p in Event(w, step).kube.crs
      ensures Event(w, step).kube.crs[p].status.previous == w.kube.crs[p].status.previous
    {
      EventKeepsPrevious(w, step, p);
    }
  }

  lemma EventKeepsPrevious(w: World, step: Step, p: string)
    requires !step.ReconcileRequest? && p in w.kube.crs && (step.DeleteProcess? ==> step.name !in w.kube.crs)
    ensures p in Event(w, step).kube.crs
    ensures Event(w, step).kube.crs[p].status.previous == w.kube.crs[p].status.previous
  {
  }

  lemma NextSound(e: Env, w: World, step: Step)
    requires SoundWorld(w) && Prudent(e, w, step)
    ensures Harmless(e, w, step) && SoundWorld(Next(e, w, step))
  {
    if step.ReconcileRequest? {
      ReconcileCases(e, w, step.name, step.cfg);
      SameStateSound(w, Entered(w));
      if Reaches(e, w, step.name) {
        var sp, upgrade, v := Reached(e, w, step.name), ForConfigMap(e, w, step.name), Entered(w);
        if TimerPass(v, sp) {
          TimerSound(e, v, step.cfg, sp, upgrade);
        } else {
          FoundSound(e, v, step.cfg, sp, upgrade);
        }
        SameStateSound(PassOf(e, w, step.name, step.cfg).world, Next(e, w, step));
      } else {
        SameStateSound(w, Next(e, w, step));
      }
    } else {
      EventSound(e, w, step);
    }
  }

  ghost predicate PrudentRun(e: Env, steps: seq<Step>)
    decreases |steps|
  {
    steps == []
    || (PrudentRun(e, steps[..|steps| - 1]) && Prudent(e, Run(e, steps[..|steps| - 1]), steps[|steps| - 1]))
  }

  /** Prudent steps do no harm, whatever reads, writes and reports fail: the naming scheme of config maps
      and the order of creation and deletion keep every mounted object. */
  lemma {:induction false} RunIntact(e: Env, steps: seq<Step>)
    requires PrudentRun(e, steps)
    ensures SoundWorld(Run(e, steps)) && HarmlessRun(e, steps) && AlwaysIntact(e, steps)
    decreases |steps|
  {
    if steps == [] {
      assert PrevOf(INITIAL) == map[];
    } else {
      RunIntact(e, steps[..|steps| - 1]);
      NextSound(e, Run(e, steps[..|steps| - 1]), steps[|steps| - 1]);
    }
    RunIntactIff(e, steps);
  }

  // ---------------------------------------------------------------- few applications

  /** The Siddhi parser never splits a process into more than `bound` applications. */
  ghost predicate ShortReplies(e: Env, bound: nat) {
    forall n | n in e.replies :: |e.replies[n]| <= bound
  }

  /** Nothing has ever been deployed beyond the bound, orphans included. */
  ghost predicate FewDeployed(w: World, bound: nat) {
    && (forall p | p in w.apps :: |w.apps[p]| <= bound)
    && forall p :: Bounded(p, bound, w.kube.store)
  }

  lemma PopulatedFew(e: Env, cfg: Config, c: Ctl, cache: map<string, seq<Application>>, bound: nat)
    requires ShortReplies(e, bound) && CacheNamed(cache, c.sp.name) && c.sp.status.previous >= 0
    requires Len(cache, c.sp.name) <= bound && Bounded(c.sp.name, bound, c.kube.store)
    ensures var pop := AppsPopulated(e, cfg, c, cache);
            Bounded(c.sp.name, bound, pop.ctl.kube.store) && (pop.apps.Some? ==> |pop.apps.value| <= bound)
  {
    var parsed, n := PopulatedTraced(e, cfg, c, cache);
    TraceBounded(c.sp.name, Parsing, c.kube, parsed, bound);
    TraceBounded(c.sp.name, Cleaning(n, Len(cache, c.sp.name), c.sp.status.previous), parsed,
                 AppsPopulated(e, cfg, c, cache).ctl.kube, bound);
    RepliesFew(e, cfg, c.kube, c.sp, bound);
  }

  lemma RepliesFew(e: Env, cfg: Config, k: Kube, sp: SiddhiProcess, bound: nat)
    requires ShortReplies(e, bound)
    ensures var r := ProcessParsed(e, cfg, k, sp); r.apps.Some? ==> |r.apps.value| <= bound
  {
  }

  lemma ConcludedFew(e: Env, w: World, listeners: map<string, Listener>, cfg: Config, c: Ctl, bound: nat)
    requires ShortReplies(e, bound) && CacheNamed(w.apps, c.sp.name)
    requires c.sp.status.previous >= 0 && c.sp.status.current >= 0
    requires Len(w.apps, c.sp.name) <= bound && Bounded(c.sp.name, bound, c.kube.store)
    ensures Bounded(c.sp.name, bound, Concluded(e, w, listeners, cfg, c).world.kube.store)
    ensures Len(Concluded(e, w, listeners, cfg, c).world.apps, c.sp.name) <= bound
  {
    PopulatedFew(e, cfg, c, w.apps, bound);
    var pop := AppsPopulated(e, cfg, c, w.apps);
    if pop.apps.Some? {
      var _, _ := PopulatedTraced(e, cfg, c, w.apps);
      PopulatedLen(e, w, listeners, cfg, c);
      AppliedFew(e, CachesPopulated(w, listeners, cfg, c.sp, pop), cfg, pop.ctl, pop.apps.value, bound);
    }
  }

  lemma AppliedFew(e: Env, w: World, cfg: Config, c: Ctl, apps: seq<Application>, bound: nat)
    requires Named(c.sp.name, apps) && c.sp.status.current >= 0
    requires |apps| <= bound && Bounded(c.sp.name, bound, c.kube.store)
    ensures var r := AppsApplied(e, w, cfg, c, apps).world;
            r.apps == w.apps && Bounded(c.sp.name, bound, r.kube.store)
  {
    AppliedTraced(e, w, cfg, c, apps);
    TraceBounded(c.sp.name, Rolling(|apps|, c.sp.status.current), c.kube, AppsApplied(e, w, cfg, c, apps).world.kube,
                 bound);
  }

  lemma AdvancedFew(e: Env, w: World, cfg: Config, sp: SiddhiProcess, upgrade: bool, bound: nat)
    requires ShortReplies(e, bound) && Consistent(w) && sp.name in w.kube.crs && w.kube.crs[sp.name] == sp
    requires Len(w.apps, sp.name) <= bound && Bounded(sp.name, bound, w.kube.store)
    ensures Bounded(sp.name, bound, Advanced(e, w, cfg, sp, upgrade).world.kube.store)
    ensures Len(Advanced(e, w, cfg, sp, upgrade).world.apps, sp.name) <= bound
  {
    PreparedKeeps(e, w, cfg, sp, upgrade);
    var g := AllAppsRead(e, w, Opened(e, w, sp, upgrade));
    if !g.err {
      ConcludedFew(e, w, g.listeners, cfg, Prepared(e, w, cfg, sp, upgrade), bound);
    }
  }

  lemma FoundFew(e: Env, w: World, cfg: Config, sp: SiddhiProcess, upgrade: bool, bound: nat)
    requires ShortReplies(e, bound) && Consistent(w) && sp.name in w.kube.crs && w.kube.crs[sp.name] == sp
    requires FewDeployed(w, bound)
    ensures var w' := Found(e, w, cfg, sp, upgrade).world;
            && (forall p | p in w'.apps :: |w'.apps[p]| <= bound) && Bounded(sp.name, bound, w'.kube.store)
  {
    if TimerPass(w, sp) {
      TimerKeeps(e, w, cfg, sp, upgrade);
    } else {
      AdvancedFew(e, w, cfg, sp, upgrade, bound);
      var _ := AdvancedCaches(e, w, cfg, sp, upgrade);
    }
  }

  lemma NextFew(e: Env, w: World, step: Step, bound: nat)
    requires ShortReplies(e, bound) && Consistent(w) && FewDeployed(w, bound)
    ensures FewDeployed(Next(e, w, step), bound)
  {
    var w' := Next(e, w, step);
    if step.ReconcileRequest? {
      ReconcileCases(e, w, step.name, step.cfg);
      if Reaches(e, w, step.name) {
        FoundFew(e, Entered(w), step.cfg, Reached(e, w, step.name), ForConfigMap(e, w, step.name), bound);
        ReconcileIsolated(e, w, step.name, step.cfg);
        assert History(w'.kube)[|w'.kube.past|] == w'.kube.store;
        forall q | q != Target(e, w, step.name) ensures Bounded(q, bound, w'.kube.store) {
          UntouchedBounded(Target(e, w, step.name), q, bound, w.kube.store, w'.kube.store);
        }
      }
    } else {
      EventFew(w, step, bound);
    }
  }

  lemma EventFew(w: World, step: Step, bound: nat)
    requires FewDeployed(w, bound) && !step.ReconcileRequest?
    ensures FewDeployed(Event(w, step), bound)
  {
    var w' := Event(w, step);
    EventNames(w, step);
    forall p ensures Bounded(p, bound, w'.kube.store) {
      assert Bounded(p, bound, w.kube.store);
      SameNamesBounded(p, bound, w.kube.store, w'.kube.store);
    }
  }

  lemma EventNames(w: World, step: Step)
    requires !step.ReconcileRequest?
    ensures var s, t := w.kube.store, Event(w, step).kube.store;
            t.deployments.Keys <= s.deployments.Keys && t.services.Keys <= s.services.Keys
            && t.claims.Keys <= s.claims.Keys
  {
  }

  lemma {:induction false} RunFew(e: Env, steps: seq<Step>, bound: nat)
    requires ShortReplies(e, bound)
    ensures FewDeployed(Run(e, steps), bound)
    decreases |steps|
  {
    if steps != [] {
      RunFew(e, steps[..|steps| - 1], bound);
      RunConsistent(e, steps[..|steps| - 1]);
      NextFew(e, Run(e, steps[..|steps| - 1]), steps[|steps| - 1], bound);
    }
  }

  predicate HeedingRun(e: Env, steps: seq<Step>)
    decreases |steps|
  {
    steps == [] || (HeedingRun(e, steps[..|steps| - 1]) && Heeds(e, Run(e, steps[..|steps| - 1]), steps[|steps| - 1]))
  }

  lemma FewAppsPrudent(e: Env, init: seq<Step>, step: Step)
    requires SoundWorld(Run(e, init)) && NamesApart(init) && ShortReplies(e, 10) && Heeds(e, Run(e, init), step)
    ensures Prudent(e, Run(e, init), step)
  {
    var w := Run(e, init);
    match step
    case ReconcileRequest(request, cfg) =>
      if Reaches(e, w, request) {
        RunFew(e, init, 10);
        FewAppsNotEntangled(Target(e, w, request), w.kube.store, PrevOf(w));
      }
    case DeleteProcess(p) =>
      if p in w.kube.crs {
        forall q | q in w.kube.crs && q != p ensures Apart(p, q) {
          RunCreated(e, init, p);
          RunCreated(e, init, q);
        }
      }
    case _ =>
  }

  /** Integrity in terms of names and calls: it holds in every run in which no process is split into more
      than ten applications, no process is named like an application of another, no pass loses its
      version, and no removal fails to see a deployment. */
  lemma {:induction false} RunIntactFewApps(e: Env, steps: seq<Step>)
    requires NamesApart(steps) && ShortReplies(e, 10) && HeedingRun(e, steps)
    ensures PrudentRun(e, steps) && AlwaysIntact(e, steps)
    decreases |steps|
  {
    if steps != [] {
      var init, step := steps[..|steps| - 1], steps[|steps| - 1];
      assert steps == init + [step];
      forall p, q | EverCreated(init, p) && EverCreated(init, q) && p != q ensures Apart(p, q) {
        CreatedMonotone(init, step, p);
        CreatedMonotone(init, step, q);
      }
      RunIntactFewApps(e, init);
      RunIntact(e, init);
      FewAppsPrudent(e, init, step);
    }
    RunIntact(e, steps);
  }

  /** Every run heeds both while lookups before deletions succeed and synchronisations, or else all other
      status updates, are stored. */
  lemma {:induction false} SeeingRunHeeds(e: Env, steps: seq<Step>)
    requires e.failedLookups == {} && (e.failedSyncs == {} || e.failedStatus == {})
    ensures HeedingRun(e, steps)
    decreases |steps|
  {
    if steps != [] {
      var init := steps[..|steps| - 1];
      SeeingRunHeeds(e, init);
      RunConsistent(e, init);
      SeeingStepHeeds(e, Run(e, init), steps[|steps| - 1]);
    }
  }

  lemma SeeingStepHeeds(e: Env, w: World, step: Step)
    requires e.failedLookups == {} && (e.failedSyncs == {} || e.failedStatus == {}) && Consistent(w)
    ensures Heeds(e, w, step)
  {
    StoredLosesNothing(e, w, step);
    if step.ReconcileRequest? && Reaches(e, w, step.name) {
      var v := Entered(w);
      var d := Prepared(e, v, step.cfg, Reached(e, w, step.name), ForConfigMap(e, w, step.name));
      var r := ProcessParsed(e, step.cfg, d.kube, d.sp);
      if r.apps.Some? {
        SeesWithoutFaults(e, d.(kube := r.kube), |r.apps.value|, Len(v.apps, d.sp.name));
      }
    }
  }
}
