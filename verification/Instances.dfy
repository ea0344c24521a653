/** Runs from the empty cluster that show what single lost calls lead to. */
module Instances {
  import opened SiddhiTypes
  import opened SpecEquality
  import opened Names
  import opened AppConfigs
  import opened Cluster
  import opened Deployments
  import opened Controller
  import opened ParserLifecycle
  import opened Operator
  import opened Moves
  import opened Isolation
  import opened Integrity
  import opened Removals
  import opened Passes
  import opened Runs
  import opened Protocol
  import opened Orphans
  import opened StrayParsers

  const SETTINGS := Config("runner", "", false, "", true)

  const PLAIN := Spec([], "", Container("", []), Messaging("", "", []), EMPTY_CLAIM, "")

  // ---------------------------------------------------------------- the parser

  /** No read and no write of the operator fails. */
  predicate Smooth(e: Env) {
    e.failedReads == {} && e.failedWrites == {}
  }

  /** Deployment and service of the parser are created with four calls. */
  lemma ParserStarts(e: Env, k: Kube, sp: SiddhiProcess)
    requires Smooth(e) && ParserGone(sp.name, k.store) && sp.spec.siddhiConfig == ""
    ensures var k', n := ParserDeployed(e, SETTINGS, k, sp), ParserName(sp.name);
            && k'.calls == k.calls + 4 && SameRecords(k, k')
            && n !in k.store.deployments && k'.store.deployments.Keys == k.store.deployments.Keys + {n}
            && k'.store.deployments - {n} == k.store.deployments
            && n !in k.store.services && k'.store.services.Keys == k.store.services.Keys + {n}
            && k'.store.services - {n} == k.store.services
            && k'.store.configMaps == k.store.configMaps
            && k'.store.claims == k.store.claims && k'.store.ingress == k.store.ingress
  {
    var a := ParserApp(sp.name);
    assert Stage(e, k, a, sp) == Staged(k, false, []);
  }

  /** A parser that answers leaves the cluster as it was, after nine calls. */
  lemma ParserAnswers(e: Env, k: Kube, sp: SiddhiProcess)
    requires Smooth(e) && ParserGone(sp.name, k.store) && sp.spec.siddhiConfig == ""
    requires k.calls + 4 in e.replies && Applications(sp.name, e.appNames, e.replies[k.calls + 4]).Some?
    requires k.calls + 5 !in e.failedLookups && k.calls + 7 !in e.failedLookups
    ensures var r := ProcessParsed(e, SETTINGS, k, sp);
            && r.apps == Applications(sp.name, e.appNames, e.replies[k.calls + 4])
            && r.kube.calls == k.calls + 9 && SameRecords(k, r.kube) && r.kube.store == k.store
  {
    ParserStarts(e, k, sp);
    var k1, n := Tick(ParserDeployed(e, SETTINGS, k, sp)), ParserName(sp.name);
    var d := Delete(e, k1, sp.name, DropDeployment(n));
    assert d.kube.calls == k.calls + 7 && d.kube.store == k1.store.(deployments := k.store.deployments);
    var s := Delete(e, d.kube, sp.name, DropService(n));
    assert s.kube.calls == k.calls + 9 && s.kube.store == k.store;
  }

  // ---------------------------------------------------------------- a stateless application

  lemma CreatedWithTwoCalls(e: Env, k: Kube, owner: string, eff: Effect)
    requires Smooth(e) && !Exists(k.store, eff)
    ensures var r := CreateOrUpdate(e, k, owner, eff);
            && !r.err && r.op == Created && r.kube.store == Perform(k.store, owner, eff)
            && r.kube.calls == k.calls + 2 && SameRecords(k, r.kube)
  {
  }

  /** An application with Siddhi files and nothing else. */
  predicate Stateless(a: Application) {
    a.apps != map[] && !a.persistenceEnabled && !a.serviceEnabled
  }

  lemma StatelessStage(e: Env, k: Kube, a: Application, sp: SiddhiProcess)
    requires Smooth(e) && Stateless(a) && sp.spec.siddhiConfig == "" && AppsConfigOf(a, sp) !in k.store.configMaps
    ensures var s, n := Stage(e, k, a, sp), AppsConfigOf(a, sp);
            && !s.err && s.volumes == [ConfigVolume(n)]
            && s.kube.calls == k.calls + 3 && SameRecords(k, s.kube)
            && s.kube.store == Perform(k.store, sp.name, PutConfig(n, AppsData(a.apps)))
  {
    CreatedWithTwoCalls(e, Tick(k), sp.name, PutConfig(AppsConfigOf(a, sp), AppsData(a.apps)));
  }

  /** The deployment of `a` mounts the config map of `a`. */
  predicate RunsApp(a: Application, sp: SiddhiProcess, s: Store) {
    && a.name in s.deployments && ConfigVolume(AppsConfigOf(a, sp)) in s.deployments[a.name].template.volumes
    && s.deployments[a.name].replicas == a.replicas
    && AppsConfigOf(a, sp) in s.configMaps
  }

  lemma StatelessDeployed(e: Env, k: Kube, a: Application, sp: SiddhiProcess)
    requires Smooth(e) && Stateless(a) && sp.spec.siddhiConfig == "" && k.store == EMPTY_STORE
    ensures var d := Deployed(e, SETTINGS, k, a, sp);
            && !d.err && d.op == Created && d.kube.calls == k.calls + 5 && SameRecords(k, d.kube)
            && RunsOnly(a, sp, d.kube.store)
  {
    StatelessStage(e, k, a, sp);
    var s := Stage(e, k, a, sp);
    CreatedWithTwoCalls(e, s.kube, sp.name, PutDeployment(a.name, a.replicas, TemplateOf(SETTINGS, a, sp, s.volumes)));
  }

  // ---------------------------------------------------------------- passes with one application

  /** Process `p` alone in the cluster, with nothing that the operator does not know of. */
  predicate Alone(w: World, p: string, spec: Spec) {
    && w.kube.crs.Keys == {p} && w.kube.crs[p].name == p && w.kube.crs[p].spec == spec
    && w.userConfigs == map[] && spec.apps == [] && spec.siddhiConfig == "" && spec.messaging.typ == ""
  }

  predicate StoresStatus(e: Env) {
    e.failedStatus == {} && e.failedSyncs == {}
  }

  lemma OpenedPending(e: Env, w: World, p: string)
    requires w.kube.calls !in e.failedStatus
    requires Alone(w, p, PLAIN) && w.kube.crs[p].status == Status(Unset, "", 0, 0, NoEvent, [])
    ensures var d := Prepared(e, w, SETTINGS, w.kube.crs[p], false);
            && d.sp == w.kube.crs[p].(status := Status(Pending, "", 0, 0, NoEvent, []))
            && d.kube == w.kube.(crs := map[p := d.sp], calls := w.kube.calls + 1, stored := w.kube.stored + 1)
            && AllAppsRead(e, w, Opened(e, w, w.kube.crs[p], false)) == AppsRead(d.kube, w.listeners, false)
  {
  }

  /** The rollout of a single stateless application at version 0, with nine calls. */
  lemma SingleApplied(e: Env, w: World, c: Ctl, a: Application)
    requires Smooth(e) && StoresStatus(e) && Stateless(a) && c.kube.store == EMPTY_STORE
    requires c.sp.spec == PLAIN && c.kube.crs == map[c.sp.name := c.sp]
    requires c.sp.status == Status(Pending, "", 0, 0, NoEvent, [])
    ensures var r, p := AppsApplied(e, w, SETTINGS, c, [a]), c.sp.name;
            && r.outcome == Completed && r.world == w.(kube := r.world.kube) && r.world.kube.calls == c.kube.calls + 10
            && r.world.kube.crs.Keys == {p} && r.world.kube.crs[p].spec == PLAIN && r.world.kube.crs[p].name == p
            && var s := r.world.kube.crs[p].status;
               s.current == s.previous == 0 && s.eventType == NoEvent && s.phase == Pending
    ensures RunsOnly(a, c.sp, AppsApplied(e, w, SETTINGS, c, [a]).world.kube.store)
  {
    var c1 := ReportPartialApps(e, c, [a]);
    StatelessDeployed(e, c1.kube, a, c1.sp);
    var c2 := RolledOut(e, SETTINGS, Created, c1, a);
    assert RolledOutUpTo(e, SETTINGS, Created, c1, [a], 0) == c1;
    assert RolledOutUpTo(e, SETTINGS, Created, c1, [a], 1) == c2;
    var c3 := ArtifactsCreated(e, SETTINGS, c, [a]);
    assert c3.kube.store == c2.kube.store && c3.kube.calls == c2.kube.calls + 2;
    assert RescaledUpTo(e, c3, [a], 0) == c3;
    assert RescaledUpTo(e, c3, [a], 1) == Rescaled(e, c3, a);
  }

  /** The deployment and the config map of `a` are all that there is. */
  predicate RunsOnly(a: Application, sp: SiddhiProcess, s: Store) {
    && RunsApp(a, sp, s)
    && s == EMPTY_STORE.(deployments := s.deployments, configMaps := s.configMaps)
    && s.deployments.Keys == {a.name} && s.configMaps.Keys == {AppsConfigOf(a, sp)}
  }

  /** The first pass of a process with one application. */
  lemma FirstPass(e: Env, w: World, p: string, a: Application)
    requires Smooth(e) && StoresStatus(e) && Stateless(a) && a.name == AppName(p, 0)
    requires Alone(w, p, PLAIN) && w.kube.crs[p].status == Status(Unset, "", 0, 0, NoEvent, [])
    requires w.kube.store == EMPTY_STORE && w.kube.calls == 0 && w.apps == map[]
    requires 7 in e.replies && Applications(p, e.appNames, e.replies[7]) == Some([a])
    requires 8 !in e.failedLookups && 10 !in e.failedLookups
    ensures var w' := Reconcile(e, w, p, SETTINGS).world;
            && Alone(w', p, PLAIN) && w'.apps == map[p := [a]] && w'.kube.calls == 22 && w'.rollouts == w.rollouts
            && var s := w'.kube.crs[p].status;
               s.current == s.previous == 0 && s.eventType == NoEvent && s.phase == Pending
    ensures var k := Reconcile(e, w, p, SETTINGS).world.kube; RunsOnly(a, k.crs[p], k.store)
  {
    var v := Entered(w);
    assert !ForConfigMap(e, w, p) && Reaches(e, w, p);
    OpenedPending(e, v, p);
    var d := Prepared(e, v, SETTINGS, w.kube.crs[p], false);
    ParserAnswers(e, d.kube, d.sp);
    var pop := AppsPopulated(e, SETTINGS, d, v.apps);
    assert pop.apps == Some([a]) && pop.parsed && pop.ctl.kube.calls == 12;
    SingleApplied(e, CachesPopulated(v, v.listeners, SETTINGS, d.sp, pop), pop.ctl, a);
  }

  // ---------------------------------------------------------------- one failed lookup

  const SHRUNK := PLAIN.(imagePullSecret := "x")

  /** The removal of the only application when its deployment is looked up in vain. */
  lemma BlindlyRemoved(e: Env, c: Ctl, a: Application)
    requires Smooth(e) && e.failedLookups == {c.kube.calls} && c.sp.status.previous == 0
    requires a.name == AppName(c.sp.name, 0) && c.kube.store.configMaps.Keys == {AppsConfigName(a.name, 0)}
    ensures var r := ArtifactsCleaned(e, c, 1, 0);
            && !r.err && r.ctl.sp == c.sp
            && r.ctl.kube.store.deployments == c.kube.store.deployments && r.ctl.kube.store.configMaps == map[]
  {
    assert RemovedUpTo(e, c, 0, 0) == Cleaned(c, false);
    assert RemovedUpTo(e, c, 0, 1) == AppRemoved(e, c, 0);
    StopEffect(e, c, 0);
    RemovalSucceeds(e, c, 0);
    var c1 := AppStopped(e, c, 0).ctl;
    assert c1.kube.calls > c.kube.calls;
    ReleaseEffect(e, c1, 0);
  }

  lemma OpenedShrunk(e: Env, w: World, p: string)
    requires w.kube.calls !in e.failedStatus && Alone(w, p, SHRUNK)
    requires var s := w.kube.crs[p].status; s.current == 1 && s.previous == 0
    ensures var sp := w.kube.crs[p];
            var d := Prepared(e, w, SETTINGS, sp, false);
            && d.sp == sp.(status := sp.status.(phase := NotReady)) && d.kube.crs == map[p := d.sp]
            && d.kube.calls == w.kube.calls + 1 && d.kube.store == w.kube.store
            && AllAppsRead(e, w, Opened(e, w, sp, false)) == AppsRead(d.kube, w.listeners, false)
  {
  }

  lemma NothingApplied(e: Env, w: World, c: Ctl)
    requires c.sp.spec == SHRUNK
    ensures var w' := AppsApplied(e, w, SETTINGS, c, []).world; w'.kube.store == c.kube.store && w'.apps == w.apps
  {
  }

  /** The second parsing finds no applications, and the only one is removed. */
  lemma ShrunkPopulated(e: Env, c: Ctl, a: Application)
    requires Smooth(e) && e.failedLookups == {34} && c.kube.calls == 25 && 29 in e.replies && e.replies[29] == []
    requires c.sp.spec == SHRUNK && c.sp.status.current == 1 && c.sp.status.previous == 0
    requires a.name == AppName(c.sp.name, 0) && OnlyApp(a, c.kube.store)
    ensures var pop := AppsPopulated(e, SETTINGS, c, map[c.sp.name := [a]]);
            && pop.apps == Some([]) && pop.parsed && pop.ctl.sp == c.sp
            && pop.ctl.kube.store.deployments == c.kube.store.deployments
            && pop.ctl.kube.store.configMaps == map[]
  {
    AppIsNotParser(c.sp.name, 0, c.sp.name);
    ParserAnswers(e, c.kube, c.sp);
    BlindlyRemoved(e, c.(kube := ProcessParsed(e, SETTINGS, c.kube, c.sp).kube), a);
  }

  /** The deployment and the first config map of `a`, with any contents. */
  predicate OnlyApp(a: Application, s: Store) {
    s.deployments.Keys == {a.name} && s.services == map[] && s.configMaps.Keys == {AppsConfigName(a.name, 0)}
  }

  lemma ShrunkAdvanced(e: Env, w: World, p: string, a: Application)
    requires Smooth(e) && StoresStatus(e) && e.failedLookups == {34} && 29 in e.replies && e.replies[29] == []
    requires Alone(w, p, SHRUNK) && w.kube.calls == 24 && w.apps == map[p := [a]]
    requires w.kube.crs[p].status.current == 1 && w.kube.crs[p].status.previous == 0
    requires a.name == AppName(p, 0) && OnlyApp(a, w.kube.store)
    ensures var w' := Advanced(e, w, SETTINGS, w.kube.crs[p], false).world;
            && w'.apps == map[p := []] && w'.kube.store.deployments == w.kube.store.deployments
            && w'.kube.store.configMaps == map[]
  {
    OpenedShrunk(e, w, p);
    var d := Prepared(e, w, SETTINGS, w.kube.crs[p], false);
    ShrunkPopulated(e, d, a);
    var pop := AppsPopulated(e, SETTINGS, d, w.apps);
    ShrunkConcluded(e, w, d, pop);
  }

  lemma ShrunkConcluded(e: Env, w: World, d: Ctl, pop: Populated)
    requires pop == AppsPopulated(e, SETTINGS, d, w.apps) && pop.apps == Some([]) && pop.parsed
    requires d.sp.spec == SHRUNK && pop.ctl.sp == d.sp && w.apps.Keys == {d.sp.name}
    ensures var w' := Concluded(e, w, w.listeners, SETTINGS, d).world;
            w'.kube.store == pop.ctl.kube.store && w'.apps == map[d.sp.name := []]
  {
    NothingApplied(e, CachesPopulated(w, w.listeners, SETTINGS, d.sp, pop), pop.ctl);
  }

  /** The second pass forgets the only application and leaves its deployment. */
  lemma SecondPass(e: Env, w: World, p: string, a: Application)
    requires Smooth(e) && StoresStatus(e) && e.failedLookups == {34} && 29 in e.replies && e.replies[29] == []
    requires Alone(w, p, SHRUNK) && w.kube.calls == 22 && w.apps == map[p := [a]]
    requires var s := w.kube.crs[p].status; s.current == 1 && s.previous == 0 && s.eventType == UpdateEvent
    requires a.name == AppName(p, 0) && OnlyApp(a, w.kube.store)
    ensures var w' := Reconcile(e, w, p, SETTINGS).world;
            && w'.apps == map[p := []] && w'.kube.store.deployments == w.kube.store.deployments
            && w'.kube.store.configMaps == map[]
  {
    assert |AppsConfigName(a.name, 0)| > |p|;
    assert !ForConfigMap(e, w, p) && Reaches(e, w, p) && !TimerPass(Entered(w), w.kube.crs[p]);
    ShrunkAdvanced(e, Entered(w), p, a);
  }

  /** Only one call fails: the lookup of a deployment that has to go. */
  const BLIND := Env({}, {34}, {}, {}, {}, {}, map[7 := [AppConfig("s", [], false, 1)], 29 := []], map["s" := "n"], {})

  /** A process with one application, which its next version no longer has. */
  function Shrinking(p: string): seq<Step> {
    [CreateProcess(p, PLAIN), ReconcileRequest(p, SETTINGS), UpdateProcess(p, SHRUNK), ReconcileRequest(p, SETTINGS)]
  }

  lemma SingleAnswer(p: string, appNames: map<string, string>, c: AppConfig) returns (a: Application)
    requires c.siddhiApp in appNames && c.deploymentConfigs == [] && !c.persistenceEnabled
    ensures Stateless(a) && a.name == AppName(p, 0) && Applications(p, appNames, [c]) == Some([a])
  {
    a := ApplicationOf(p, 0, c, appNames[c.siddhiApp]);
    assert ServicePorts(c.deploymentConfigs) == [];
    assert appNames[c.siddhiApp] in a.apps;
    ApplicationsStep(p, appNames, [c], 0, []);
    assert [] + [a] == [a];
  }

  lemma RunStep(e: Env, steps: seq<Step>, step: Step)
    ensures Run(e, steps + [step]) == Next(e, Run(e, steps), step)
  {
    assert (steps + [step])[..|steps|] == steps;
  }

  /** The world in which process `p` has just been created. */
  function Started(p: string, spec: Spec): World {
    INITIAL.(kube := INITIAL.kube.(crs := map[p := NewProcess(p, spec)]), rollouts := map[p := []])
  }

  lemma CreatedWorld(e: Env, p: string, spec: Spec)
    ensures Run(e, [CreateProcess(p, spec)]) == Started(p, spec)
  {
    RunStep(e, [], CreateProcess(p, spec));
    assert [] + [CreateProcess(p, spec)] == [CreateProcess(p, spec)];
  }

  lemma ShrinkingWorld(e: Env, p: string)
    ensures var w2 := Reconcile(e, Started(p, PLAIN), p, SETTINGS).world;
            Run(e, Shrinking(p)) == Reconcile(e, Event(w2, UpdateProcess(p, SHRUNK)), p, SETTINGS).world
  {
    var s := Shrinking(p);
    CreatedWorld(e, p, PLAIN);
    RunStep(e, s[..1], s[1]);
    RunStep(e, s[..2], s[2]);
    RunStep(e, s[..3], s[3]);
    assert s[..1] == [s[0]] && s[..1] + [s[1]] == s[..2] && s[..2] + [s[2]] == s[..3] && s[..3] + [s[3]] == s;
  }

  lemma ShrinkingUpdate(w: World, p: string)
    requires Alone(w, p, PLAIN) && w.kube.crs[p].status.current == w.kube.crs[p].status.previous == 0
    ensures var w' := Event(w, UpdateProcess(p, SHRUNK));
            && Alone(w', p, SHRUNK) && w' == w.(kube := w.kube.(crs := w'.kube.crs))
            && var s := w'.kube.crs[p].status; s.current == 1 && s.previous == 0 && s.eventType == UpdateEvent
  {
  }

  /** One failed lookup is enough: for every process name this run of four steps ends with a deployment that
      belongs to no application and mounts a config map that is not there. */
  lemma BlindRun(p: string)
    ensures var w := Run(BLIND, Shrinking(p)); !NoOrphans(w) && !Intact(w.kube.store)
  {
    var a := SingleAnswer(p, BLIND.appNames, AppConfig("s", [], false, 1));
    ShrinkingWorld(BLIND, p);
    FirstPass(BLIND, Started(p, PLAIN), p, a);
    var w2 := Reconcile(BLIND, Started(p, PLAIN), p, SETTINGS).world;
    ShrinkingUpdate(w2, p);
    SecondPass(BLIND, Event(w2, UpdateProcess(p, SHRUNK)), p, a);
    OrphanLeft(Run(BLIND, Shrinking(p)), p, a, w2);
  }

  lemma OrphanLeft(w: World, p: string, a: Application, before: World)
    requires p in before.kube.crs && RunsApp(a, before.kube.crs[p], before.kube.store) && a.name == AppName(p, 0)
    requires w.apps == map[p := []] && w.kube.store.deployments == before.kube.store.deployments
    requires w.kube.store.configMaps == map[]
    ensures !NoOrphans(w) && !Intact(w.kube.store)
  {
    assert !Absent(p, 0, w.kube.store);
    assert !Bounded(p, Len(w.apps, p), w.kube.store);
    assert !Present(w.kube.store, ConfigVolume(AppsConfigOf(a, before.kube.crs[p])));
  }

  // ---------------------------------------------------------------- a lost upgrade

  /** A process that mounts the user config map `c`. */
  function Listening(c: string): Spec {
    PLAIN.(apps := [AppRef(c, "")])
  }

  /** The first parsing answers without applications, the second one not at all; the upgrade and the report
      of that error are lost. */
  const LOSSY := Env({}, {}, {}, {25}, {}, {18}, map[8 := []], map[], {})

  /** A config map changes after its process has been set up. */
  function Changing(p: string, c: string): seq<Step> {
    [PutUserConfig(c, map[]), CreateProcess(p, Listening(c)), ReconcileRequest(p, SETTINGS),
     PutUserConfig(c, map[]), ReconcileRequest(c, SETTINGS)]
  }

  /** Process `p` alone, with config map `c` and without an application. */
  predicate AloneWith(w: World, p: string, c: string, status: Status) {
    && w.kube.crs == map[p := SiddhiProcess(p, Listening(c), status)]
    && w.userConfigs.Keys == {c} && w.kube.store == EMPTY_STORE && p != c && c != ""
  }

  lemma ListeningOpened(e: Env, w: World, p: string, c: string)
    requires Smooth(e) && w.kube.calls !in e.failedStatus && AloneWith(w, p, c, Status(Unset, "", 0, 0, NoEvent, []))
    ensures var sp := w.kube.crs[p];
            var d := Prepared(e, w, SETTINGS, sp, false);
            && d.sp == sp.(status := Status(Pending, "", 0, 0, NoEvent, []))
            && d.kube == w.kube.(crs := map[p := d.sp], calls := w.kube.calls + 2, stored := w.kube.stored + 1)
            && AllAppsRead(e, w, Opened(e, w, sp, false))
               == AppsRead(d.kube, w.listeners[c := Listener(p, false)], false)
  {
    var d := Opened(e, w, w.kube.crs[p], false);
    var refs := d.sp.spec.apps;
    assert AppsReadUpTo(e, w.userConfigs, AppsRead(d.kube, w.listeners, false), p, refs, 0)
           == AppsRead(d.kube, w.listeners, false);
    assert refs[0].configMap == c && |refs| == 0 + 1;
  }

  lemma NoApplications(p: string, appNames: map<string, string>)
    ensures Applications(p, appNames, []) == Some([])
  {
  }

  lemma EmptyApplied(e: Env, w: World, c: Ctl)
    requires c.sp.spec.messaging.typ == "" && c.sp.status.current == 0 && c.kube.crs == map[c.sp.name := c.sp]
    requires forall i :: c.kube.calls <= i < c.kube.calls + 3 ==> i !in e.failedStatus && i !in e.failedSyncs
    ensures var r := AppsApplied(e, w, SETTINGS, c, []);
            && r.world == w.(kube := r.world.kube) && r.world.kube.calls == c.kube.calls + 3
            && r.world.kube.store == c.kube.store
            && r.world.kube.crs ==
               map[c.sp.name := c.sp.(status := c.sp.status.(ready := ReadyText(0, 0), previous := 0,
                                                             partialApps := []))]
  {
    assert PartialApps([]) == [];
  }

  /** The first pass of a process that mounts a config map and has no applications. */
  lemma ListeningPass(e: Env, w: World, p: string, c: string)
    requires Smooth(e) && e.failedStatus == {25} && e.failedSyncs == {} && e.failedLookups == {}
    requires AloneWith(w, p, c, Status(Unset, "", 0, 0, NoEvent, [])) && w.kube.calls == 0 && w.apps == map[]
    requires 8 in e.replies && e.replies[8] == []
    ensures var w' := Reconcile(e, w, p, SETTINGS).world;
            && AloneWith(w', p, c, Status(Pending, ReadyText(0, 0), 0, 0, NoEvent, [])) && w'.kube.calls == 16
            && w'.apps == map[p := []] && w'.listeners == w.listeners[c := Listener(p, false)]
  {
    var v := Entered(w);
    assert !ForConfigMap(e, w, p) && Reaches(e, w, p);
    ListeningOpened(e, v, p, c);
    var d := Prepared(e, v, SETTINGS, w.kube.crs[p], false);
    NoApplications(p, e.appNames);
    ParserAnswers(e, d.kube, d.sp);
    var pop := AppsPopulated(e, SETTINGS, d, v.apps);
    assert pop.apps == Some([]) && pop.parsed && pop.ctl.kube.calls == 13;
    EmptyApplied(e, CachesPopulated(v, v.listeners[c := Listener(p, false)], SETTINGS, d.sp, pop), pop.ctl);
  }

  /** Where the calls of the second pass fall. */
  lemma LossyCalls(e: Env, w: World, p: string, c: string, status: Status)
    requires Smooth(e) && e.failedUpgrades == {18} && w.kube.calls == 18 && AloneWith(w, p, c, status)
    requires status.current == status.previous == 0 && status.phase == Pending && e.replies.Keys == {8}
    ensures var sp := w.kube.crs[p];
            var d := Prepared(e, w, SETTINGS, sp, true);
            && Opened(e, w, sp, false).kube.calls == 18
            && !AllAppsRead(e, w, Opened(e, w, sp, true)).err
            && ParserDeployed(e, SETTINGS, d.kube, d.sp).calls == 24
            && AppsPopulated(e, SETTINGS, d, w.apps).ctl.kube.calls == 25
  {
    var sp := w.kube.crs[p];
    var d := Opened(e, w, sp, true);
    assert d.kube.calls == 19 && d.kube.store == EMPTY_STORE;
    var refs := d.sp.spec.apps;
    assert AppsReadUpTo(e, w.userConfigs, AppsRead(d.kube, w.listeners, false), p, refs, 0)
           == AppsRead(d.kube, w.listeners, false);
    assert refs[0].configMap == c && |refs| == 0 + 1;
    var d' := Prepared(e, w, SETTINGS, sp, true);
    assert d'.kube.calls == 20;
    ParserStarts(e, d'.kube, d'.sp);
  }

  /** The second pass, for the config map. */
  lemma LossyPass(e: Env, w: World, p: string, c: string, status: Status)
    requires Smooth(e) && e.failedUpgrades == {18} && e.failedStatus == {25} && e.replies.Keys == {8}
    requires Consistent(w) && w.kube.calls == 16 && AloneWith(w, p, c, status) && p in w.apps
    requires c in w.listeners && w.listeners[c].process == p
    requires status.current == status.previous == 0 && status.phase == Pending && status.eventType == NoEvent
    ensures var w' := Reconcile(e, w, c, SETTINGS).world; Settled(w', p) && !ParserGone(p, w'.kube.store)
  {
    var v := Entered(w);
    assert ForConfigMap(e, w, c) && Target(e, w, c) == p && Reaches(e, w, c);
    LossyCalls(e, v, p, c, status);
    LostUpgradeLeaksParser(e, v, SETTINGS, w.kube.crs[p]);
    ReconcileCases(e, w, c, SETTINGS);
  }

  lemma ChangingWorld(e: Env, p: string, c: string)
    ensures var w0 := Event(INITIAL, PutUserConfig(c, map[]));
            var w1 := Event(w0, CreateProcess(p, Listening(c)));
            var w2 := Event(Reconcile(e, w1, p, SETTINGS).world, PutUserConfig(c, map[]));
            Run(e, Changing(p, c)[..4]) == w2 && Run(e, Changing(p, c)) == Reconcile(e, w2, c, SETTINGS).world
  {
    var s := Changing(p, c);
    RunStep(e, [], s[0]);
    RunStep(e, s[..1], s[1]);
    RunStep(e, s[..2], s[2]);
    RunStep(e, s[..3], s[3]);
    RunStep(e, s[..4], s[4]);
    assert [] + [s[0]] == s[..1] && s[..1] + [s[1]] == s[..2] && s[..2] + [s[2]] == s[..3];
    assert s[..3] + [s[3]] == s[..4] && s[..4] + [s[4]] == s;
  }

  lemma ChangedConfig(w: World, p: string, c: string, status: Status)
    requires AloneWith(w, p, c, status) && w.listeners == map[c := Listener(p, false)]
    ensures var w' := Event(w, PutUserConfig(c, map[]));
            AloneWith(w', p, c, status) && w'.listeners.Keys == {c} && w'.listeners[c].process == p
            && w'.kube == w.kube && w'.apps == w.apps
  {
  }

  lemma ListeningStart(p: string, c: string)
    requires p != c && c != ""
    ensures var w := Event(Event(INITIAL, PutUserConfig(c, map[])), CreateProcess(p, Listening(c)));
            && AloneWith(w, p, c, Status(Unset, "", 0, 0, NoEvent, []))
            && w.kube.calls == 0 && w.apps == map[] && w.listeners == map[]
  {
  }

  /** The state before the second pass. */
  lemma ListeningDone(p: string, c: string)
    requires p != c && c != ""
    ensures var w := Run(LOSSY, Changing(p, c)[..4]);
            && AloneWith(w, p, c, Status(Pending, ReadyText(0, 0), 0, 0, NoEvent, []))
            && w.kube.calls == 16 && p in w.apps && c in w.listeners && w.listeners[c].process == p
  {
    ChangingWorld(LOSSY, p, c);
    ListeningStart(p, c);
    var w1 := Event(Event(INITIAL, PutUserConfig(c, map[])), CreateProcess(p, Listening(c)));
    ListeningPass(LOSSY, w1, p, c);
    ChangedConfig(Reconcile(LOSSY, w1, p, SETTINGS).world, p, c, Status(Pending, ReadyText(0, 0), 0, 0, NoEvent, []));
  }

  /** Two lost status updates are enough: for every process and config map this run of five steps ends with
      the parser still there, although nothing is pending for the process. */
  lemma LossyRun(p: string, c: string)
    requires p != c && c != ""
    ensures var w := Run(LOSSY, Changing(p, c)); Settled(w, p) && !ParserGone(p, w.kube.store)
  {
    ListeningDone(p, c);
    RunConsistent(LOSSY, Changing(p, c)[..4]);
    LossyPass(LOSSY, Run(LOSSY, Changing(p, c)[..4]), p, c, Status(Pending, ReadyText(0, 0), 0, 0, NoEvent, []));
    ChangingWorld(LOSSY, p, c);
  }

  // ---------------------------------------------------------------- no failed call

  /** No call fails. */
  const FAIR := Env({}, {}, {}, {}, {}, {}, map[7 := [AppConfig("s", [], false, 1)]], map["s" := "n"], {})

  /** A visible change, followed by one that the comparison does not see. */
  function Hasty(p: string): seq<Step> {
    [CreateProcess(p, PLAIN), ReconcileRequest(p, SETTINGS), UpdateProcess(p, SHRUNK), UpdateProcess(p, SHRUNK)]
  }

  lemma HastyWorld(e: Env, p: string)
    ensures var w2 := Reconcile(e, Started(p, PLAIN), p, SETTINGS).world;
            && Run(e, Hasty(p)[..3]) == Event(w2, UpdateProcess(p, SHRUNK))
            && Run(e, Hasty(p)) == Event(Event(w2, UpdateProcess(p, SHRUNK)), UpdateProcess(p, SHRUNK))
  {
    var s := Hasty(p);
    CreatedWorld(e, p, PLAIN);
    RunStep(e, s[..1], s[1]);
    RunStep(e, s[..2], s[2]);
    RunStep(e, s[..3], s[3]);
    assert s[..1] == [s[0]] && s[..1] + [s[1]] == s[..2] && s[..2] + [s[2]] == s[..3] && s[..3] + [s[3]] == s;
  }

  lemma {:induction false} RunThenMore(e: Env, steps: seq<Step>, more: seq<Step>)
    ensures Run(e, steps + more) == RunFrom(e, Run(e, steps), more)
  {
    if more == [] {
      assert steps + more == steps;
    } else {
      RunThenMore(e, steps, more[..|more| - 1]);
      RunStep(e, steps + more[..|more| - 1], more[|more| - 1]);
      assert steps + more[..|more| - 1] + [more[|more| - 1]] == steps + more;
    }
  }

  /** The state before the update that changes nothing. */
  lemma HastyStart(p: string)
    ensures var w := Run(FAIR, Hasty(p)[..3]);
            && Alone(w, p, SHRUNK) && Modified(w.kube.crs[p].status)
            && p in w.apps && w.apps[p] != [] && p in w.rollouts && w.rollouts[p] == []
  {
    var a := SingleAnswer(p, FAIR.appNames, AppConfig("s", [], false, 1));
    HastyWorld(FAIR, p);
    FirstPass(FAIR, Started(p, PLAIN), p, a);
    ShrinkingUpdate(Reconcile(FAIR, Started(p, PLAIN), p, SETTINGS).world, p);
  }

  /** Without any failed call, the second version of the process is never rolled out, however many passes
      for whatever processes follow. */
  lemma StarvedRun(p: string, requests: seq<Step>)
    requires forall k :: 0 <= k < |requests| ==> requests[k].ReconcileRequest?
    ensures var w := Run(FAIR, Hasty(p) + requests);
            p in w.kube.crs && Modified(w.kube.crs[p].status) && p in w.rollouts && w.rollouts[p] == []
  {
    HastyStart(p);
    RunConsistent(FAIR, Hasty(p)[..3]);
    EqualsReflexive(SHRUNK);
    UnseenUpdateStarvesRollout(FAIR, Run(FAIR, Hasty(p)[..3]), p, SHRUNK, requests);
    RunThenMore(FAIR, Hasty(p), requests);
    HastyWorld(FAIR, p);
  }

  // ---------------------------------------------------------------- a lost version

  /** The parser never finds an application; the synchronisation of version 1 and the report after it
      are lost. */
  const FORGETFUL := Env({}, {}, {}, {29}, {28}, {}, map[7 := [], 22 := [], 37 := []], map[], {})

  /** One visible change and two passes after it. */
  function Repeating(p: string): seq<Step> {
    [CreateProcess(p, PLAIN), ReconcileRequest(p, SETTINGS), UpdateProcess(p, SHRUNK),
     ReconcileRequest(p, SETTINGS), ReconcileRequest(p, SETTINGS)]
  }

  /** Process `p` alone, without an application. */
  predicate AloneEmpty(w: World, p: string, spec: Spec) {
    Alone(w, p, spec) && w.kube.store == EMPTY_STORE && w.apps == map[p := []] && p in w.rollouts
  }

  lemma FirstEmptyPass(e: Env, p: string)
    requires Smooth(e) && e.failedLookups == {} && e.failedStatus == {29} && e.failedSyncs == {28}
    requires 7 in e.replies && e.replies[7] == []
    ensures var w := Reconcile(e, Started(p, PLAIN), p, SETTINGS).world;
            && AloneEmpty(w, p, PLAIN) && w.rollouts[p] == [] && w.kube.calls == 15
            && w.kube.crs[p].status.current == w.kube.crs[p].status.previous == 0
  {
    var w := Started(p, PLAIN);
    var v := Entered(w);
    assert !ForConfigMap(e, w, p) && Reaches(e, w, p);
    OpenedPending(e, v, p);
    var d := Prepared(e, v, SETTINGS, w.kube.crs[p], false);
    NoApplications(p, e.appNames);
    ParserAnswers(e, d.kube, d.sp);
    var pop := AppsPopulated(e, SETTINGS, d, v.apps);
    assert pop.apps == Some([]) && pop.parsed && pop.ctl.kube.calls == 12;
    EmptyApplied(e, CachesPopulated(v, v.listeners, SETTINGS, d.sp, pop), pop.ctl);
  }

  lemma PendingPopulated(e: Env, c: Ctl)
    requires Smooth(e) && e.failedLookups == {} && c.kube.store == EMPTY_STORE && c.sp.spec == SHRUNK
    requires c.kube.calls + 4 in e.replies && e.replies[c.kube.calls + 4] == [] && Modified(c.sp.status)
    ensures var pop := AppsPopulated(e, SETTINGS, c, map[c.sp.name := []]);
            && pop.apps == Some([]) && pop.ctl.sp == c.sp && SameRecords(c.kube, pop.ctl.kube)
            && pop.ctl.kube.store == EMPTY_STORE && pop.ctl.kube.calls == c.kube.calls + 9
  {
    NoApplications(c.sp.name, e.appNames);
    ParserAnswers(e, c.kube, c.sp);
  }

  lemma PendingApplied(e: Env, w: World, c: Ctl)
    requires c.sp.spec == SHRUNK && c.sp.status.current == 1 && c.sp.status.previous == 0
    requires c.kube.crs == map[c.sp.name := c.sp] && c.sp.name in w.rollouts && c.kube.calls !in e.failedStatus
    ensures var r, p := AppsApplied(e, w, SETTINGS, c, []), c.sp.name;
            && r.world == w.(kube := r.world.kube, rollouts := w.rollouts[p := w.rollouts[p] + [1]])
            && r.world.kube.store == c.kube.store && r.world.kube.calls == c.kube.calls + 3
            && r.world.kube.crs.Keys == {p} && r.world.kube.crs[p].name == p && r.world.kube.crs[p].spec == SHRUNK
            && var s := r.world.kube.crs[p].status;
               && s.current == 1 && s.eventType == c.sp.status.eventType
               && (c.kube.calls + 1 in e.failedSyncs && c.kube.calls + 2 in e.failedStatus ==> s.previous == 0)
  {
    var c1 := ReportPartialApps(e, c, []);
    var c2 := Synced(e, c1);
    assert ArtifactsCreated(e, SETTINGS, c, []) == ReportReady(e, c2, 0, 0);
  }

  /** Version 1, which has no applications, is pending and has been rolled out `rollouts`. */
  predicate Holding(w: World, p: string, rollouts: seq<int>, calls: nat) {
    && AloneEmpty(w, p, SHRUNK) && w.rollouts[p] == rollouts && w.kube.calls == calls
    && var s := w.kube.crs[p].status; s.current == 1 && s.previous == 0 && s.eventType == UpdateEvent
  }

  lemma HoldingAdvances(e: Env, w: World, p: string, rollouts: seq<int>, n: nat)
    requires Holding(w, p, rollouts, n)
    requires e.failedReads == {}
    ensures Reconcile(e, w, p, SETTINGS) == Advanced(e, Entered(w), SETTINGS, w.kube.crs[p], false)
    ensures Holding(Entered(w), p, rollouts, n + 2)
  {
    assert !ForConfigMap(e, w, p) && Reaches(e, w, p) && !TimerPass(Entered(w), w.kube.crs[p]);
  }

  /** A pass that finds version 1 pending rolls it out, and still finds it pending if both updates are lost. */
  lemma HoldingAdvanced(e: Env, w: World, p: string, rollouts: seq<int>, n: nat)
    requires Smooth(e) && e.failedLookups == {} && Holding(w, p, rollouts, n)
    requires n + 5 in e.replies && e.replies[n + 5] == [] && n !in e.failedStatus && n + 10 !in e.failedStatus
    ensures var w' := Advanced(e, w, SETTINGS, w.kube.crs[p], false).world;
            && p in w'.rollouts && w'.rollouts[p] == rollouts + [1]
            && (n + 11 in e.failedSyncs && n + 12 in e.failedStatus ==> Holding(w', p, rollouts + [1], n + 13))
  {
    OpenedShrunk(e, w, p);
    HoldingConcluded(e, w, Prepared(e, w, SETTINGS, w.kube.crs[p], false), rollouts, n);
  }

  lemma HoldingConcluded(e: Env, w: World, d: Ctl, rollouts: seq<int>, n: nat)
    requires Smooth(e) && e.failedLookups == {} && Holding(w, d.sp.name, rollouts, n)
    requires d.sp.spec == SHRUNK && d.kube.store == EMPTY_STORE && d.kube.crs == map[d.sp.name := d.sp]
    requires var s := d.sp.status; s.current == 1 && s.previous == 0 && s.eventType == UpdateEvent
    requires d.kube.calls == n + 1 && n + 5 in e.replies && e.replies[n + 5] == [] && n + 10 !in e.failedStatus
    ensures var w', p := Concluded(e, w, w.listeners, SETTINGS, d).world, d.sp.name;
            && p in w'.rollouts && w'.rollouts[p] == rollouts + [1]
            && (n + 11 in e.failedSyncs && n + 12 in e.failedStatus ==> Holding(w', p, rollouts + [1], n + 13))
  {
    PendingPopulated(e, d);
    var pop := AppsPopulated(e, SETTINGS, d, w.apps);
    PendingApplied(e, CachesPopulated(w, w.listeners, SETTINGS, d.sp, pop), pop.ctl);
  }

  lemma HoldingPass(w: World, p: string, rollouts: seq<int>, n: nat)
    requires Holding(w, p, rollouts, n) && n in {15, 30}
    ensures var w' := Reconcile(FORGETFUL, w, p, SETTINGS).world;
            && p in w'.rollouts && w'.rollouts[p] == rollouts + [1]
            && (n == 15 ==> Holding(w', p, rollouts + [1], 30))
  {
    HoldingAdvances(FORGETFUL, w, p, rollouts, n);
    HoldingAdvanced(FORGETFUL, Entered(w), p, rollouts, n + 2);
  }

  lemma RepeatingWorld(e: Env, p: string)
    ensures var w2 := Reconcile(e, Started(p, PLAIN), p, SETTINGS).world;
            var w4 := Reconcile(e, Event(w2, UpdateProcess(p, SHRUNK)), p, SETTINGS).world;
            Run(e, Repeating(p)) == Reconcile(e, w4, p, SETTINGS).world
  {
    var s := Repeating(p);
    assert s[..4] == Shrinking(p) && s[..4] + [s[4]] == s;
    ShrinkingWorld(e, p);
    RunStep(e, s[..4], s[4]);
  }

  lemma HoldingStart(p: string)
    ensures var w := Reconcile(FORGETFUL, Started(p, PLAIN), p, SETTINGS).world;
            Holding(Event(w, UpdateProcess(p, SHRUNK)), p, [], 15)
  {
    FirstEmptyPass(FORGETFUL, p);
    ShrinkingUpdate(Reconcile(FORGETFUL, Started(p, PLAIN), p, SETTINGS).world, p);
  }

  /** Two lost status updates are enough: for every process name this run of five steps rolls version 1
      out twice. */
  lemma RepeatedRun(p: string)
    ensures var w := Run(FORGETFUL, Repeating(p)); p in w.rollouts && w.rollouts[p] == [1, 1]
  {
    RepeatingWorld(FORGETFUL, p);
    HoldingStart(p);
    var w := Event(Reconcile(FORGETFUL, Started(p, PLAIN), p, SETTINGS).world, UpdateProcess(p, SHRUNK));
    HoldingPass(w, p, [], 15);
    HoldingPass(Reconcile(FORGETFUL, w, p, SETTINGS).world, p, [1], 30);
  }
}
