/** Runs in which no call fails and yet something goes that a deployment mounts. */
module Hazards {
  import opened SiddhiTypes
  import opened SpecEquality
  import opened StringSort
  import opened Names
  import opened AppConfigs
  import opened Cluster
  import opened Deployments
  import opened Controller
  import opened ParserLifecycle
  import opened Operator
  import opened Moves
  import opened Conformance
  import opened Isolation
  import opened Integrity
  import opened Removals
  import opened StatusFlow
  import opened Passes
  import opened Runs
  import opened Safety
  import opened Orphans
  import opened IntactRuns
  import opened Provisioning
  import opened FixedPoint
  import opened Locality
  import opened Progress
  import opened Scripts
  import opened Instances

  // ---------------------------------------------------------------- who owns the config maps

  ghost predicate ConfigsOwnedBy(p: string, s: Store) {
    forall n | n in s.configMaps :: s.configMaps[n].owner == p
  }

  lemma TraceConfigsOwnedBy(p: string, pass: Pass, k: Kube, k': Kube)
    requires Trace(p, pass, k, k') && ConfigsOwnedBy(p, k.store)
    ensures ConfigsOwnedBy(p, k'.store)
  {
    var inv := (s: Store) => ConfigsOwnedBy(p, s);
    TraceInvariant(p, pass, k, k', inv);
  }

  /** In a cluster where only `p` owns config maps, a pass of `p` leaves it at that. */
  lemma PassConfigsOwnedBy(e: Env, w: World, cfg: Config, p: string)
    requires e.failedReads == {} && Consistent(w) && ReadyToPass(w, p) && ConfigsOwnedBy(p, w.kube.store)
    ensures ConfigsOwnedBy(p, Reconcile(e, w, p, cfg).world.kube.store)
  {
    PassIsAdvanced(e, w, cfg, p);
    var v, sp := Entered(w), w.kube.crs[p];
    var parsed, cleaned, n, version := FoundTraced(e, v, cfg, sp, false);
    TraceConfigsOwnedBy(p, Parsing, v.kube, parsed);
    TraceConfigsOwnedBy(p, Cleaning(n, Len(w.apps, p), sp.status.previous), parsed, cleaned);
    TraceConfigsOwnedBy(p, Rolling(n, version), cleaned, Reconcile(e, w, p, cfg).world.kube);
  }

  lemma FairOwned(e: Env, steps: seq<Step>)
    requires e.failedLookups == {}
    ensures Owned(Run(e, steps).kube.store)
  {
    SeeingRunSweeps(e, steps);
    RunNoOrphansIff(e, steps);
  }

  /** Config maps have longer names than the process that they belong to and its first application. */
  lemma NotAConfigOf(p: string, n: string)
    requires |n| <= |AppName(p, 0)|
    ensures !IsConfigOf(n, p)
  {
    assert |AppName(p, 0)| == |p| + 2;
  }

  // ---------------------------------------------------------------- one prescribed pass

  /** The run with one more pass for `p`, in which the parser answers with `apps`. */
  lemma PassAnswered(e: Env, steps: seq<Step>, p: string, answer: seq<AppConfig>, apps: seq<Application>)
    returns (e': Env, t: Store)
    requires NoFaults(e) && ReadyToPass(Run(e, steps), p)
    requires Applications(p, e.appNames, answer) == Some(apps) && Len(Run(e, steps).apps, p) <= |apps|
    ensures NoFaults(e') && e'.appNames == e.appNames && e'.badYaml == e.badYaml && Run(e', steps) == Run(e, steps)
    ensures var w, w' := Run(e, steps), Run(e', steps + [ReconcileRequest(p, SETTINGS)]);
            && AnsweredWorld(e', w, w', p, apps, t)
            && w'.kube.crs[p].status.previous == w.kube.crs[p].status.current
  {
    var w := Run(e, steps);
    var v, sp := Entered(w), w.kube.crs[p];
    e' := Answering(e, v, SETTINGS, sp, answer);
    AnsweringWorks(e, steps, v, SETTINGS, sp, answer);
    RunConsistent(e, steps);
    PassIsAdvanced(e', w, SETTINGS, p);
    AnsweredRecords(e', v, SETTINGS, sp, apps);
    t := AnsweredStore(e', v, SETTINGS, sp, apps);
    RunStep(e', steps, ReconcileRequest(p, SETTINGS));
  }

  /** The world after a pass for `p` that finds `apps` and has nothing to remove. */
  ghost predicate AnsweredWorld(e: Env, w: World, w': World, p: string, apps: seq<Application>, t: Store) {
    && p in w.kube.crs && p in w'.kube.crs && Named(p, apps)
    && w'.apps == w.apps[p := apps] && w'.userConfigs == w.userConfigs
    && OnlyStatusOf(p, w.kube.crs, w'.kube.crs)
    && w'.kube.crs[p].status.current == w.kube.crs[p].status.current
    && w'.kube.crs[p].status.eventType == w.kube.crs[p].status.eventType
    && AppsAlike(p, w.kube.store, t)
    && OnlyScaled(AttemptAll(e, SETTINGS, Core(w.kube.crs[p]), apps, |apps|, t), w'.kube.store)
  }

  /** After such a pass every application is handled. */
  lemma AnsweredHandles(e: Env, w: World, w': World, p: string, apps: seq<Application>, t: Store, i: nat)
    requires AnsweredWorld(e, w, w', p, apps, t) && i < |apps| && w.kube.crs[p].name == p
    requires w.kube.crs[p].status.current >= 0
    ensures Handled(e, SETTINGS, Core(w.kube.crs[p]), apps[i], w'.kube.store)
  {
    var core := Core(w.kube.crs[p]);
    AttemptAllHandles(e, SETTINGS, core, apps, |apps|, t);
    assert Handled(e, SETTINGS, core, apps[i], AttemptAll(e, SETTINGS, core, apps, |apps|, t));
    OnlyScaledHandled(e, SETTINGS, core, apps[i], AttemptAll(e, SETTINGS, core, apps, |apps|, t), w'.kube.store);
  }

  /** The applications of an answer, one by one. */
  lemma {:induction false} ApplicationAt(p: string, appNames: map<string, string>, cs: seq<AppConfig>, n: nat, i: nat)
    returns (apps: seq<Application>)
    requires i < n <= |cs| && forall k :: 0 <= k < |cs| ==> cs[k].siddhiApp in appNames
    ensures ApplicationsUpTo(p, appNames, cs, n) == Some(apps) && |apps| == n
    ensures apps[i] == ApplicationOf(p, i, cs[i], appNames[cs[i].siddhiApp])
    decreases n
  {
    var init := [];
    if i < n - 1 {
      init := ApplicationAt(p, appNames, cs, n - 1, i);
    } else if n > 1 {
      init := ApplicationAt(p, appNames, cs, n - 1, 0);
    }
    ApplicationsStep(p, appNames, cs, n - 1, init);
    apps := init + [ApplicationOf(p, n - 1, cs[n - 1], appNames[cs[n - 1].siddhiApp])];
  }

  // ---------------------------------------------------------------- creation and first change

  /** A process is created and changed before its first pass, which then works on version 1. */
  function Changed(p: string, spec: Spec): seq<Step> {
    [CreateProcess(p, PLAIN), UpdateProcess(p, spec)]
  }

  function ChangedProcess(p: string, spec: Spec): SiddhiProcess {
    SiddhiProcess(p, spec, Status(Unset, "", 1, 0, UpdateEvent, []))
  }

  lemma ChangedWorld(e: Env, steps: seq<Step>, p: string, spec: Spec)
    requires p !in Run(e, steps).kube.crs && !Equals(PLAIN, spec) && spec.messaging == PLAIN.messaging
    ensures var w := Run(e, steps);
            Run(e, steps + Changed(p, spec)) ==
            w.(kube := w.kube.(crs := w.kube.crs[p := ChangedProcess(p, spec)]), rollouts := w.rollouts[p := []])
  {
    var create, update := CreateProcess(p, PLAIN), UpdateProcess(p, spec);
    RunStep(e, steps, create);
    RunStep(e, steps + [create], update);
    assert steps + Changed(p, spec) == steps + [create] + [update];
    ComparedAlike(PLAIN, spec);
    var w := Run(e, steps);
    assert w.kube.crs[p := NewProcess(p, PLAIN)][p := ChangedProcess(p, spec)]
           == w.kube.crs[p := ChangedProcess(p, spec)];
  }

  /** A comparison leaves a spec without servers as it is. */
  lemma ComparedAlike(p: Spec, q: Spec)
    requires q.messaging.servers == []
    ensures AfterCompare(p, q) == q
  {
    assert Sort([]) == [];
  }

  // ---------------------------------------------------------------- a shared runner configuration

  const CONFIGURED := PLAIN.(siddhiConfig := "c")

  const STATEFUL := AppConfig("s", [], true, 1)
  const STATELESS := AppConfig("s", [], false, 1)

  const QUIET := Env({}, {}, {}, {}, {}, {}, map[], map["s" := "n"], {})

  /** Process `p` has a stateful application, process `q` is named like that application. */
  function Sharing(p: string): seq<Step> {
    var q := AppName(p, 0);
    Changed(p, SHRUNK) + [ReconcileRequest(p, SETTINGS)]
    + Changed(q, CONFIGURED) + [ReconcileRequest(q, SETTINGS)]
    + [DeleteProcess(p)]
  }

  lemma OneAnswer(p: string, c: AppConfig) returns (a: Application)
    requires c in {STATEFUL, STATELESS}
    ensures Applications(p, QUIET.appNames, [c]) == Some([a])
    ensures a.name == AppName(p, 0) && a.persistenceEnabled == c.persistenceEnabled && a.apps != map[]
  {
    a := ApplicationOf(p, 0, c, "n");
    ApplicationsStep(p, QUIET.appNames, [c], 0, []);
    assert [] + [a] == [a];
    assert "n" in a.apps;
  }

  /** Process `p` is alone and owns the runner configuration of its first application. */
  ghost predicate OwnerDone(w: World, p: string) {
    && w.kube.crs.Keys == {p} && w.userConfigs == map[] && w.apps.Keys == {p}
    && ConfigsOwnedBy(p, w.kube.store) && RunnerConfigName(AppName(p, 0)) in w.kube.store.configMaps
  }

  /** That is what the first pass of `p` leads to. */
  lemma OwnerPasses(p: string) returns (e: Env)
    ensures NoFaults(e) && e.appNames == QUIET.appNames && e.badYaml == {}
    ensures OwnerDone(Run(e, Changed(p, SHRUNK) + [ReconcileRequest(p, SETTINGS)]), p)
  {
    var steps, t := Changed(p, SHRUNK), EMPTY_STORE;
    ChangedStart(QUIET, p, SHRUNK);
    var a := OneAnswer(p, STATEFUL);
    e, t := PassAnswered(QUIET, steps, p, [STATEFUL], [a]);
    RunConsistent(e, steps);
    RunStep(e, steps, ReconcileRequest(p, SETTINGS));
    PassConfigsOwnedBy(e, Run(e, steps), SETTINGS, p);
    OwnerWorld(e, Run(e, steps), Run(e, steps + [ReconcileRequest(p, SETTINGS)]), p, a, t);
  }

  lemma OwnerWorld(e: Env, w: World, w': World, p: string, a: Application, t: Store)
    requires ConfigsOwnedBy(p, w'.kube.store)
    requires w.kube.crs == map[p := ChangedProcess(p, SHRUNK)] && w.apps == map[] && w.userConfigs == map[]
    requires AnsweredWorld(e, w, w', p, [a], t) && a.persistenceEnabled && a.name == AppName(p, 0)
    ensures OwnerDone(w', p)
  {
    StatefulMounts(e, w, w', p, a, t);
  }

  lemma ChangedStart(e: Env, p: string, spec: Spec)
    requires !Equals(PLAIN, spec) && spec.messaging == PLAIN.messaging && Simple(spec)
    ensures var w := Run(e, Changed(p, spec));
            && w.kube.crs == map[p := ChangedProcess(p, spec)] && w.kube.store == EMPTY_STORE
            && w.apps == map[] && w.userConfigs == map[] && ReadyToPass(w, p)
  {
    ChangedWorld(e, [], p, spec);
    assert [] + Changed(p, spec) == Changed(p, spec);
  }

  /** A stateful application has a runner configuration of its own. */
  lemma StatefulMounts(e: Env, w: World, w': World, p: string, a: Application, t: Store)
    requires AnsweredWorld(e, w, w', p, [a], t) && w.kube.crs[p] == ChangedProcess(p, SHRUNK)
    requires a.persistenceEnabled && a.name == AppName(p, 0)
    ensures RunnerConfigName(AppName(p, 0)) in w'.kube.store.configMaps
  {
    AnsweredHandles(e, w, w', p, [a], t, 0);
  }

  /** A pass of `q` keeps the owner of a config map that is there. */
  lemma TraceKeepsOwner(q: string, pass: Pass, k: Kube, k': Kube, n: string, p: string)
    requires Trace(q, pass, k, k') && (pass.Cleaning? ==> pass.hi == 0)
    requires n in k.store.configMaps && k.store.configMaps[n].owner == p
    ensures n in k'.store.configMaps && k'.store.configMaps[n].owner == p
  {
    var inv := (s: Store) => n in s.configMaps && s.configMaps[n].owner == p;
    forall s, t | inv(s) && Move(q, pass, s, t) ensures inv(t) {
      var eff :| Legal(q, pass, s, eff) && t == Perform(s, q, eff);
      assert !eff.DropConfig?;
    }
    TraceInvariant(q, pass, k, k', inv);
  }

  lemma PassKeepsOwner(e: Env, w: World, cfg: Config, q: string, n: string, p: string)
    requires e.failedReads == {} && Consistent(w) && ReadyToPass(w, q) && q !in w.apps
    requires n in w.kube.store.configMaps && w.kube.store.configMaps[n].owner == p
    ensures var s := Reconcile(e, w, q, cfg).world.kube.store; n in s.configMaps && s.configMaps[n].owner == p
  {
    PassIsAdvanced(e, w, cfg, q);
    var v, sp := Entered(w), w.kube.crs[q];
    var parsed, cleaned, m, version := FoundTraced(e, v, cfg, sp, false);
    TraceKeepsOwner(q, Parsing, v.kube, parsed, n, p);
    TraceKeepsOwner(q, Cleaning(m, Len(w.apps, q), sp.status.previous), parsed, cleaned, n, p);
    TraceKeepsOwner(q, Rolling(m, version), cleaned, Reconcile(e, w, q, cfg).world.kube, n, p);
  }

  /** The guest is about to be passed. */
  lemma GuestReady(e: Env, steps: seq<Step>, p: string)
    requires NoFaults(e) && OwnerDone(Run(e, steps), p)
    ensures var q := AppName(p, 0);
            var w, w' := Run(e, steps), Run(e, steps + Changed(q, CONFIGURED));
            && w'.kube.crs == w.kube.crs[q := ChangedProcess(q, CONFIGURED)] && w'.kube.store == w.kube.store
            && w'.apps == w.apps && ReadyToPass(w', q) && q !in w'.apps
  {
    var q, w := AppName(p, 0), Run(e, steps);
    assert |q| > |p|;
    ChangedWorld(e, steps, q, CONFIGURED);
    FairOwned(e, steps);
    NotAConfigOf(p, q);
  }

  /** A stateless application of a process with a configuration mounts the one that is named after the
      process. */
  lemma ConfiguredMounts(e: Env, w: World, w': World, q: string, a: Application, t: Store)
    requires AnsweredWorld(e, w, w', q, [a], t) && w.kube.crs[q] == ChangedProcess(q, CONFIGURED)
    requires !a.persistenceEnabled && a.name == AppName(q, 0)
    ensures AppName(q, 0) in w'.kube.store.deployments
    ensures ConfigVolume(RunnerConfigName(q)) in w'.kube.store.deployments[AppName(q, 0)].template.volumes
  {
    AnsweredHandles(e, w, w', q, [a], t, 0);
  }

  /** The deployment of `q` survives the deletion of `p`, the config map that it mounts does not. */
  lemma GuestBreaks(w: World, p: string)
    requires p in w.kube.crs && Owned(w.kube.store)
    requires var q, s := AppName(p, 0), w.kube.store;
             && RunnerConfigName(q) in s.configMaps && s.configMaps[RunnerConfigName(q)].owner == p
             && AppName(q, 0) in s.deployments
             && ConfigVolume(RunnerConfigName(q)) in s.deployments[AppName(q, 0)].template.volumes
    ensures !Intact(Event(w, DeleteProcess(p)).kube.store)
  {
    var q, t := AppName(p, 0), Event(w, DeleteProcess(p)).kube.store;
    var d := AppName(q, 0);
    assert |q| > |p| && IsDeploymentOf(d, q);
    DeploymentOwnerUnique(d, q, w.kube.store.deployments[d].owner);
    assert d in t.deployments && !Present(t, ConfigVolume(RunnerConfigName(q)));
  }

  /** Without any failed call: for every process name there are answers of the parser with which this run
      ends with a deployment that mounts a missing config map. */
  lemma SharedRun(p: string) returns (e: Env)
    ensures NoFaults(e) && !Intact(Run(e, Sharing(p)).kube.store)
  {
    var q, t := AppName(p, 0), EMPTY_STORE;
    var first := Changed(p, SHRUNK) + [ReconcileRequest(p, SETTINGS)];
    var second := first + Changed(q, CONFIGURED);
    var third := second + [ReconcileRequest(q, SETTINGS)];
    var e0 := OwnerPasses(p);
    GuestReady(e0, first, p);
    var a := OneAnswer(q, STATELESS);
    e, t := PassAnswered(e0, second, q, [STATELESS], [a]);
    GuestWorld(e, Run(e, second), Run(e, third), p, a, t, second);
    RunStep(e, third, DeleteProcess(p));
    FairOwned(e, third);
    GuestBreaks(Run(e, third), p);
    assert Sharing(p) == third + [DeleteProcess(p)];
  }

  lemma GuestWorld(e: Env, w: World, w': World, p: string, a: Application, t: Store, steps: seq<Step>)
    requires NoFaults(e) && w == Run(e, steps) && w' == Run(e, steps + [ReconcileRequest(AppName(p, 0), SETTINGS)])
    requires var q := AppName(p, 0);
             && ReadyToPass(w, q) && q !in w.apps && p in w.kube.crs
             && w.kube.crs[q] == ChangedProcess(q, CONFIGURED)
             && RunnerConfigName(q) in w.kube.store.configMaps
             && w.kube.store.configMaps[RunnerConfigName(q)].owner == p
             && AnsweredWorld(e, w, w', q, [a], t) && !a.persistenceEnabled && a.name == AppName(q, 0)
    ensures var q, s := AppName(p, 0), w'.kube.store;
            && p in w'.kube.crs
            && RunnerConfigName(q) in s.configMaps && s.configMaps[RunnerConfigName(q)].owner == p
            && AppName(q, 0) in s.deployments
            && ConfigVolume(RunnerConfigName(q)) in s.deployments[AppName(q, 0)].template.volumes
  {
    var q := AppName(p, 0);
    RunConsistent(e, steps);
    RunStep(e, steps, ReconcileRequest(q, SETTINGS));
    PassKeepsOwner(e, w, SETTINGS, q, RunnerConfigName(q), p);
    ConfiguredMounts(e, w, w', q, a, t);
  }

  // ---------------------------------------------------------------- an application that lags behind

  /** Access modes that the operator refuses. */
  const REFUSED := EMPTY_CLAIM.(accessModes := Some(["ReadOnlyMany"]))

  /** Specs with the same claim, each visibly different from the next. */
  function Varying(claim: ClaimSpec, n: nat): Spec {
    PLAIN.(imagePullSecret := if n % 2 == 0 then "y" else "x", pvc := claim)
  }

  function Updates(p: string, claim: ClaimSpec, n: nat): seq<Step> {
    if n == 0 then [] else Updates(p, claim, n - 1) + [UpdateProcess(p, Varying(claim, n - 1))]
  }

  /** Twelve applications, of which the last one is stateful. */
  const TWELVE := seq(12, i => AppConfig("s", [], i == 11, 1))

  /** Versions 1 and 11 have twelve applications, version 12 has one. */
  function Entangling(p: string): seq<Step> {
    Changed(p, SHRUNK) + [ReconcileRequest(p, SETTINGS)] + Updates(p, REFUSED, 10) + [ReconcileRequest(p, SETTINGS)]
    + [UpdateProcess(p, Varying(REFUSED, 10))] + [ReconcileRequest(p, SETTINGS)]
  }

  /** Process `p` alone, at a version, and ready for the next one. */
  predicate At(w: World, p: string, spec: Spec, current: int, previous: int) {
    && w.kube.crs.Keys == {p} && w.kube.crs[p].name == p && w.kube.crs[p].spec == spec && w.userConfigs == map[]
    && var s := w.kube.crs[p].status;
       s.current == current && s.previous == previous && s.eventType == UpdateEvent
  }

  /** Worlds that differ in the records of custom resources only. */
  predicate SameButRecords(w: World, w': World) {
    w' == w.(kube := w.kube.(crs := w'.kube.crs))
  }

  lemma OneUpdate(w: World, p: string, spec: Spec, current: int, previous: int, next: Spec)
    requires At(w, p, spec, current, previous) && !Equals(spec, next) && next.messaging.servers == []
    ensures var w' := Event(w, UpdateProcess(p, next));
            At(w', p, next, current + 1, previous) && SameButRecords(w, w')
  {
    ComparedAlike(spec, next);
  }

  function SpecAfter(claim: ClaimSpec, n: nat): Spec {
    if n == 0 then SHRUNK else Varying(claim, n - 1)
  }

  predicate Updated(w: World, w': World, p: string, current: int, previous: int, claim: ClaimSpec, n: nat) {
    At(w', p, SpecAfter(claim, n), current + n, previous) && SameButRecords(w, w')
  }

  lemma NextUpdate(w: World, v: World, p: string, current: int, previous: int, claim: ClaimSpec, n: nat)
    requires Updated(w, v, p, current, previous, claim, n)
    ensures Updated(w, Event(v, UpdateProcess(p, Varying(claim, n))), p, current, previous, claim, n + 1)
  {
    OneUpdate(v, p, SpecAfter(claim, n), current + n, previous, Varying(claim, n));
  }

  lemma ManyUpdates(e: Env, steps: seq<Step>, p: string, current: int, previous: int, claim: ClaimSpec, n: nat)
    requires At(Run(e, steps), p, SHRUNK, current, previous)
    ensures Updated(Run(e, steps), Run(e, steps + Updates(p, claim, n)), p, current, previous, claim, n)
  {
    assert steps + Updates(p, claim, 0) == steps;
    for i := 0 to n
      invariant Updated(Run(e, steps), Run(e, steps + Updates(p, claim, i)), p, current, previous, claim, i)
    {
      NextUpdate(Run(e, steps), Run(e, steps + Updates(p, claim, i)), p, current, previous, claim, i);
      OneMoreUpdate(e, steps, p, claim, i + 1);
    }
  }

  lemma OneMoreUpdate(e: Env, steps: seq<Step>, p: string, claim: ClaimSpec, n: nat)
    requires n > 0
    ensures Run(e, steps + Updates(p, claim, n))
            == Event(Run(e, steps + Updates(p, claim, n - 1)), UpdateProcess(p, Varying(claim, n - 1)))
  {
    var before, step := steps + Updates(p, claim, n - 1), UpdateProcess(p, Varying(claim, n - 1));
    assert before + [step] == steps + Updates(p, claim, n);
    RunStep(e, before, step);
  }

  /** The deployment of application 11 runs version 1, and there is no claim for it. */
  ghost predicate Lags(p: string, s: Store) {
    var a := AppName(p, 11);
    && a in s.deployments && ConfigVolume(AppsConfigName(a, 1)) in s.deployments[a].template.volumes
    && ClaimName(a) !in s.claims
  }

  ghost predicate TwelveOf(p: string, apps: seq<Application>) {
    && |apps| == 12 && Named(p, apps)
    && apps[11].apps != map[] && apps[11].persistenceEnabled && apps[1].apps != map[] && !apps[1].persistenceEnabled
  }

  lemma TwelveAnswers(p: string) returns (apps: seq<Application>)
    ensures Applications(p, QUIET.appNames, TWELVE) == Some(apps) && TwelveOf(p, apps)
  {
    assert forall k :: 0 <= k < |TWELVE| ==> TWELVE[k].siddhiApp in QUIET.appNames;
    apps := ApplicationAt(p, QUIET.appNames, TWELVE, 12, 11);
    var _ := ApplicationAt(p, QUIET.appNames, TWELVE, 12, 1);
    assert "n" in apps[11].apps && "n" in apps[1].apps;
  }

  lemma NoClaimsAttempted(e: Env, cfg: Config, sp: SiddhiProcess, apps: seq<Application>, n: nat, s: Store)
    returns (t: Store)
    requires n <= |apps| && sp.spec.pvc == EMPTY_CLAIM
    ensures t == AttemptAll(e, cfg, sp, apps, n, s) && Unclaimed(s, t)
  {
    t := s;
    for i := 0 to n
      invariant t == AttemptAll(e, cfg, sp, apps, i, s) && Unclaimed(s, t)
    {
      t := NextUnclaimed(e, cfg, sp, apps, i + 1, s, t);
    }
  }

  predicate Unclaimed(s: Store, t: Store) {
    t.claims == s.claims
  }

  lemma NextUnclaimed(e: Env, cfg: Config, sp: SiddhiProcess, apps: seq<Application>, n: nat, s: Store, u: Store)
    returns (t: Store)
    requires 0 < n <= |apps| && sp.spec.pvc == EMPTY_CLAIM
    requires u == AttemptAll(e, cfg, sp, apps, n - 1, s) && Unclaimed(s, u)
    ensures t == AttemptAll(e, cfg, sp, apps, n, s) && Unclaimed(s, t)
  {
    AttemptStep(e, cfg, sp, apps, n, s);
    NoClaimAttempted(e, cfg, sp, apps[n - 1], u);
    t := AttemptAll(e, cfg, sp, apps, n, s);
  }

  lemma NoClaimAttempted(e: Env, cfg: Config, sp: SiddhiProcess, b: Application, s: Store)
    requires sp.spec.pvc == EMPTY_CLAIM
    ensures Attempt(e, cfg, sp, b, s).claims == s.claims
  {
    assert Claimed(sp, b, s) == s && !ClaimRefused(sp, b, s) && !ConfigRefused(e, sp, b);
    ProvisionClaims(cfg, sp, b, s);
  }

  /** The attempt of another application leaves a refused one refused, and its deployment alone. */
  lemma AttemptSpares(e: Env, cfg: Config, sp: SiddhiProcess, a: Application, b: Application, s: Store)
    requires ClaimRefused(sp, a, s) && (a == b || a.name != b.name)
    ensures var t := Attempt(e, cfg, sp, b, s);
            ClaimRefused(sp, a, t) && SameAt(s.deployments, t.deployments, a.name)
  {
    if a != b {
      AttemptClaims(e, cfg, sp, b, s);
      if ClaimName(a.name) == ClaimName(b.name) {
        ClaimNameInjective(a.name, b.name);
      }
      AttemptDeployments(e, cfg, sp, b, s, a.name);
    }
  }

  lemma AttemptDeployments(e: Env, cfg: Config, sp: SiddhiProcess, b: Application, s: Store, d: string)
    requires d != b.name
    ensures SameAt(s.deployments, Attempt(e, cfg, sp, b, s).deployments, d)
  {
    MountDeployments(sp, b, s);
    FinishDeployments(cfg, sp, b, Mount(sp, b, s), d);
  }

  lemma MountDeployments(sp: SiddhiProcess, b: Application, s: Store)
    ensures Mount(sp, b, s).deployments == Claimed(sp, b, s).deployments == s.deployments
  {
  }

  lemma FinishDeployments(cfg: Config, sp: SiddhiProcess, b: Application, s: Store, d: string)
    requires d != b.name
    ensures SameAt(s.deployments, Finish(cfg, sp, b, s).deployments, d)
  {
  }

  /** Application `a` is still refused, and its deployment is what it was. */
  ghost predicate RefusedAlike(sp: SiddhiProcess, a: Application, s: Store, t: Store) {
    ClaimRefused(sp, a, t) && SameAt(s.deployments, t.deployments, a.name)
  }

  lemma RefusedStep(e: Env, cfg: Config, sp: SiddhiProcess, apps: seq<Application>, j: nat, n: nat, s: Store, u: Store)
    returns (t: Store)
    requires Named(sp.name, apps) && j < |apps| && 0 < n <= |apps|
    requires u == AttemptAll(e, cfg, sp, apps, n - 1, s) && RefusedAlike(sp, apps[j], s, u)
    ensures t == AttemptAll(e, cfg, sp, apps, n, s) && RefusedAlike(sp, apps[j], s, t)
  {
    var m := n - 1;
    if j != m && apps[j].name == apps[m].name {
      AppNameInjective(sp.name, j, sp.name, m);
    }
    AttemptStep(e, cfg, sp, apps, n, s);
    AttemptSpares(e, cfg, sp, apps[j], apps[m], u);
    t := AttemptAll(e, cfg, sp, apps, n, s);
  }

  lemma RefusedLags(e: Env, cfg: Config, sp: SiddhiProcess, apps: seq<Application>, j: nat, s: Store)
    returns (t: Store)
    requires Named(sp.name, apps) && j < |apps| && ClaimRefused(sp, apps[j], s)
    ensures t == AttemptAll(e, cfg, sp, apps, |apps|, s) && RefusedAlike(sp, apps[j], s, t)
  {
    t := s;
    for i := 0 to |apps|
      invariant t == AttemptAll(e, cfg, sp, apps, i, s) && RefusedAlike(sp, apps[j], s, t)
    {
      t := RefusedStep(e, cfg, sp, apps, j, i + 1, s, t);
    }
  }

  /** Version 1 is rolled out: application 11 runs it. */
  lemma LagStarts(e: Env, w: World, w': World, p: string, apps: seq<Application>, t: Store)
    requires w.kube.crs == map[p := ChangedProcess(p, SHRUNK)] && w.kube.store == EMPTY_STORE
    requires AnsweredWorld(e, w, w', p, apps, t) && TwelveOf(p, apps)
    ensures Lags(p, w'.kube.store)
  {
    AnsweredHandles(e, w, w', p, apps, t, 11);
    var _ := NoClaimsAttempted(e, SETTINGS, Core(w.kube.crs[p]), apps, 12, t);
  }

  /** Version 11 is rolled out: application 11 is refused and stays at version 1. */
  lemma LagStays(e: Env, w: World, w': World, p: string, apps: seq<Application>, t: Store)
    requires At(w, p, Varying(REFUSED, 9), 11, 1) && Lags(p, w.kube.store)
    requires AnsweredWorld(e, w, w', p, apps, t) && TwelveOf(p, apps)
    ensures Lags(p, w'.kube.store)
  {
    var core := Core(w.kube.crs[p]);
    assert SameAt(w.kube.store.deployments, t.deployments, AppName(p, 11));
    LaggardRefused(core, apps[11], t);
    var u := RefusedLags(e, SETTINGS, core, apps, 11, t);
    ScaledLags(p, u, w'.kube.store);
  }

  lemma LaggardRefused(sp: SiddhiProcess, a: Application, s: Store)
    requires sp.spec == Varying(REFUSED, 9) && a.persistenceEnabled && ClaimName(a.name) !in s.claims
    ensures ClaimRefused(sp, a, s)
  {
    assert Modes(REFUSED) != Modes(EMPTY_CLAIM);
  }

  lemma ScaledLags(p: string, s: Store, t: Store)
    requires Lags(p, s) && OnlyScaled(s, t)
    ensures Lags(p, t)
  {
  }

  // ---------------------------------------------------------------- the removal that hits it

  /** Twelve applications of `p` are cached, application 11 lags behind, and only `p` owns config maps. */
  ghost predicate Lagging(w: World, p: string) {
    p in w.apps && |w.apps[p]| == 12 && Lags(p, w.kube.store) && ConfigsOwnedBy(p, w.kube.store)
  }

  lemma AtReady(e: Env, steps: seq<Step>, p: string, spec: Spec, current: int, previous: int)
    requires At(Run(e, steps), p, spec, current, previous) && Simple(spec) && 0 <= previous < current
    requires e.failedLookups == {} && ConfigsOwnedBy(p, Run(e, steps).kube.store)
    ensures ReadyToPass(Run(e, steps), p)
  {
    FairOwned(e, steps);
    NotAConfigOf(p, p);
  }

  /** A pass at whose end `p` has twelve applications. */
  lemma TwelvePass(e: Env, steps: seq<Step>, p: string) returns (e': Env, apps: seq<Application>, t: Store)
    requires NoFaults(e) && e.appNames == QUIET.appNames && ReadyToPass(Run(e, steps), p)
    requires Len(Run(e, steps).apps, p) <= 12 && ConfigsOwnedBy(p, Run(e, steps).kube.store)
    ensures NoFaults(e') && e'.appNames == QUIET.appNames && Run(e', steps) == Run(e, steps) && TwelveOf(p, apps)
    ensures var w' := Run(e', steps + [ReconcileRequest(p, SETTINGS)]);
            && AnsweredWorld(e', Run(e, steps), w', p, apps, t) && ConfigsOwnedBy(p, w'.kube.store)
            && w'.kube.crs[p].status.previous == Run(e, steps).kube.crs[p].status.current
  {
    apps := TwelveAnswers(p);
    e', t := PassAnswered(e, steps, p, TWELVE, apps);
    RunConsistent(e', steps);
    RunStep(e', steps, ReconcileRequest(p, SETTINGS));
    PassConfigsOwnedBy(e', Run(e, steps), SETTINGS, p);
  }

  lemma AnsweredAt(e: Env, w: World, w': World, p: string, apps: seq<Application>, t: Store, spec: Spec, current: int,
                   previous: int)
    requires AnsweredWorld(e, w, w', p, apps, t) && At(w, p, spec, current, previous)
    ensures At(w', p, spec, current, w'.kube.crs[p].status.previous) && p in w'.apps && w'.apps[p] == apps
  {
  }

  /** The first pass leads to version 1. */
  lemma FirstTwelve(p: string) returns (e: Env)
    ensures NoFaults(e) && e.appNames == QUIET.appNames
    ensures var w := Run(e, Changed(p, SHRUNK) + [ReconcileRequest(p, SETTINGS)]);
            At(w, p, SHRUNK, 1, 1) && Lagging(w, p)
  {
    var steps := Changed(p, SHRUNK);
    ChangedStart(QUIET, p, SHRUNK);
    var w := Run(QUIET, steps);
    var apps, t;
    e, apps, t := TwelvePass(QUIET, steps, p);
    FirstLagging(e, w, Run(e, steps + [ReconcileRequest(p, SETTINGS)]), p, apps, t);
  }

  lemma FirstLagging(e: Env, w: World, w': World, p: string, apps: seq<Application>, t: Store)
    requires w.kube.crs == map[p := ChangedProcess(p, SHRUNK)] && w.kube.store == EMPTY_STORE && w.userConfigs == map[]
    requires AnsweredWorld(e, w, w', p, apps, t) && TwelveOf(p, apps) && ConfigsOwnedBy(p, w'.kube.store)
    requires w'.kube.crs[p].status.previous == 1
    ensures At(w', p, SHRUNK, 1, 1) && Lagging(w', p)
  {
    LagStarts(e, w, w', p, apps, t);
    AnsweredAt(e, w, w', p, apps, t, SHRUNK, 1, 0);
  }

  /** Ten updates and a pass lead to version 11. */
  lemma SecondTwelve(e: Env, steps: seq<Step>, p: string) returns (e': Env)
    requires NoFaults(e) && e.appNames == QUIET.appNames
    requires At(Run(e, steps), p, SHRUNK, 1, 1) && Lagging(Run(e, steps), p)
    ensures NoFaults(e') && e'.appNames == QUIET.appNames
    ensures var w := Run(e', steps + Updates(p, REFUSED, 10) + [ReconcileRequest(p, SETTINGS)]);
            At(w, p, Varying(REFUSED, 9), 11, 11) && Lagging(w, p)
  {
    ManyUpdates(e, steps, p, 1, 1, REFUSED, 10);
    var later := steps + Updates(p, REFUSED, 10);
    var w := Run(e, later);
    AtReady(e, later, p, Varying(REFUSED, 9), 11, 1);
    var apps, t;
    e', apps, t := TwelvePass(e, later, p);
    var w' := Run(e', later + [ReconcileRequest(p, SETTINGS)]);
    LagStays(e', w, w', p, apps, t);
    AnsweredAt(e', w, w', p, apps, t, Varying(REFUSED, 9), 11, 1);
  }

  /** A cleaning pass that removes application `i`, whose config map application `j` mounts. */
  lemma HitCleans(e: Env, d: Ctl, cache: map<string, seq<Application>>, apps: seq<Application>, j: nat)
    requires e.failedWrites == {} && e.failedLookups == {} && 0 <= d.sp.status.previous < d.sp.status.current
    requires Intact(d.kube.store) && |apps| < Len(cache, d.sp.name)
    requires j != |apps| && EntangledAt(d.sp.name, d.sp.status.previous, d.kube.store, |apps|, j)
    requires var n := ParserDeployed(e, SETTINGS, d.kube, d.sp).calls;
             n in e.replies && Applications(d.sp.name, e.appNames, e.replies[n]) == Some(apps)
    ensures !CleansHarmlessly(e, SETTINGS, d, cache)
  {
    var p, r := d.sp.name, ProcessParsed(e, SETTINGS, d.kube, d.sp);
    ParsedWithoutFaults(e, SETTINGS, d.kube, d.sp);
    ProcessParsedTraced(e, SETTINGS, d.kube, d.sp);
    TraceIntact(p, Parsing, d.kube, r.kube);
    ParsedAlike(e, SETTINGS, d.kube, d.sp);
    assert SameAt(d.kube.store.deployments, r.kube.store.deployments, AppName(p, j));
    EntangledNotHarmless(e, d.(kube := r.kube), |apps|, j, Len(cache, p));
  }

  /** Process `p` is about to be reduced to `apps`, and the config map of the first one that goes is mounted by
      application `j`. */
  ghost predicate Hit(e: Env, w: World, p: string, apps: seq<Application>, j: nat) {
    && ReadyToPass(w, p) && Answer(e, Entered(w), SETTINGS, w.kube.crs[p], false) == Some(apps)
    && |apps| < Len(w.apps, p)
    && j != |apps| && EntangledAt(p, w.kube.crs[p].status.previous, w.kube.store, |apps|, j)
  }

  lemma HitBreaks(e: Env, w: World, p: string, apps: seq<Application>, j: nat)
    requires e.failedReads == {} && e.failedWrites == {} && e.failedLookups == {}
    requires Hit(e, w, p, apps, j) && Intact(w.kube.store)
    ensures !Harmless(e, w, ReconcileRequest(p, SETTINGS))
  {
    var v, sp := Entered(w), w.kube.crs[p];
    assert !ForConfigMap(e, w, p) && Reaches(e, w, p) && !TimerPass(v, sp);
    FaultlessReadableIff(e, v, SETTINGS, sp, false);
    PreparedKeeps(e, v, SETTINGS, sp, false);
    HitCleans(e, Prepared(e, v, SETTINGS, sp, false), w.apps, apps, j);
  }

  /** Then the run with that pass has a state in which something mounted is missing. */
  lemma HitRun(e: Env, init: seq<Step>, p: string, apps: seq<Application>, j: nat)
    requires e.failedReads == {} && e.failedWrites == {} && e.failedLookups == {}
    requires Hit(e, Run(e, init), p, apps, j)
    ensures !AlwaysIntact(e, init + [ReconcileRequest(p, SETTINGS)])
  {
    var w, step := Run(e, init), ReconcileRequest(p, SETTINGS);
    RunIntactIff(e, init);
    RunIntactIff(e, init + [step]);
    assert (init + [step])[..|init|] == init;
    if AlwaysIntact(e, init + [step]) {
      assert History(w.kube)[|w.kube.past|] == w.kube.store;
      HitBreaks(e, w, p, apps, j);
    }
  }

  lemma LastUpdate(e: Env, steps: seq<Step>, p: string, claim: ClaimSpec, previous: int)
    requires e.failedLookups == {} && At(Run(e, steps), p, Varying(claim, 9), 11, previous) && 0 <= previous <= 11
    requires ConfigsOwnedBy(p, Run(e, steps).kube.store)
    ensures var w, w' := Run(e, steps), Run(e, steps + [UpdateProcess(p, Varying(claim, 10))]);
            SameButRecords(w, w') && ReadyToPass(w', p) && w'.kube.crs[p].status.previous == previous
  {
    var init := steps + [UpdateProcess(p, Varying(claim, 10))];
    RunStep(e, steps, UpdateProcess(p, Varying(claim, 10)));
    OneUpdate(Run(e, steps), p, Varying(claim, 9), 11, previous, Varying(claim, 10));
    AtReady(e, init, p, Varying(claim, 10), 12, previous);
  }

  /** The last update, and the last pass with a prescribed answer. */
  lemma LastPass(e: Env, steps: seq<Step>, p: string, claim: ClaimSpec, previous: int, answer: seq<AppConfig>,
                 apps: seq<Application>, j: nat) returns (e': Env)
    requires e.failedReads == {} && e.failedWrites == {} && e.failedLookups == {}
    requires At(Run(e, steps), p, Varying(claim, 9), 11, previous) && 0 <= previous <= 11
    requires ConfigsOwnedBy(p, Run(e, steps).kube.store) && |apps| < Len(Run(e, steps).apps, p)
    requires Applications(p, e.appNames, answer) == Some(apps)
    requires j != |apps| && EntangledAt(p, previous, Run(e, steps).kube.store, |apps|, j)
    ensures e' == e.(replies := e'.replies)
    ensures !AlwaysIntact(e', steps + [UpdateProcess(p, Varying(claim, 10))] + [ReconcileRequest(p, SETTINGS)])
  {
    var init := steps + [UpdateProcess(p, Varying(claim, 10))];
    LastUpdate(e, steps, p, claim, previous);
    var w := Run(e, init);
    e' := Answering(e, Entered(w), SETTINGS, w.kube.crs[p], answer);
    AnsweringWorks(e, init, Entered(w), SETTINGS, w.kube.crs[p], answer);
    HitRun(e', init, p, apps, j);
  }

  /** Without any failed call: for every process name there are answers of the parser with which some state of
      this run has a deployment that mounts a missing config map. */
  lemma EntangledRun(p: string) returns (e: Env)
    ensures NoFaults(e) && !AlwaysIntact(e, Entangling(p))
  {
    var first := Changed(p, SHRUNK) + [ReconcileRequest(p, SETTINGS)];
    var second := first + Updates(p, REFUSED, 10) + [ReconcileRequest(p, SETTINGS)];
    var e1 := FirstTwelve(p);
    var e2 := SecondTwelve(e1, first, p);
    var a := OneAnswer(p, STATELESS);
    DistantVersionsCollide(p);
    e := LastPass(e2, second, p, REFUSED, 11, [STATELESS], [a], 11);
    assert Entangling(p)
        == second + [UpdateProcess(p, Varying(REFUSED, 10))] + [ReconcileRequest(p, SETTINGS)];
  }

  // ---------------------------------------------------------------- a stale version

  /** Versions 1 and 11 have twelve applications, version 12 has eleven. */
  function Staling(p: string): seq<Step> {
    Changed(p, SHRUNK) + [ReconcileRequest(p, SETTINGS)]
    + Updates(p, EMPTY_CLAIM, 10) + [ReconcileRequest(p, SETTINGS)]
    + [UpdateProcess(p, Varying(EMPTY_CLAIM, 10))] + [ReconcileRequest(p, SETTINGS)]
  }

  const ELEVEN := seq(11, i => STATELESS)

  /** Version 11 is rolled out and not synchronised: application 1 runs it, and 1 is the previous version. */
  ghost predicate Stale(w: World, p: string) {
    && At(w, p, Varying(EMPTY_CLAIM, 9), 11, 1) && ConfigsOwnedBy(p, w.kube.store) && Len(w.apps, p) == 12
    && EntangledAt(p, 1, w.kube.store, 11, 1)
  }

  lemma StaleWorld(e: Env, w: World, w': World, p: string, apps: seq<Application>, t: Store)
    requires At(w, p, Varying(EMPTY_CLAIM, 9), 11, 1) && AnsweredWorld(e, w, w', p, apps, t) && TwelveOf(p, apps)
    requires w'.kube.crs[p].status.previous == 1 && ConfigsOwnedBy(p, w'.kube.store)
    ensures Stale(w', p)
  {
    AnsweredHandles(e, w, w', p, apps, t, 1);
    AnsweredAt(e, w, w', p, apps, t, Varying(EMPTY_CLAIM, 9), 11, 1);
    DistantVersionsCollide(p);
  }

  /** The pass with version 11, in which two status updates are lost. */
  lemma ForgetfulPass(e: Env, steps: seq<Step>, p: string) returns (e': Env, n: nat)
    requires NoFaults(e) && e.appNames == QUIET.appNames && ReadyToPass(Run(e, steps), p)
    requires At(Run(e, steps), p, Varying(EMPTY_CLAIM, 9), 11, 1) && ConfigsOwnedBy(p, Run(e, steps).kube.store)
    requires Len(Run(e, steps).apps, p) <= 12
    ensures e' == e.(replies := e'.replies, failedSyncs := {n}, failedStatus := {n + 1})
    ensures Stale(Run(e', steps + [ReconcileRequest(p, SETTINGS)]), p)
  {
    var w := Run(e, steps);
    var v, sp := Entered(w), w.kube.crs[p];
    var apps := TwelveAnswers(p);
    var e1 := Answering(e, v, SETTINGS, sp, TWELVE);
    AnsweringWorks(e, steps, v, SETTINGS, sp, TWELVE);
    n := SyncCall(e1, v, SETTINGS, sp);
    e' := e1.(failedSyncs := {n}, failedStatus := {n + 1});
    ForgottenRun(e1, e', n, steps, p, apps);
  }

  lemma ForgottenRun(e: Env, e': Env, n: nat, steps: seq<Step>, p: string, apps: seq<Application>)
    requires var w := Run(e, steps);
             && NoFaults(e) && ReadyToPass(w, p) && Forgets(e, e', n, Entered(w), SETTINGS, w.kube.crs[p])
             && At(w, p, Varying(EMPTY_CLAIM, 9), 11, 1) && ConfigsOwnedBy(p, w.kube.store) && Len(w.apps, p) <= 12
             && TwelveOf(p, apps) && Answer(e, Entered(w), SETTINGS, w.kube.crs[p], false) == Some(apps)
    ensures Stale(Run(e', steps + [ReconcileRequest(p, SETTINGS)]), p)
  {
    var w := Run(e, steps);
    var v, sp := Entered(w), w.kube.crs[p];
    ForgettingAgrees(e, e', n, v, SETTINGS, sp);
    ForgettingIsLate(e, v, SETTINGS, sp);
    RunLocal(e, e', n, steps);
    RunConsistent(e, steps);
    RunStep(e', steps, ReconcileRequest(p, SETTINGS));
    PassIsAdvanced(e', w, SETTINGS, p);
    PassConfigsOwnedBy(e', w, SETTINGS, p);
    ForgottenRecords(e, e', n, v, SETTINGS, sp, apps);
    var t := ForgottenStore(e, e', n, v, SETTINGS, sp, apps);
    StaleWorld(e, w, Reconcile(e', w, p, SETTINGS).world, p, apps, t);
  }

  /** Two lost status updates are enough: for every process name there are answers of the parser with which
      some state of this run has a deployment that mounts a missing config map. */
  lemma StaleRun(p: string) returns (e: Env, n: nat)
    ensures NoFaults(e.(failedSyncs := {}, failedStatus := {}))
    ensures e.failedSyncs == {n} && e.failedStatus == {n + 1} && !AlwaysIntact(e, Staling(p))
  {
    var first := Changed(p, SHRUNK) + [ReconcileRequest(p, SETTINGS)];
    var later := first + Updates(p, EMPTY_CLAIM, 10);
    var second := later + [ReconcileRequest(p, SETTINGS)];
    var e1 := FirstTwelve(p);
    ManyUpdates(e1, first, p, 1, 1, EMPTY_CLAIM, 10);
    AtReady(e1, later, p, Varying(EMPTY_CLAIM, 9), 11, 1);
    var e2;
    e2, n := ForgetfulPass(e1, later, p);
    var apps := ElevenAnswers(p);
    e := LastPass(e2, second, p, EMPTY_CLAIM, 1, ELEVEN, apps, 1);
    assert Staling(p)
        == second + [UpdateProcess(p, Varying(EMPTY_CLAIM, 10))] + [ReconcileRequest(p, SETTINGS)];
  }

  lemma ElevenAnswers(p: string) returns (apps: seq<Application>)
    ensures Applications(p, QUIET.appNames, ELEVEN) == Some(apps) && |apps| == 11
  {
    assert forall k :: 0 <= k < |ELEVEN| ==> ELEVEN[k].siddhiApp in QUIET.appNames;
    apps := ApplicationAt(p, QUIET.appNames, ELEVEN, 11, 0);
  }
}
