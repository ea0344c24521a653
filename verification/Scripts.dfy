/** Passes without a failed call in which the Siddhi parser gives a prescribed answer. */
module Scripts {
  import opened SiddhiTypes
  import opened SpecEquality
  import opened Names
  import opened AppConfigs
  import opened Cluster
  import opened Deployments
  import opened Controller
  import opened ParserLifecycle
  import opened Operator
  import opened Moves
  import opened Conformance
  import opened Isolation
  import opened StatusFlow
  import opened LostUpdates
  import opened StoredVersions
  import opened Passes
  import opened Runs
  import opened Provisioning
  import opened FixedPoint
  import opened Locality
  import opened Progress

  // ---------------------------------------------------------------- prescribing an answer

  /** The number of the call that asks the parser in the pass of `sp` from `w` on. */
  function AskingCall(e: Env, w: World, cfg: Config, sp: SiddhiProcess): nat {
    var d := Prepared(e, w, cfg, sp, false);
    ParserDeployed(e, cfg, d.kube, d.sp).calls
  }

  /** The same failures, and `answer` is what the parser answers in the pass. */
  function Answering(e: Env, w: World, cfg: Config, sp: SiddhiProcess, answer: seq<AppConfig>): Env {
    e.(replies := e.replies[AskingCall(e, w, cfg, sp) := answer])
  }

  lemma AskingComesLater(e: Env, w: World, cfg: Config, sp: SiddhiProcess)
    ensures w.kube.calls <= Prepared(e, w, cfg, sp, false).kube.calls <= AskingCall(e, w, cfg, sp)
  {
    PreparedLocal(e, e, 0, w, cfg, sp, false);
    var d := Prepared(e, w, cfg, sp, false);
    StartLocal(e, e, 0, cfg, d.kube, d.sp);
  }

  /** A prescribed answer does not change the past, and it is given. */
  lemma AnsweringWorks(e: Env, steps: seq<Step>, w: World, cfg: Config, sp: SiddhiProcess, answer: seq<AppConfig>)
    requires Run(e, steps).kube.calls <= w.kube.calls
    ensures var e' := Answering(e, w, cfg, sp, answer);
            && Run(e', steps) == Run(e, steps)
            && Answer(e', w, cfg, sp, false) == Applications(sp.name, e.appNames, answer)
  {
    var e', n := Answering(e, w, cfg, sp, answer), AskingCall(e, w, cfg, sp);
    AskingComesLater(e, w, cfg, sp);
    assert Agree(e, e', 0, n);
    RunLocal(e, e', n, steps);
    AgreeLater(e, e', 0, w.kube.calls, n);
    PreparedLocal(e, e', n, w, cfg, sp, false);
    var d := Prepared(e, w, cfg, sp, false);
    AgreeLater(e, e', 0, d.kube.calls, n);
    StartLocal(e, e', n, cfg, d.kube, d.sp);
  }

  // ---------------------------------------------------------------- what such a pass does

  /** A process that mounts no user config map and needs no messaging. */
  predicate Simple(spec: Spec) {
    spec.apps == [] && spec.messaging.typ == ""
  }

  /** A pass for `p` would find a version pending, and nothing else would be in its way. */
  predicate ReadyToPass(w: World, p: string) {
    && p in w.kube.crs && w.kube.crs[p].name == p && Simple(w.kube.crs[p].spec)
    && 0 <= w.kube.crs[p].status.previous < w.kube.crs[p].status.current
    && w.kube.crs[p].status.eventType == UpdateEvent && !IsConfigMap(w, p)
  }

  lemma PassIsAdvanced(e: Env, w: World, cfg: Config, p: string)
    requires e.failedReads == {} && ReadyToPass(w, p)
    ensures Reconcile(e, w, p, cfg) == Advanced(e, Entered(w), cfg, w.kube.crs[p], false)
  {
    assert !ForConfigMap(e, w, p) && Reaches(e, w, p) && !TimerPass(Entered(w), w.kube.crs[p]);
  }

  /** The records after an answered pass: the version is synchronised and the answer is cached. */
  lemma AnsweredRecords(e: Env, w: World, cfg: Config, sp: SiddhiProcess, apps: seq<Application>)
    requires NoFaults(e) && Consistent(w) && sp.name in w.kube.crs && w.kube.crs[sp.name] == sp && Simple(sp.spec)
    requires 0 <= sp.status.previous < sp.status.current && Answer(e, w, cfg, sp, false) == Some(apps)
    ensures var r, p := Advanced(e, w, cfg, sp, false), sp.name;
            && r.outcome == Completed && r.world.apps == w.apps[p := apps] && r.world.userConfigs == w.userConfigs
            && OnlyStatusOf(p, w.kube.crs, r.world.kube.crs) && p in r.world.kube.crs
            && var s := r.world.kube.crs[p].status;
               s.current == s.previous == sp.status.current && s.eventType == sp.status.eventType
  {
    var p := sp.name;
    FaultlessCompletesIff(e, w, cfg, sp, false);
    VersionStoredIff(e, w, cfg, sp, false);
    NothingLost(e, w, cfg, sp, false);
    AdvancedStatus(e, w, cfg, sp, false);
    AnsweredCaches(e, w, cfg, sp, apps);
  }

  lemma AnsweredCaches(e: Env, w: World, cfg: Config, sp: SiddhiProcess, apps: seq<Application>)
    requires e.failedWrites == {} && sp.status.previous < sp.status.current
    requires Answer(e, w, cfg, sp, false) == Some(apps) && !AllAppsRead(e, w, Opened(e, w, sp, false)).err
    ensures var r := Advanced(e, w, cfg, sp, false).world;
            r.apps == w.apps[sp.name := apps] && r.userConfigs == w.userConfigs
  {
    var d := Prepared(e, w, cfg, sp, false);
    var g, pop := AllAppsRead(e, w, Opened(e, w, sp, false)), AppsPopulated(e, cfg, d, w.apps);
    PreparedVersions(e, w, cfg, sp, false);
    PreparedKeeps(e, w, cfg, sp, false);
    PopulatedWithoutFaults(e, cfg, d, w.apps);
    ParsedWithoutFaults(e, cfg, d.kube, d.sp);
    var w1 := CachesPopulated(w, g.listeners, cfg, d.sp, pop);
    PopulatedQuiet(e, cfg, d, w.apps);
    AppliedUserConfigs(e, w1, cfg, pop.ctl, apps);
  }

  lemma AppliedUserConfigs(e: Env, w: World, cfg: Config, c: Ctl, apps: seq<Application>)
    ensures var r := AppsApplied(e, w, cfg, c, apps).world; r.apps == w.apps && r.userConfigs == w.userConfigs
  {
    var r := AppsApplied(e, w, cfg, c, apps).world;
    assert r == w.(kube := r.kube, rollouts := r.rollouts);
  }

  // ---------------------------------------------------------------- the cluster after such a pass

  /** Parsing touches neither claims nor deployments of applications. */
  ghost predicate AppsAlike(p: string, s: Store, t: Store) {
    t.claims == s.claims && forall i: nat :: SameAt(s.deployments, t.deployments, AppName(p, i))
  }

  lemma ParsingEffectAlike(p: string, s: Store, eff: Effect)
    requires Legal(p, Parsing, s, eff)
    ensures AppsAlike(p, s, Perform(s, p, eff))
  {
    forall i: nat ensures AppName(p, i) != ParserName(p) {
      AppIsNotParser(p, i, p);
    }
  }

  lemma ParsedAlike(e: Env, cfg: Config, k: Kube, sp: SiddhiProcess)
    ensures AppsAlike(sp.name, k.store, ProcessParsed(e, cfg, k, sp).kube.store)
  {
    var p := sp.name;
    ProcessParsedTraced(e, cfg, k, sp);
    var inv := (t: Store) => AppsAlike(p, k.store, t);
    forall s, t | inv(s) && Move(p, Parsing, s, t) ensures inv(t) {
      var eff :| Legal(p, Parsing, s, eff) && t == Perform(s, p, eff);
      ParsingEffectAlike(p, s, eff);
    }
    TraceInvariant(p, Parsing, k, ProcessParsed(e, cfg, k, sp).kube, inv);
  }

  /** The tail of the pass: the plain attempts, and then at most other replica counts. */
  lemma AppliedStore(e: Env, w: World, cfg: Config, c: Ctl, apps: seq<Application>)
    requires NoFaults(e) && Named(c.sp.name, apps) && Simple(c.sp.spec)
    requires 0 <= c.sp.status.previous < c.sp.status.current
    ensures OnlyScaled(AttemptAll(e, cfg, Core(c.sp), apps, |apps|, c.kube.store),
                       AppsApplied(e, w, cfg, c, apps).world.kube.store)
  {
    assert Messaged(c, apps) == c;
    var c0 := ReportPartialApps(e, c, apps);
    RolloutRefinesAttempts(e, cfg, Updated, c0, apps, |apps|);
    var c1 := ArtifactsCreated(e, cfg, c, apps);
    assert c1.kube.store == RolledOutUpTo(e, cfg, Updated, c0, apps, |apps|).kube.store;
    assert Core(c0.sp) == Core(c.sp);
    CreatedName(e, cfg, c, apps);
    RescaledUpToScales(e, c1, apps, |apps|);
  }

  lemma CreatedName(e: Env, cfg: Config, c: Ctl, apps: seq<Application>)
    ensures ArtifactsCreated(e, cfg, c, apps).sp.name == c.sp.name
  {
    RolloutsQuiet(e, cfg, EventOf(c.sp.status), c, apps);
  }

  /** An answered pass that has nothing to remove: what is attempted is all that happens to claims and to
      the deployments of applications. */
  lemma AnsweredStore(e: Env, w: World, cfg: Config, sp: SiddhiProcess, apps: seq<Application>) returns (t: Store)
    requires NoFaults(e) && Consistent(w) && sp.name in w.kube.crs && w.kube.crs[sp.name] == sp && Simple(sp.spec)
    requires 0 <= sp.status.previous < sp.status.current && Answer(e, w, cfg, sp, false) == Some(apps)
    requires Len(w.apps, sp.name) <= |apps|
    ensures AppsAlike(sp.name, w.kube.store, t)
    ensures OnlyScaled(AttemptAll(e, cfg, Core(sp), apps, |apps|, t), Advanced(e, w, cfg, sp, false).world.kube.store)
    ensures Named(sp.name, apps)
  {
    var d := Prepared(e, w, cfg, sp, false);
    var g := AllAppsRead(e, w, Opened(e, w, sp, false));
    FaultlessReadableIff(e, w, cfg, sp, false);
    PreparedKeeps(e, w, cfg, sp, false);
    PreparedVersions(e, w, cfg, sp, false);
    ParsedWithoutFaults(e, cfg, d.kube, d.sp);
    ParsedAlike(e, cfg, d.kube, d.sp);
    t := ProcessParsed(e, cfg, d.kube, d.sp).kube.store;
    ConcludedStore(e, w, g.listeners, cfg, d, apps);
    assert Core(d.sp) == Core(sp);
  }

  lemma ConcludedStore(e: Env, w: World, listeners: map<string, Listener>, cfg: Config, c: Ctl,
                       apps: seq<Application>)
    requires NoFaults(e) && CacheNamed(w.apps, c.sp.name) && Simple(c.sp.spec)
    requires 0 <= c.sp.status.previous < c.sp.status.current && Len(w.apps, c.sp.name) <= |apps|
    requires ProcessParsed(e, cfg, c.kube, c.sp).apps == Some(apps)
    ensures var t := ProcessParsed(e, cfg, c.kube, c.sp).kube.store;
            OnlyScaled(AttemptAll(e, cfg, Core(c.sp), apps, |apps|, t),
                       Concluded(e, w, listeners, cfg, c).world.kube.store)
    ensures Named(c.sp.name, apps)
  {
    var r, pop := ProcessParsed(e, cfg, c.kube, c.sp), AppsPopulated(e, cfg, c, w.apps);
    var _, _ := PopulatedTraced(e, cfg, c, w.apps);
    assert pop.ctl == c.(kube := r.kube) && pop.apps == Some(apps);
    AppliedStore(e, CachesPopulated(w, listeners, cfg, c.sp, pop), cfg, pop.ctl, apps);
  }

  // ---------------------------------------------------------------- forgetting the version

  /** The number of the call that synchronises the version at the end of a pass that gets so far. */
  function SyncCall(e: Env, w: World, cfg: Config, sp: SiddhiProcess): nat {
    var pop := AppsPopulated(e, cfg, Prepared(e, w, cfg, sp, false), w.apps);
    if pop.apps.Some? then BeforeSync(e, cfg, pop.ctl, pop.apps.value).kube.calls else pop.ctl.kube.calls
  }

  /** Compared with `e`, call `n` and the next one are lost: the synchronisation of the pass and the report
      after it. */
  ghost predicate Forgets(e: Env, e': Env, n: nat, w: World, cfg: Config, sp: SiddhiProcess) {
    n == SyncCall(e, w, cfg, sp) && e' == e.(failedSyncs := {n}, failedStatus := {n + 1})
  }

  lemma {:induction false} RescaledOnlyScales(e: Env, c: Ctl, apps: seq<Application>, n: nat)
    requires n <= |apps|
    ensures OnlyScaled(c.kube.store, RescaledUpTo(e, c, apps, n).kube.store)
    decreases n
  {
    if n > 0 {
      RescaledOnlyScales(e, c, apps, n - 1);
    }
  }

  /** Up to the synchronisation nothing is forgotten. */
  lemma ForgettingIsLate(e: Env, w: World, cfg: Config, sp: SiddhiProcess)
    ensures var n, d := SyncCall(e, w, cfg, sp), Prepared(e, w, cfg, sp, false);
            && w.kube.calls <= d.kube.calls <= n && AppsPopulated(e, cfg, d, w.apps).ctl.kube.calls <= n
  {
    PreparedLocal(e, e, 0, w, cfg, sp, false);
    var d := Prepared(e, w, cfg, sp, false);
    PopulatedLocal(e, e, 0, cfg, d, w.apps);
    var pop := AppsPopulated(e, cfg, d, w.apps);
    if pop.apps.Some? {
      var c := Messaged(pop.ctl, pop.apps.value);
      var _ := RolloutsLocal(e, e, 0, cfg, EventOf(pop.ctl.sp.status), c, pop.apps.value);
    }
  }

  lemma ForgettingAgrees(e: Env, e': Env, n: nat, w: World, cfg: Config, sp: SiddhiProcess)
    requires NoFaults(e) && Forgets(e, e', n, w, cfg, sp)
    ensures Agree(e, e', 0, n)
  {
  }

  /** Until the synchronisation the pass is the same. */
  lemma ForgettingAlike(e: Env, e': Env, n: nat, w: World, cfg: Config, sp: SiddhiProcess, apps: seq<Application>)
    requires NoFaults(e) && Forgets(e, e', n, w, cfg, sp)
    requires AppsPopulated(e, cfg, Prepared(e, w, cfg, sp, false), w.apps).apps == Some(apps)
    requires Simple(sp.spec)
    ensures var d := Prepared(e, w, cfg, sp, false);
            var pop := AppsPopulated(e, cfg, d, w.apps);
            && Prepared(e', w, cfg, sp, false) == d && AppsPopulated(e', cfg, d, w.apps) == pop
            && AllAppsRead(e', w, Opened(e', w, sp, false)).err == AllAppsRead(e, w, Opened(e, w, sp, false)).err
            && BeforeSync(e', cfg, pop.ctl, apps) == BeforeSync(e, cfg, pop.ctl, apps)
            && BeforeSync(e', cfg, pop.ctl, apps).kube.calls == n
  {
    ForgettingIsLate(e, w, cfg, sp);
    ForgettingAgrees(e, e', n, w, cfg, sp);
    AgreeLater(e, e', 0, w.kube.calls, n);
    PreparedLocal(e, e', n, w, cfg, sp, false);
    var d := Prepared(e, w, cfg, sp, false);
    AgreeLater(e, e', 0, d.kube.calls, n);
    PopulatedLocal(e, e', n, cfg, d, w.apps);
    var pop := AppsPopulated(e, cfg, d, w.apps);
    var c := Messaged(pop.ctl, apps);
    AgreeLater(e, e', 0, c.kube.calls, n);
    var _ := RolloutsLocal(e, e', n, cfg, EventOf(pop.ctl.sp.status), c, apps);
  }

  lemma AnsweredPopulated(e: Env, w: World, cfg: Config, sp: SiddhiProcess, apps: seq<Application>)
    requires NoFaults(e) && sp.status.previous < sp.status.current && Simple(sp.spec)
    requires Answer(e, w, cfg, sp, false) == Some(apps)
    ensures !AllAppsRead(e, w, Opened(e, w, sp, false)).err
    ensures var d := Prepared(e, w, cfg, sp, false);
            AppsPopulated(e, cfg, d, w.apps).apps == ProcessParsed(e, cfg, d.kube, d.sp).apps == Some(apps)
  {
    var d := Prepared(e, w, cfg, sp, false);
    FaultlessReadableIff(e, w, cfg, sp, false);
    PreparedVersions(e, w, cfg, sp, false);
    PopulatedWithoutFaults(e, cfg, d, w.apps);
    ParsedWithoutFaults(e, cfg, d.kube, d.sp);
  }

  lemma ForgettingAnswers(e: Env, e': Env, n: nat, w: World, cfg: Config, sp: SiddhiProcess, apps: seq<Application>)
    requires NoFaults(e) && Forgets(e, e', n, w, cfg, sp)
    requires sp.status.previous < sp.status.current && Simple(sp.spec)
    requires Answer(e, w, cfg, sp, false) == Some(apps)
    ensures Answer(e', w, cfg, sp, false) == Some(apps)
  {
    var d := Prepared(e, w, cfg, sp, false);
    AnsweredPopulated(e, w, cfg, sp, apps);
    ForgettingAlike(e, e', n, w, cfg, sp, apps);
    ForgettingIsLate(e, w, cfg, sp);
    ForgettingAgrees(e, e', n, w, cfg, sp);
    PreparedVersions(e, w, cfg, sp, false);
    ParserBeforePopulated(e, cfg, d, w.apps);
    AgreeLater(e, e', 0, d.kube.calls, n);
    StartLocal(e, e', n, cfg, d.kube, d.sp);
  }

  /** The forgetful pass gets as far as its end and loses its version. */
  lemma ForgettingLoses(e: Env, e': Env, n: nat, w: World, cfg: Config, sp: SiddhiProcess, apps: seq<Application>)
    requires NoFaults(e) && Forgets(e, e', n, w, cfg, sp)
    requires 0 <= sp.status.previous < sp.status.current && Simple(sp.spec)
    requires Answer(e, w, cfg, sp, false) == Some(apps)
    ensures VersionLost(e', w, cfg, sp, false)
  {
    var d := Prepared(e, w, cfg, sp, false);
    AnsweredPopulated(e, w, cfg, sp, apps);
    ForgettingAlike(e, e', n, w, cfg, sp, apps);
    LosesAt(e', w, cfg, sp, d, apps, n);
  }

  lemma LosesAt(e: Env, w: World, cfg: Config, sp: SiddhiProcess, d: Ctl, apps: seq<Application>, n: nat)
    requires e.failedSyncs == {n} && e.failedStatus == {n + 1} && e.failedWrites == {}
    requires sp.status.previous < sp.status.current && Simple(sp.spec)
    requires d == Prepared(e, w, cfg, sp, false) && !AllAppsRead(e, w, Opened(e, w, sp, false)).err
    requires var pop := AppsPopulated(e, cfg, d, w.apps);
             pop.apps == Some(apps) && BeforeSync(e, cfg, pop.ctl, apps).kube.calls == n
    ensures VersionLost(e, w, cfg, sp, false)
  {
    var pop := AppsPopulated(e, cfg, d, w.apps);
    PreparedKeeps(e, w, cfg, sp, false);
    PopulatedQuiet(e, cfg, d, w.apps);
    UnheardFrom(e, cfg, pop.ctl, apps, n);
    NoMessaging(e, cfg, pop.ctl, apps);
  }

  lemma NoMessaging(e: Env, cfg: Config, c: Ctl, apps: seq<Application>)
    requires Simple(c.sp.spec)
    ensures !MessagingFails(e, cfg, c, apps)
  {
  }

  lemma UnheardFrom(e: Env, cfg: Config, c: Ctl, apps: seq<Application>, n: nat)
    requires BeforeSync(e, cfg, c, apps).kube.calls == n
    requires e.failedSyncs == {n} && e.failedStatus == {n + 1} && e.failedWrites == {}
    ensures SyncUnheard(e, cfg, c, apps)
  {
    NoneRefused(e, ArtifactsCreated(e, cfg, Messaged(c, apps), apps), apps);
  }

  lemma NoneRefused(e: Env, c: Ctl, apps: seq<Application>)
    requires e.failedWrites == {}
    ensures forall i: nat :: i < |apps| ==> UnheardAt(e, c, apps, i)
  {
    forall i: nat | i < |apps| ensures UnheardAt(e, c, apps, i) {
      NothingRefused(e, RescaledUpTo(e, c, apps, i), apps[i]);
    }
  }

  lemma NothingRefused(e: Env, c: Ctl, a: Application)
    requires e.failedWrites == {}
    ensures RescaleUnheard(e, c, a)
  {
  }

  /** The records after a forgetful pass: the version is rolled out, and not synchronised. */
  lemma ForgottenRecords(e: Env, e': Env, n: nat, w: World, cfg: Config, sp: SiddhiProcess, apps: seq<Application>)
    requires NoFaults(e) && Forgets(e, e', n, w, cfg, sp)
    requires Consistent(w) && sp.name in w.kube.crs && w.kube.crs[sp.name] == sp && Simple(sp.spec)
    requires 0 <= sp.status.previous < sp.status.current && Answer(e, w, cfg, sp, false) == Some(apps)
    ensures var r, p := Advanced(e', w, cfg, sp, false).world, sp.name;
            && r.apps == w.apps[p := apps] && r.userConfigs == w.userConfigs
            && OnlyStatusOf(p, w.kube.crs, r.kube.crs) && p in r.kube.crs
            && var s := r.kube.crs[p].status;
               && s.current == sp.status.current && s.previous == sp.status.previous
               && s.eventType == sp.status.eventType
  {
    ForgettingLoses(e, e', n, w, cfg, sp, apps);
    ForgettingAnswers(e, e', n, w, cfg, sp, apps);
    AdvancedVersions(e', w, cfg, sp, false);
    AdvancedStatus(e', w, cfg, sp, false);
    AnsweredCaches(e', w, cfg, sp, apps);
  }

  /** The tail of a forgetful pass: replica counts apart, the cluster is as before the synchronisation. */
  lemma AppliedOnlyScales(e: Env, w: World, cfg: Config, c: Ctl, apps: seq<Application>)
    requires !MessagingFails(e, cfg, c, apps)
    ensures OnlyScaled(BeforeSync(e, cfg, c, apps).kube.store, AppsApplied(e, w, cfg, c, apps).world.kube.store)
  {
    var c1 := ArtifactsCreated(e, cfg, Messaged(c, apps), apps);
    assert c1.kube.store == BeforeSync(e, cfg, c, apps).kube.store;
    RescaledOnlyScales(e, c1, apps, |apps|);
    assert AppsApplied(e, w, cfg, c, apps).world.kube == RescaledUpTo(e, c1, apps, |apps|).kube;
  }

  lemma BeforeSyncStore(e: Env, cfg: Config, c: Ctl, apps: seq<Application>)
    requires NoFaults(e) && Simple(c.sp.spec) && 0 <= c.sp.status.previous < c.sp.status.current
    ensures BeforeSync(e, cfg, c, apps).kube.store == AttemptAll(e, cfg, Core(c.sp), apps, |apps|, c.kube.store)
  {
    assert Messaged(c, apps) == c;
    var c0 := ReportPartialApps(e, c, apps);
    RolloutRefinesAttempts(e, cfg, Updated, c0, apps, |apps|);
    assert Core(c0.sp) == Core(c.sp);
  }

  /** The cluster after a forgetful pass is that after the same pass without the forgetting. */
  lemma ForgottenStore(e: Env, e': Env, n: nat, w: World, cfg: Config, sp: SiddhiProcess, apps: seq<Application>)
    returns (t: Store)
    requires NoFaults(e) && Forgets(e, e', n, w, cfg, sp)
    requires Consistent(w) && sp.name in w.kube.crs && w.kube.crs[sp.name] == sp && Simple(sp.spec)
    requires 0 <= sp.status.previous < sp.status.current && Answer(e, w, cfg, sp, false) == Some(apps)
    requires Len(w.apps, sp.name) <= |apps|
    ensures AppsAlike(sp.name, w.kube.store, t)
    ensures OnlyScaled(AttemptAll(e, cfg, Core(sp), apps, |apps|, t),
                       Advanced(e', w, cfg, sp, false).world.kube.store)
  {
    var d := Prepared(e, w, cfg, sp, false);
    AnsweredPopulated(e, w, cfg, sp, apps);
    ForgettingAlike(e, e', n, w, cfg, sp, apps);
    PreparedKeeps(e, w, cfg, sp, false);
    ParsedAlike(e, cfg, d.kube, d.sp);
    t := ProcessParsed(e, cfg, d.kube, d.sp).kube.store;
    var pop := AppsPopulated(e, cfg, d, w.apps);
    assert pop.ctl == d.(kube := ProcessParsed(e, cfg, d.kube, d.sp).kube);
    BeforeSyncStore(e, cfg, pop.ctl, apps);
    assert Core(d.sp) == Core(sp);
    ForgottenConcluded(e', w, AllAppsRead(e', w, Opened(e', w, sp, false)).listeners, cfg, d, apps);
  }

  lemma ForgottenConcluded(e: Env, w: World, listeners: map<string, Listener>, cfg: Config, c: Ctl,
                           apps: seq<Application>)
    requires AppsPopulated(e, cfg, c, w.apps).apps == Some(apps) && Simple(c.sp.spec)
    ensures var pop := AppsPopulated(e, cfg, c, w.apps);
            OnlyScaled(BeforeSync(e, cfg, pop.ctl, apps).kube.store,
                       Concluded(e, w, listeners, cfg, c).world.kube.store)
  {
    var pop := AppsPopulated(e, cfg, c, w.apps);
    PopulatedQuiet(e, cfg, c, w.apps);
    AppliedOnlyScales(e, CachesPopulated(w, listeners, cfg, c.sp, pop), cfg, pop.ctl, apps);
  }
}
