/** How the stages of a reconcile pass treat the custom resource: none but the version steps
    touches a version, and none but the status steps leaves the error phase. */
module StatusFlow {
  import opened SiddhiTypes
  import opened Cluster
  import opened Deployments
  import opened Controller
  import opened Names
  import opened Ingress
  import opened ParserLifecycle
  import opened Operator

  predicate SameVersions(s: Status, t: Status) {
    s.current == t.current && s.previous == t.previous
  }

  /** `t` reports on the same versions and event as `s`, with its phase or the error phase. */
  predicate Reports(s: Status, t: Status) {
    SameVersions(s, t) && s.eventType == t.eventType && (t.phase == s.phase || t.phase == Failed)
  }

  /** Only the record of process `p` may differ, and of that only the status. */
  ghost predicate OnlyStatusOf(p: string, crs: map<string, SiddhiProcess>, crs': map<string, SiddhiProcess>) {
    && crs.Keys == crs'.Keys
    && (forall q | q in crs && q != p :: crs'[q] == crs[q])
    && (p in crs ==> crs'[p] == crs[p].(status := crs'[p].status))
  }

  /** The working copy reports, and what is stored is the old record or, once a status update has been
      stored, such a report. */
  ghost predicate Quiet(c: Ctl, c': Ctl) {
    var p := c.sp.name;
    && c'.sp == c.sp.(status := c'.sp.status) && Reports(c.sp.status, c'.sp.status)
    && OnlyStatusOf(p, c.kube.crs, c'.kube.crs)
    && c.kube.stored <= c'.kube.stored
    && (c'.kube.stored == c.kube.stored ==> c'.kube.crs == c.kube.crs)
    && (c'.kube.stored > c.kube.stored ==> p in c.kube.crs && Reports(c.sp.status, c'.kube.crs[p].status))
  }

  lemma QuietTransitive(c0: Ctl, c1: Ctl, c2: Ctl)
    requires Quiet(c0, c1) && Quiet(c1, c2)
    ensures Quiet(c0, c2)
  {
  }

  /** A call on other objects leaves the custom resources alone. */
  lemma KubeQuiet(c: Ctl, k: Kube)
    requires SameRecords(c.kube, k)
    ensures Quiet(c, c.(kube := k))
  {
  }

  lemma ReportQuiet(e: Env, c: Ctl)
    ensures Quiet(c, Report(e, c)) && Quiet(c, ReportError(e, c))
  {
  }

  lemma ApplyCrs(e: Env, k: Kube, owner: string, eff: Effect)
    ensures SameRecords(k, CreateOrUpdate(e, k, owner, eff).kube)
    ensures SameRecords(k, Delete(e, k, owner, eff).kube)
  {
  }

  lemma MountClaimCrs(e: Env, k: Kube, a: Application, sp: SiddhiProcess)
    ensures SameRecords(k, MountClaim(e, k, a, sp).kube)
  {
  }

  lemma MountConfigsCrs(e: Env, k: Kube, a: Application, sp: SiddhiProcess)
    ensures SameRecords(k, MountRunnerConfig(e, k, a, sp).kube)
    ensures SameRecords(k, MountApps(e, k, a, sp).kube)
  {
    ApplyCrs(e, Tick(k), sp.name, PutConfig(RunnerConfigOf(a, sp), RunnerConfigData(a, sp)));
    ApplyCrs(e, Tick(k), sp.name, PutConfig(AppsConfigOf(a, sp), AppsData(a.apps)));
  }

  lemma StageCrs(e: Env, k: Kube, a: Application, sp: SiddhiProcess)
    ensures SameRecords(k, Stage(e, k, a, sp).kube)
  {
    MountClaimCrs(e, k, a, sp);
    var s1 := MountClaim(e, k, a, sp);
    MountConfigsCrs(e, s1.kube, a, sp);
    MountConfigsCrs(e, MountRunnerConfig(e, s1.kube, a, sp).kube, a, sp);
  }

  lemma DeployedCrs(e: Env, cfg: Config, k: Kube, a: Application, sp: SiddhiProcess)
    ensures SameRecords(k, Deployed(e, cfg, k, a, sp).kube)
  {
    StageCrs(e, k, a, sp);
    var s := Stage(e, k, a, sp);
    ApplyCrs(e, s.kube, sp.name, PutDeployment(a.name, a.replicas, TemplateOf(cfg, a, sp, s.volumes)));
  }

  lemma ParserCleanedCrs(e: Env, k: Kube, p: string)
    ensures SameRecords(k, ParserCleaned(e, k, p).kube)
  {
  }

  lemma ParsedCrs(e: Env, cfg: Config, k: Kube, sp: SiddhiProcess)
    ensures SameRecords(k, ProcessParsed(e, cfg, k, sp).kube)
  {
    var d := Deployed(e, cfg, k, ParserApp(sp.name), sp);
    DeployedCrs(e, cfg, k, ParserApp(sp.name), sp);
    ApplyCrs(e, d.kube, sp.name, ServiceOf(ParserName(sp.name), [PARSER_PORT]));
    ParserCleanedCrs(e, Tick(ParserDeployed(e, cfg, k, sp)), sp.name);
  }

  lemma ExposeQuiet(e: Env, cfg: Config, event: OperationResult, c: Ctl, a: Application)
    ensures Quiet(c, ExposeApp(e, cfg, event, c, a))
  {
    var r := CreateOrUpdate(e, c.kube, c.sp.name, ServiceOf(a.name, a.ports));
    ApplyCrs(e, c.kube, c.sp.name, ServiceOf(a.name, a.ports));
    var c0 := c.(kube := r.kube);
    KubeQuiet(c, r.kube);
    ReportQuiet(e, c0);
    QuietTransitive(c, c0, ReportError(e, c0));
    if !r.err {
      var c1 := ReportIf(e, c0, event, r.op);
      QuietTransitive(c, c0, c1);
      var eff := PutIngress(cfg.tls, PathsOf(a.name, a.ports));
      ApplyCrs(e, c1.kube, c.sp.name, eff);
      var c2 := c1.(kube := CreateOrUpdate(e, c1.kube, c.sp.name, eff).kube);
      KubeQuiet(c1, c2.kube);
      QuietTransitive(c, c1, c2);
      ReportQuiet(e, c2);
      QuietTransitive(c, c2, ReportError(e, c2));
    }
  }

  lemma RolledOutQuiet(e: Env, cfg: Config, event: OperationResult, c: Ctl, a: Application)
    ensures Quiet(c, RolledOut(e, cfg, event, c, a))
  {
    DeployedCrs(e, cfg, c.kube, a, c.sp);
    var d := Deployed(e, cfg, c.kube, a, c.sp);
    if !d.err {
      var c1 := ReportIf(e, c.(kube := d.kube), event, d.op);
      assert Quiet(c, c1);
      ExposeQuiet(e, cfg, event, c1, a);
      QuietTransitive(c, c1, ExposeApp(e, cfg, event, c1, a));
    }
  }

  lemma RolledOutStepQuiet(e: Env, cfg: Config, event: OperationResult, c: Ctl, c1: Ctl, a: Application)
    requires Quiet(c, c1)
    ensures Quiet(c, RolledOut(e, cfg, event, c1, a))
  {
    RolledOutQuiet(e, cfg, event, c1, a);
    QuietTransitive(c, c1, RolledOut(e, cfg, event, c1, a));
  }

  lemma {:induction false} RolledOutUpToQuiet(e: Env, cfg: Config, event: OperationResult, c: Ctl,
                                              apps: seq<Application>, n: nat)
    requires n <= |apps|
    ensures Quiet(c, RolledOutUpTo(e, cfg, event, c, apps, n))
    decreases n
  {
    if n > 0 {
      RolledOutUpToQuiet(e, cfg, event, c, apps, n - 1);
      RolledOutStepQuiet(e, cfg, event, c, RolledOutUpTo(e, cfg, event, c, apps, n - 1), apps[n - 1]);
    }
  }

  lemma {:induction false} RescaledUpToQuiet(e: Env, c: Ctl, apps: seq<Application>, n: nat)
    requires n <= |apps|
    ensures Quiet(c, RescaledUpTo(e, c, apps, n))
    decreases n
  {
    if n > 0 {
      RescaledUpToQuiet(e, c, apps, n - 1);
      var c1 := RescaledUpTo(e, c, apps, n - 1);
      QuietTransitive(c, c1, Rescaled(e, c1, apps[n - 1]));
    }
  }

  lemma AppStoppedQuiet(e: Env, c: Ctl, i: nat)
    ensures Quiet(c, AppStopped(e, c, i).ctl)
  {
    var n := AppName(c.sp.name, i);
    ApplyCrs(e, c.kube, c.sp.name, DropDeployment(n));
    var d := Delete(e, c.kube, c.sp.name, DropDeployment(n));
    KubeQuiet(c, d.kube);
    var c1 := Report(e, c.(kube := d.kube));
    ReportQuiet(e, c.(kube := d.kube));
    QuietTransitive(c, c.(kube := d.kube), c1);
    ApplyCrs(e, c1.kube, c.sp.name, DropService(n));
    var c2 := c1.(kube := Delete(e, c1.kube, c.sp.name, DropService(n)).kube);
    KubeQuiet(c1, c2.kube);
    QuietTransitive(c, c1, c2);
    ReportQuiet(e, c2);
    QuietTransitive(c, c2, Report(e, c2));
  }

  lemma AppReleasedQuiet(e: Env, c: Ctl, i: nat)
    ensures Quiet(c, AppReleased(e, c, i).ctl)
  {
  }

  lemma AppRemovedQuiet(e: Env, c: Ctl, i: nat)
    ensures Quiet(c, AppRemoved(e, c, i).ctl)
  {
    var r := AppStopped(e, c, i);
    AppStoppedQuiet(e, c, i);
    if !r.err {
      AppReleasedQuiet(e, r.ctl, i);
      QuietTransitive(c, r.ctl, AppReleased(e, r.ctl, i).ctl);
    }
  }

  lemma RemovedStepQuiet(e: Env, c: Ctl, r: Cleaned, i: nat)
    requires Quiet(c, r.ctl)
    ensures Quiet(c, (if r.err then r else AppRemoved(e, r.ctl, i)).ctl)
  {
    if !r.err {
      AppRemovedQuiet(e, r.ctl, i);
      QuietTransitive(c, r.ctl, AppRemoved(e, r.ctl, i).ctl);
    }
  }

  lemma {:induction false} RemovedUpToQuiet(e: Env, c: Ctl, lo: nat, n: nat) returns (r: Cleaned)
    ensures r == RemovedUpTo(e, c, lo, n) && Quiet(c, r.ctl)
    decreases n
  {
    if n <= lo {
      r := Cleaned(c, false);
    } else {
      var q := RemovedUpToQuiet(e, c, lo, n - 1);
      r := if q.err then q else AppRemoved(e, q.ctl, n - 1);
      assert r == RemovedUpTo(e, c, lo, n);
      RemovedStepQuiet(e, c, q, n - 1);
    }
  }

  lemma PopulatedQuiet(e: Env, cfg: Config, c: Ctl, cache: map<string, seq<Application>>)
    ensures Quiet(c, AppsPopulated(e, cfg, c, cache).ctl)
  {
    var r := ProcessParsed(e, cfg, c.kube, c.sp);
    ParsedCrs(e, cfg, c.kube, c.sp);
    var c1 := c.(kube := r.kube);
    var oldLen := if c.sp.name in cache then |cache[c.sp.name]| else 0;
    if r.apps.Some? {
      var _ := RemovedUpToQuiet(e, c1, |r.apps.value|, oldLen);
      QuietTransitive(c, c1, ArtifactsCleaned(e, c1, oldLen, |r.apps.value|).ctl);
    }
  }

  lemma {:induction false} AppsReadKeeps(e: Env, userConfigs: map<string, map<string, string>>, start: AppsRead,
                                         p: string, refs: seq<AppRef>, n: nat)
    requires n <= |refs|
    ensures var k := AppsReadUpTo(e, userConfigs, start, p, refs, n).kube;
            SameRecords(start.kube, k) && k.store == start.kube.store && k.past == start.kube.past
    decreases n
  {
    if n > 0 {
      AppsReadKeeps(e, userConfigs, start, p, refs, n - 1);
    }
  }

  /** Phases that a pass which is not a timer pass may lead to from status `s`: the same one, the error
      phase, pending as the very first, and not ready when a newer version waits. */
  predicate Reachable(s: Status, phase: Phase) {
    || phase == s.phase
    || phase == Failed
    || (phase == Pending && s.phase == Unset && EventOf(s) == Created)
    || (phase == NotReady && EventOf(s) == Updated)
  }

  /** Relation between the record of `p` when a pass starts and the controller later in the pass:
      neither version falls, neither overtakes, the store is not ahead of the working copy, and
      both are in a phase that the pass may lead to. */
  ghost predicate Ahead(base: map<string, SiddhiProcess>, p: string, c: Ctl) {
    && p in base && c.sp == base[p].(status := c.sp.status)
    && base[p].name == p
    && OnlyStatusOf(p, base, c.kube.crs)
    && c.sp.status.eventType == base[p].status.eventType
    && c.kube.crs[p].status.eventType == base[p].status.eventType
    && Between(base[p].status, c.kube.crs[p].status)
    && Between(c.kube.crs[p].status, c.sp.status)
    && Reachable(base[p].status, c.sp.status.phase)
    && Reachable(base[p].status, c.kube.crs[p].status.phase)
  }

  ghost predicate Between(s: Status, t: Status) {
    s.current <= t.current && s.previous <= t.previous && t.previous <= t.current
  }

  lemma QuietAhead(base: map<string, SiddhiProcess>, p: string, c: Ctl, c': Ctl)
    requires Ahead(base, p, c) && Quiet(c, c')
    ensures Ahead(base, p, c')
  {
  }

  lemma SyncedAhead(e: Env, base: map<string, SiddhiProcess>, p: string, c: Ctl)
    requires Ahead(base, p, c)
    ensures Ahead(base, p, Synced(e, c)) && Synced(e, c).sp.status.previous == c.sp.status.current
  {
  }

  lemma RolloutsQuiet(e: Env, cfg: Config, event: OperationResult, c: Ctl, apps: seq<Application>)
    ensures Quiet(c, Rollouts(e, cfg, event, c, apps))
  {
    var c1 := ReportPartialApps(e, c, apps);
    RolledOutUpToQuiet(e, cfg, event, c1, apps, |apps|);
    QuietTransitive(c, c1, Rollouts(e, cfg, event, c, apps));
  }

  lemma ArtifactsCreatedAhead(e: Env, cfg: Config, base: map<string, SiddhiProcess>, p: string, c: Ctl,
                              apps: seq<Application>)
    requires Ahead(base, p, c)
    ensures Ahead(base, p, ArtifactsCreated(e, cfg, c, apps))
    ensures ArtifactsCreated(e, cfg, c, apps).sp.status.previous == c.sp.status.current
    ensures ArtifactsCreated(e, cfg, c, apps).sp.status.current == c.sp.status.current
    ensures Reports(c.sp.status, ArtifactsCreated(e, cfg, c, apps).sp.status.(previous := c.sp.status.previous))
  {
    var event := EventOf(c.sp.status);
    RolloutsQuiet(e, cfg, event, c, apps);
    var c2 := Rollouts(e, cfg, event, c, apps);
    QuietAhead(base, p, c, c2);
    SyncedAhead(e, base, p, c2);
    var c3 := Synced(e, c2);
    assert Quiet(c3, ReportReady(e, c3, 0, |apps|));
    QuietAhead(base, p, c3, ReportReady(e, c3, 0, |apps|));
  }

  lemma OpenedAhead(e: Env, w: World, sp: SiddhiProcess, upgrade: bool)
    requires sp.name in w.kube.crs && w.kube.crs[sp.name] == sp && sp.status.previous <= sp.status.current
    ensures Ahead(w.kube.crs, sp.name, Opened(e, w, sp, upgrade))
  {
    var c1 := DefaultPending(e, Ctl(w.kube, sp));
    assert Ahead(w.kube.crs, sp.name, c1);
    var c2 := NotReadyWhenUpdated(e, c1);
    assert Ahead(w.kube.crs, sp.name, c2);
  }

  /** Version that a pass works on: a changed config map raises it by one. */
  function VersionOf(sp: SiddhiProcess, upgrade: bool): int {
    sp.status.current + if upgrade then 1 else 0
  }

  lemma OpenedVersions(e: Env, w: World, sp: SiddhiProcess, upgrade: bool)
    ensures var s := Opened(e, w, sp, upgrade).sp;
            && s.name == sp.name && s.status.previous == sp.status.previous
            && s.status.current == sp.status.current + if upgrade then 1 else 0
  {
  }

  lemma PreparedQuiet(e: Env, w: World, cfg: Config, sp: SiddhiProcess, upgrade: bool)
    ensures Quiet(Opened(e, w, sp, upgrade), Prepared(e, w, cfg, sp, upgrade))
    ensures SameRecords(Opened(e, w, sp, upgrade).kube, AllAppsRead(e, w, Opened(e, w, sp, upgrade)).kube)
  {
    var c := Opened(e, w, sp, upgrade);
    AppsReadKeeps(e, w.userConfigs, AppsRead(c.kube, w.listeners, false), c.sp.name, c.sp.spec.apps, |c.sp.spec.apps|);
    var c1 := c.(kube := AllAppsRead(e, w, c).kube);
    KubeQuiet(c, c1.kube);
    ReportQuiet(e, c1);
    QuietTransitive(c, c1, Report(e, c1));
  }

  /** What a pass has done to the records when it ends. */
  ghost predicate Evolved(p: string, crs: map<string, SiddhiProcess>, crs': map<string, SiddhiProcess>) {
    && p in crs && OnlyStatusOf(p, crs, crs')
    && Between(crs[p].status, crs'[p].status)
    && crs'[p].status.eventType == crs[p].status.eventType
  }

  lemma AppliedStatus(e: Env, base: map<string, SiddhiProcess>, w: World, cfg: Config, c: Ctl, apps: seq<Application>)
    requires Ahead(base, c.sp.name, c)
    ensures var r, p := AppsApplied(e, w, cfg, c, apps), c.sp.name;
            && Evolved(p, base, r.world.kube.crs)
            && Reachable(base[p].status, r.world.kube.crs[p].status.phase)
  {
    var p, needed := c.sp.name, NeedsMessaging(c.sp.spec, apps);
    var c0 := c.(kube := if needed then Tick(c.kube) else c.kube);
    KubeQuiet(c, c0.kube);
    QuietAhead(base, p, c, c0);
    ReportQuiet(e, c0);
    QuietAhead(base, p, c0, ReportError(e, c0));
    ArtifactsCreatedAhead(e, cfg, base, p, c0, apps);
    var c1 := ArtifactsCreated(e, cfg, c0, apps);
    RescaledUpToQuiet(e, c1, apps, |apps|);
    QuietAhead(base, p, c1, DeploymentsChecked(e, c1, apps));
  }

  lemma ConcludedStatus(e: Env, base: map<string, SiddhiProcess>, w: World, listeners: map<string, Listener>,
                        cfg: Config, c: Ctl)
    requires Ahead(base, c.sp.name, c)
    ensures var r, p := Concluded(e, w, listeners, cfg, c), c.sp.name;
            && Evolved(p, base, r.world.kube.crs)
            && Reachable(base[p].status, r.world.kube.crs[p].status.phase)
  {
    var p := c.sp.name;
    var pop := AppsPopulated(e, cfg, c, w.apps);
    PopulatedQuiet(e, cfg, c, w.apps);
    QuietAhead(base, p, c, pop.ctl);
    if pop.apps.Some? {
      AppliedStatus(e, base, CachesPopulated(w, listeners, cfg, c.sp, pop), cfg, pop.ctl, pop.apps.value);
    } else {
      ReportQuiet(e, pop.ctl);
      QuietAhead(base, p, pop.ctl, ReportError(e, pop.ctl));
    }
  }

  /** A pass that gives up with an error report. */
  lemma FailedStatus(e: Env, base: map<string, SiddhiProcess>, c: Ctl, k: Kube)
    requires Ahead(base, c.sp.name, c) && k.crs == c.kube.crs
    ensures var crs', p := ReportError(e, c.(kube := k)).kube.crs, c.sp.name;
            && Evolved(p, base, crs')
            && Reachable(base[p].status, crs'[p].status.phase)
  {
  }

  /** The record in store after a pass that is not a timer pass. */
  lemma AdvancedStatus(e: Env, w: World, cfg: Config, sp: SiddhiProcess, upgrade: bool)
    requires sp.name in w.kube.crs && w.kube.crs[sp.name] == sp && sp.status.previous <= sp.status.current
    ensures var crs' := Advanced(e, w, cfg, sp, upgrade).world.kube.crs;
            Evolved(sp.name, w.kube.crs, crs') && Reachable(sp.status, crs'[sp.name].status.phase)
  {
    var c := Opened(e, w, sp, upgrade);
    OpenedAhead(e, w, sp, upgrade);
    PreparedQuiet(e, w, cfg, sp, upgrade);
    var d := Prepared(e, w, cfg, sp, upgrade);
    QuietAhead(w.kube.crs, sp.name, c, d);
    var g := AllAppsRead(e, w, c);
    if g.err {
      FailedStatus(e, w.kube.crs, c, g.kube);
    } else {
      ConcludedStatus(e, w.kube.crs, w, g.listeners, cfg, d);
    }
  }

  lemma SaveStatusCrs(failed: set<nat>, c: Ctl)
    requires c.sp.name in c.kube.crs
    ensures var c', p := SaveStatus(failed, c), c.sp.name;
            && c'.sp == c.sp && OnlyStatusOf(p, c.kube.crs, c'.kube.crs)
            && (c'.kube.crs[p].status == c.kube.crs[p].status || c'.kube.crs[p].status == c.sp.status)
  {
  }

  /** Two status updates in a row, each of which may fail. */
  lemma TwoSaves(failed: set<nat>, c: Ctl, s: Status, t: Status)
    requires c.sp.name in c.kube.crs && c.kube.crs[c.sp.name].status == c.sp.status
    ensures var c1 := SaveStatus(failed, c.(sp := c.sp.(status := s)));
            var crs', p := SaveStatus(failed, c1.(sp := c1.sp.(status := t))).kube.crs, c.sp.name;
            OnlyStatusOf(p, c.kube.crs, crs') && crs'[p].status in {c.sp.status, s, t}
  {
  }

  lemma JudgedStatus(e: Env, c: Ctl, t: Tally)
    requires c.sp.name in c.kube.crs && c.kube.crs[c.sp.name] == c.sp
    ensures var crs', p := Judged(e, c, t).ctl.kube.crs, c.sp.name;
            OnlyStatusOf(p, c.kube.crs, crs') && TimerReport(c.sp.status, crs'[p].status, t)
  {
    var s1 := c.sp.status.(ready := ReadyText(t.available, t.need));
    var s2 := if ReadyByTally(t) then s1.(phase := Ready)
              else if s1.phase != Failed then s1.(phase := NotReady) else s1;
    TwoSaves(e.failedStatus, c, s1, s2);
    SaveStatusCrs(e.failedStatus, c.(sp := c.sp.(status := s1)));
    var c1 := SaveStatus(e.failedStatus, c.(sp := c.sp.(status := s1)));
    var r := Judged(e, c, t).ctl;
    assert r ==
           if ReadyByTally(t) || s1.phase != Failed then SaveStatus(e.failedStatus, c1.(sp := c1.sp.(status := s2)))
           else c1;
    assert r.kube.crs[c.sp.name].status in {c.sp.status, s1, s2};
  }

  /** The phase in store after a timer pass. */
  lemma TimerStatus(e: Env, c: Ctl, apps: seq<Application>)
    requires c.sp.name in c.kube.crs && c.kube.crs[c.sp.name] == c.sp
    ensures var crs', p := AvailabilityChecked(e, c, apps).ctl.kube.crs, c.sp.name;
            OnlyStatusOf(p, c.kube.crs, crs') && TimerReport(c.sp.status, crs'[p].status, Tallied(e, c.kube, apps))
  {
    var d, t := c.(kube := c.kube.(calls := c.kube.calls + |apps|)), Tallied(e, c.kube, apps);
    JudgedStatus(e, d, t);
    assert AvailabilityChecked(e, c, apps) == Judged(e, d, t);
  }

  /** A timer pass changes the phase to ready when the tally says so, or to not ready, but never
      from the error phase to not ready. */
  predicate TimerReport(s: Status, s': Status, t: Tally) {
    && SameVersions(s, s') && s'.eventType == s.eventType
    && (s'.phase != s.phase ==>
          if s'.phase == Ready then ReadyByTally(t) else s'.phase == NotReady && s.phase != Failed)
  }
}
