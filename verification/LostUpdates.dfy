/** When a stage of a pass gets none of its status updates stored, in terms of single calls. */
module LostUpdates {
  import opened SiddhiTypes
  import opened Ingress
  import opened Names
  import opened Cluster
  import opened Deployments
  import opened Controller
  import opened ParserLifecycle
  import opened Operator
  import opened StatusFlow

  /** The next call is a status update, and it fails. */
  predicate ReportLost(e: Env, c: Ctl) {
    c.kube.calls in e.failedStatus
  }

  /** No status update has been stored between `c` and `c'`. */
  predicate NoneStored(c: Ctl, c': Ctl) {
    c'.kube.stored == c.kube.stored
  }

  lemma SaveStoredIff(failed: set<nat>, c: Ctl)
    requires c.sp.name in c.kube.crs
    ensures NoneStored(c, SaveStatus(failed, c)) <==> c.kube.calls in failed
    ensures SaveStatus(failed, c).kube.stored >= c.kube.stored
  {
  }

  lemma StoredInTurn(c0: Ctl, c1: Ctl, c2: Ctl)
    requires Quiet(c0, c1) && Quiet(c1, c2)
    ensures NoneStored(c0, c2) <==> NoneStored(c0, c1) && NoneStored(c1, c2)
  {
  }

  // ---------------------------------------------------------------- rolling out

  predicate PublishLost(e: Env, cfg: Config, c: Ctl, a: Application) {
    var r := CreateOrUpdate(e, c.kube, c.sp.name, PutIngress(cfg.tls, PathsOf(a.name, a.ports)));
    cfg.autoIngress && r.err ==> ReportLost(e, c.(kube := r.kube))
  }

  /** The report on a call that did what the event asks for gets lost, if there is one. */
  predicate ReportIfLost(e: Env, c: Ctl, event: OperationResult, op: OperationResult) {
    event == op && op != Unchanged ==> ReportLost(e, c)
  }

  predicate ExposeLost(e: Env, cfg: Config, event: OperationResult, c: Ctl, a: Application) {
    var r := CreateOrUpdate(e, c.kube, c.sp.name, ServiceOf(a.name, a.ports));
    var c1 := c.(kube := r.kube);
    if r.err then ReportLost(e, c1)
    else ReportIfLost(e, c1, event, r.op) && PublishLost(e, cfg, ReportIf(e, c1, event, r.op), a)
  }

  /** Every report and error report on application `a` gets lost. */
  predicate RolloutLost(e: Env, cfg: Config, event: OperationResult, c: Ctl, a: Application) {
    var d := Deployed(e, cfg, c.kube, a, c.sp);
    var c1 := c.(kube := d.kube);
    if d.err then ReportLost(e, c1)
    else
      ReportIfLost(e, c1, event, d.op)
      && (a.serviceEnabled ==> ExposeLost(e, cfg, event, ReportIf(e, c1, event, d.op), a))
  }

  /** The same for the first `n` applications of a loop that starts at `c`. */
  predicate RolloutsLost(e: Env, cfg: Config, event: OperationResult, c: Ctl, apps: seq<Application>, n: nat)
    requires n <= |apps|
    decreases n
  {
    n == 0
    || (RolloutsLost(e, cfg, event, c, apps, n - 1)
        && RolloutLost(e, cfg, event, RolledOutUpTo(e, cfg, event, c, apps, n - 1), apps[n - 1]))
  }

  lemma ReportIfLostIff(e: Env, c: Ctl, event: OperationResult, op: OperationResult)
    requires c.sp.name in c.kube.crs
    ensures Quiet(c, ReportIf(e, c, event, op))
    ensures NoneStored(c, ReportIf(e, c, event, op)) <==> ReportIfLost(e, c, event, op)
  {
    ReportQuiet(e, c);
    SaveStoredIff(e.failedStatus, c);
  }

  lemma ReportErrorLostIff(e: Env, c: Ctl)
    requires c.sp.name in c.kube.crs
    ensures Quiet(c, ReportError(e, c)) && (NoneStored(c, ReportError(e, c)) <==> ReportLost(e, c))
  {
    ReportQuiet(e, c);
  }

  lemma PublishLostIff(e: Env, cfg: Config, c: Ctl, a: Application)
    requires c.sp.name in c.kube.crs
    ensures Quiet(c, Published(e, cfg, c, a))
    ensures NoneStored(c, Published(e, cfg, c, a)) <==> PublishLost(e, cfg, c, a)
  {
    var eff := PutIngress(cfg.tls, PathsOf(a.name, a.ports));
    ApplyCrs(e, c.kube, c.sp.name, eff);
    var c1 := c.(kube := CreateOrUpdate(e, c.kube, c.sp.name, eff).kube);
    KubeQuiet(c, c1.kube);
    ReportErrorLostIff(e, c1);
    QuietTransitive(c, c1, ReportError(e, c1));
  }

  lemma ExposeLostIff(e: Env, cfg: Config, event: OperationResult, c: Ctl, a: Application)
    requires c.sp.name in c.kube.crs
    ensures Quiet(c, ExposeApp(e, cfg, event, c, a))
    ensures NoneStored(c, ExposeApp(e, cfg, event, c, a)) <==> ExposeLost(e, cfg, event, c, a)
  {
    ExposeQuiet(e, cfg, event, c, a);
    var r := CreateOrUpdate(e, c.kube, c.sp.name, ServiceOf(a.name, a.ports));
    ApplyCrs(e, c.kube, c.sp.name, ServiceOf(a.name, a.ports));
    var c1 := c.(kube := r.kube);
    if r.err {
      ReportErrorLostIff(e, c1);
    } else {
      ReportIfLostIff(e, c1, event, r.op);
      var c2 := ReportIf(e, c1, event, r.op);
      PublishLostIff(e, cfg, c2, a);
      StoredInTurn(c1, c2, Published(e, cfg, c2, a));
    }
  }

  lemma RolloutLostIff(e: Env, cfg: Config, event: OperationResult, c: Ctl, a: Application)
    requires c.sp.name in c.kube.crs
    ensures NoneStored(c, RolledOut(e, cfg, event, c, a)) <==> RolloutLost(e, cfg, event, c, a)
  {
    DeployedCrs(e, cfg, c.kube, a, c.sp);
    var d := Deployed(e, cfg, c.kube, a, c.sp);
    var c1 := c.(kube := d.kube);
    if d.err {
      ReportErrorLostIff(e, c1);
    } else {
      ReportIfLostIff(e, c1, event, d.op);
      var c2 := ReportIf(e, c1, event, d.op);
      if a.serviceEnabled {
        ExposeLostIff(e, cfg, event, c2, a);
        StoredInTurn(c1, c2, ExposeApp(e, cfg, event, c2, a));
      }
    }
  }

  lemma RolloutLostStep(e: Env, cfg: Config, event: OperationResult, c: Ctl, q: Ctl, a: Application) returns (r: Ctl)
    requires Quiet(c, q) && c.sp.name in c.kube.crs
    ensures r == RolledOut(e, cfg, event, q, a) && Quiet(c, r)
    ensures NoneStored(c, r) <==> NoneStored(c, q) && RolloutLost(e, cfg, event, q, a)
  {
    r := RolledOut(e, cfg, event, q, a);
    RolledOutQuiet(e, cfg, event, q, a);
    QuietTransitive(c, q, r);
    StoredInTurn(c, q, r);
    RolloutLostIff(e, cfg, event, q, a);
  }

  lemma {:induction false} RolloutsLostIff(e: Env, cfg: Config, event: OperationResult, c: Ctl,
                                           apps: seq<Application>, n: nat) returns (r: Ctl)
    requires n <= |apps| && c.sp.name in c.kube.crs
    ensures r == RolledOutUpTo(e, cfg, event, c, apps, n) && Quiet(c, r)
    ensures NoneStored(c, r) <==> RolloutsLost(e, cfg, event, c, apps, n)
    decreases n
  {
    r := c;
    if n > 0 {
      var q := RolloutsLostIff(e, cfg, event, c, apps, n - 1);
      r := RolloutLostStep(e, cfg, event, c, q, apps[n - 1]);
      assert r == RolledOutUpTo(e, cfg, event, c, apps, n);
    }
  }

  // ---------------------------------------------------------------- until the synchronisation

  /** The controller when it is about to synchronise its version. */
  function BeforeSync(e: Env, cfg: Config, c: Ctl, apps: seq<Application>): Ctl {
    Rollouts(e, cfg, EventOf(c.sp.status), Messaged(c, apps), apps)
  }

  /** Every status update before the synchronisation gets lost: the list of applications, and each report
      on an application. */
  predicate RolloutUnheard(e: Env, cfg: Config, c: Ctl, apps: seq<Application>) {
    var event, c1 := EventOf(c.sp.status), Messaged(c, apps);
    && ReportLost(e, c1)
    && (event != Unchanged ==> RolloutsLost(e, cfg, event, ReportPartialApps(e, c1, apps), apps, |apps|))
  }

  lemma MessagedQuiet(c: Ctl, apps: seq<Application>)
    ensures Quiet(c, Messaged(c, apps)) && NoneStored(c, Messaged(c, apps))
  {
  }

  lemma PartialAppsLostIff(e: Env, c: Ctl, apps: seq<Application>)
    requires c.sp.name in c.kube.crs
    ensures var r := ReportPartialApps(e, c, apps); Quiet(c, r) && (NoneStored(c, r) <==> ReportLost(e, c))
  {
  }

  lemma BeforeSyncQuiet(e: Env, cfg: Config, c: Ctl, apps: seq<Application>)
    ensures Quiet(c, BeforeSync(e, cfg, c, apps))
  {
    MessagedQuiet(c, apps);
    RolloutsQuiet(e, cfg, EventOf(c.sp.status), Messaged(c, apps), apps);
    QuietTransitive(c, Messaged(c, apps), BeforeSync(e, cfg, c, apps));
  }

  lemma RolloutUnheardIff(e: Env, cfg: Config, c: Ctl, apps: seq<Application>)
    requires c.sp.name in c.kube.crs
    ensures NoneStored(c, BeforeSync(e, cfg, c, apps)) <==> RolloutUnheard(e, cfg, c, apps)
  {
    MessagedQuiet(c, apps);
    var c1 := Messaged(c, apps);
    PartialAppsLostIff(e, c1, apps);
    var c2 := ReportPartialApps(e, c1, apps);
    if EventOf(c.sp.status) != Unchanged {
      var r := RolloutsLostIff(e, cfg, EventOf(c.sp.status), c2, apps, |apps|);
      StoredInTurn(c1, c2, r);
    }
  }

  // ---------------------------------------------------------------- from the synchronisation on

  /** The controller at the end of a pass that has not been given up. */
  function AtEnd(e: Env, cfg: Config, c: Ctl, apps: seq<Application>): Ctl {
    DeploymentsChecked(e, ArtifactsCreated(e, cfg, Messaged(c, apps), apps), apps)
  }

  /** The server refuses a new replica count for application `a`. */
  predicate ScaleRefused(e: Env, c: Ctl, a: Application) {
    var k := c.kube;
    && k.calls !in e.failedReads && a.name in k.store.deployments && k.store.deployments[a.name].replicas != a.replicas
    && k.calls + 1 in e.failedWrites
  }

  /** The error report that follows gets lost, if there is one. */
  predicate RescaleUnheard(e: Env, c: Ctl, a: Application) {
    ScaleRefused(e, c, a) ==> c.kube.calls + 2 in e.failedStatus
  }

  /** The same for the application at index `i` of a loop that starts at `c`. */
  predicate UnheardAt(e: Env, c: Ctl, apps: seq<Application>, i: nat)
    requires i < |apps|
  {
    RescaleUnheard(e, RescaledUpTo(e, c, apps, i), apps[i])
  }

  /** Every status update from the synchronisation on gets lost: that of `SyncVersion`, the report of ready
      deployments after a rollout, and every error report on a refused replica count. */
  predicate SyncUnheard(e: Env, cfg: Config, c: Ctl, apps: seq<Application>) {
    var c2 := BeforeSync(e, cfg, c, apps);
    && c2.kube.calls in e.failedSyncs
    && (EventOf(c.sp.status) != Unchanged ==> c2.kube.calls + 1 in e.failedStatus)
    && forall i: nat :: i < |apps| ==> UnheardAt(e, ArtifactsCreated(e, cfg, Messaged(c, apps), apps), apps, i)
  }

  lemma RescaledStored(e: Env, c: Ctl, a: Application)
    requires c.sp.name in c.kube.crs
    ensures var r := Rescaled(e, c, a);
            r.sp.name == c.sp.name && r.sp.name in r.kube.crs && r.kube.stored >= c.kube.stored
            && (NoneStored(c, r) <==> RescaleUnheard(e, c, a))
  {
  }

  lemma {:induction false} RescaledUpToStored(e: Env, c: Ctl, apps: seq<Application>, n: nat) returns (r: Ctl)
    requires c.sp.name in c.kube.crs && n <= |apps|
    ensures r == RescaledUpTo(e, c, apps, n)
    ensures r.sp.name == c.sp.name && r.sp.name in r.kube.crs && r.kube.stored >= c.kube.stored
    ensures NoneStored(c, r) <==> forall i: nat :: i < n ==> UnheardAt(e, c, apps, i)
    decreases n
  {
    r := c;
    if n > 0 {
      r := RescaledUpToStored(e, c, apps, n - 1);
      RescaledStored(e, r, apps[n - 1]);
      UnheardStep(e, c, apps, n, r);
      r := Rescaled(e, r, apps[n - 1]);
    }
  }

  lemma UnheardStep(e: Env, c: Ctl, apps: seq<Application>, n: nat, r: Ctl)
    requires 0 < n <= |apps| && r == RescaledUpTo(e, c, apps, n - 1)
    ensures RescaledUpTo(e, c, apps, n) == Rescaled(e, r, apps[n - 1])
    ensures UnheardAt(e, c, apps, n - 1) <==> RescaleUnheard(e, r, apps[n - 1])
  {
  }

  lemma SyncStored(e: Env, c: Ctl, report: bool, need: nat)
    requires c.sp.name in c.kube.crs
    ensures var s := Synced(e, c);
            var r := if report then ReportReady(e, s, 0, need) else s;
            && r.sp.name == c.sp.name && r.sp.name in r.kube.crs && r.kube.stored >= c.kube.stored
            && (NoneStored(c, r) <==>
                c.kube.calls in e.failedSyncs && (report ==> c.kube.calls + 1 in e.failedStatus))
  {
  }

  /** Nothing has been stored from the synchronisation on exactly when the listed updates get lost. */
  lemma SyncUnheardIff(e: Env, cfg: Config, c: Ctl, apps: seq<Application>)
    requires c.sp.name in c.kube.crs
    ensures NoneStored(BeforeSync(e, cfg, c, apps), AtEnd(e, cfg, c, apps)) <==> SyncUnheard(e, cfg, c, apps)
  {
    BeforeSyncQuiet(e, cfg, c, apps);
    var c2, c1 := BeforeSync(e, cfg, c, apps), ArtifactsCreated(e, cfg, Messaged(c, apps), apps);
    SyncStored(e, c2, EventOf(c.sp.status) != Unchanged, |apps|);
    var r := RescaledUpToStored(e, c1, apps, |apps|);
  }

  // ---------------------------------------------------------------- cleaning

  /** The one or two reports on the deletion of application `i` get lost, as far as they are made. */
  predicate StopUnheard(e: Env, c: Ctl, i: nat) {
    var n := AppName(c.sp.name, i);
    var d := Delete(e, c.kube, c.sp.name, DropDeployment(n));
    var c1 := c.(kube := d.kube);
    d.err
    || (ReportLost(e, c1)
        && var s := Delete(e, Report(e, c1).kube, c.sp.name, DropService(n));
           s.err || ReportLost(e, c1.(kube := s.kube)))
  }

  predicate StopUnheardIf(e: Env, q: Cleaned, i: nat) {
    q.err || StopUnheard(e, q.ctl, i)
  }

  /** The same for all removals below `n` that a cleaning pass gets to. */
  predicate CleaningUnheard(e: Env, c: Ctl, lo: nat, n: nat)
    decreases n
  {
    n <= lo || (CleaningUnheard(e, c, lo, n - 1) && StopUnheardIf(e, RemovedUpTo(e, c, lo, n - 1), n - 1))
  }

  lemma StopUnheardIff(e: Env, c: Ctl, i: nat)
    requires c.sp.name in c.kube.crs
    ensures NoneStored(c, AppStopped(e, c, i).ctl) <==> StopUnheard(e, c, i)
  {
    var n, p := AppName(c.sp.name, i), c.sp.name;
    ApplyCrs(e, c.kube, p, DropDeployment(n));
    var c1 := c.(kube := Delete(e, c.kube, p, DropDeployment(n)).kube);
    SaveStoredIff(e.failedStatus, c1);
    var c2 := Report(e, c1);
    ApplyCrs(e, c2.kube, p, DropService(n));
    var c3 := c2.(kube := Delete(e, c2.kube, p, DropService(n)).kube);
    SaveStoredIff(e.failedStatus, c3);
  }

  lemma RemovedUnheardIff(e: Env, c: Ctl, i: nat)
    requires c.sp.name in c.kube.crs
    ensures NoneStored(c, AppRemoved(e, c, i).ctl) <==> StopUnheard(e, c, i)
  {
    StopUnheardIff(e, c, i);
    var r := AppStopped(e, c, i);
    if !r.err {
      var n := AppName(r.ctl.sp.name, i);
      ApplyCrs(e, r.ctl.kube, r.ctl.sp.name, DropClaim(ClaimName(n)));
      var v := Delete(e, r.ctl.kube, r.ctl.sp.name, DropClaim(ClaimName(n)));
      ApplyCrs(e, v.kube, r.ctl.sp.name, DropConfig(AppsConfigName(n, r.ctl.sp.status.previous)));
    }
  }

  lemma CleaningStep(e: Env, c: Ctl, q: Cleaned, i: nat) returns (r: Cleaned)
    requires Quiet(c, q.ctl) && c.sp.name in c.kube.crs
    ensures r == (if q.err then q else AppRemoved(e, q.ctl, i)) && Quiet(c, r.ctl)
    ensures NoneStored(c, r.ctl) <==> NoneStored(c, q.ctl) && StopUnheardIf(e, q, i)
  {
    r := q;
    if !q.err {
      r := AppRemoved(e, q.ctl, i);
      RemovedUnheardIff(e, q.ctl, i);
      AppRemovedQuiet(e, q.ctl, i);
      QuietTransitive(c, q.ctl, r.ctl);
      StoredInTurn(c, q.ctl, r.ctl);
    }
  }

  lemma {:induction false} CleaningUnheardIff(e: Env, c: Ctl, lo: nat, n: nat) returns (r: Cleaned)
    requires c.sp.name in c.kube.crs
    ensures r == RemovedUpTo(e, c, lo, n) && Quiet(c, r.ctl)
    ensures NoneStored(c, r.ctl) <==> CleaningUnheard(e, c, lo, n)
    decreases n
  {
    if n <= lo {
      r := Cleaned(c, false);
    } else {
      var q := CleaningUnheardIff(e, c, lo, n - 1);
      r := CleaningStep(e, c, q, n - 1);
      assert r == RemovedUpTo(e, c, lo, n);
    }
  }

  /** Every status update while the applications are populated gets lost. */
  predicate PopulationUnheard(e: Env, cfg: Config, c: Ctl, cache: map<string, seq<Application>>) {
    var r := ProcessParsed(e, cfg, c.kube, c.sp);
    Modified(c.sp.status) && r.apps.Some? ==>
      CleaningUnheard(e, c.(kube := r.kube), |r.apps.value|, if c.sp.name in cache then |cache[c.sp.name]| else 0)
  }

  lemma PopulationUnheardIff(e: Env, cfg: Config, c: Ctl, cache: map<string, seq<Application>>)
    requires c.sp.name in c.kube.crs
    ensures NoneStored(c, AppsPopulated(e, cfg, c, cache).ctl) <==> PopulationUnheard(e, cfg, c, cache)
  {
    ParsedCrs(e, cfg, c.kube, c.sp);
    var r := ProcessParsed(e, cfg, c.kube, c.sp);
    if Modified(c.sp.status) && r.apps.Some? {
      var c1, oldLen := c.(kube := r.kube), if c.sp.name in cache then |cache[c.sp.name]| else 0;
      var d := CleaningUnheardIff(e, c1, |r.apps.value|, oldLen);
      assert d == ArtifactsCleaned(e, c1, oldLen, |r.apps.value|);
    }
  }

  // ---------------------------------------------------------------- a whole pass

  /** The pass gets as far as its end: all config maps have been read, the applications are known and the
      messaging system is there. */
  predicate GetsThrough(e: Env, w: World, cfg: Config, sp: SiddhiProcess, upgrade: bool) {
    !AllAppsRead(e, w, Opened(e, w, sp, upgrade)).err && Finishes(e, w, cfg, Prepared(e, w, cfg, sp, upgrade))
  }

  predicate Finishes(e: Env, w: World, cfg: Config, c: Ctl) {
    var pop := AppsPopulated(e, cfg, c, w.apps);
    pop.apps.Some? && !MessagingFails(e, cfg, pop.ctl, pop.apps.value)
  }

  lemma GetsThroughIff(e: Env, w: World, cfg: Config, sp: SiddhiProcess, upgrade: bool)
    ensures Advanced(e, w, cfg, sp, upgrade).outcome == Completed <==> GetsThrough(e, w, cfg, sp, upgrade)
  {
  }

  /** Every status update once the pass populates its applications gets lost. */
  predicate ConclusionUnheard(e: Env, w: World, cfg: Config, c: Ctl) {
    var pop := AppsPopulated(e, cfg, c, w.apps);
    && PopulationUnheard(e, cfg, c, w.apps)
    && if pop.apps.None? then ReportLost(e, pop.ctl) else ApplicationUnheard(e, cfg, pop.ctl, pop.apps.value)
  }

  predicate ApplicationUnheard(e: Env, cfg: Config, c: Ctl, apps: seq<Application>) {
    if MessagingFails(e, cfg, c, apps) then ReportLost(e, Messaged(c, apps))
    else RolloutUnheard(e, cfg, c, apps) && SyncUnheard(e, cfg, c, apps)
  }

  /** Every status update of the pass from `UpgradeVersion` on gets lost. */
  predicate PassUnheard(e: Env, w: World, cfg: Config, sp: SiddhiProcess, upgrade: bool) {
    var c := Opened(e, w, sp, upgrade);
    var g := AllAppsRead(e, w, c);
    && (upgrade ==> UpgradePoint(e, w, sp).calls in e.failedUpgrades)
    && if g.err then ReportLost(e, c.(kube := g.kube))
       else
         && (Unlogged(w, cfg) ==> ReportLost(e, c.(kube := g.kube)))
         && ConclusionUnheard(e, w, cfg, Prepared(e, w, cfg, sp, upgrade))
  }

  /** The cluster when the version is about to be upgraded, if at all. */
  function UpgradePoint(e: Env, w: World, sp: SiddhiProcess): Kube {
    Opened(e, w, sp, false).kube
  }

  lemma ApplicationUnheardIff(e: Env, w: World, cfg: Config, c: Ctl, apps: seq<Application>)
    requires c.sp.name in c.kube.crs
    ensures var k := AppsApplied(e, w, cfg, c, apps).world.kube;
            k.stored >= c.kube.stored && (k.stored == c.kube.stored <==> ApplicationUnheard(e, cfg, c, apps))
  {
    MessagedQuiet(c, apps);
    if MessagingFails(e, cfg, c, apps) {
      ReportErrorLostIff(e, Messaged(c, apps));
    } else {
      RolloutUnheardIff(e, cfg, c, apps);
      SyncUnheardIff(e, cfg, c, apps);
      BeforeSyncQuiet(e, cfg, c, apps);
      EndGrows(e, cfg, c, apps);
      assert AppsApplied(e, w, cfg, c, apps).world.kube == AtEnd(e, cfg, c, apps).kube;
    }
  }

  lemma EndGrows(e: Env, cfg: Config, c: Ctl, apps: seq<Application>)
    requires c.sp.name in c.kube.crs
    ensures AtEnd(e, cfg, c, apps).kube.stored >= BeforeSync(e, cfg, c, apps).kube.stored
  {
    BeforeSyncQuiet(e, cfg, c, apps);
    SyncStored(e, BeforeSync(e, cfg, c, apps), EventOf(c.sp.status) != Unchanged, |apps|);
    var _ := RescaledUpToStored(e, ArtifactsCreated(e, cfg, Messaged(c, apps), apps), apps, |apps|);
  }

  lemma ConclusionUnheardIff(e: Env, w: World, listeners: map<string, Listener>, cfg: Config, c: Ctl)
    requires c.sp.name in c.kube.crs
    ensures var k := Concluded(e, w, listeners, cfg, c).world.kube;
            k.stored >= c.kube.stored && (k.stored == c.kube.stored <==> ConclusionUnheard(e, w, cfg, c))
  {
    PopulationUnheardIff(e, cfg, c, w.apps);
    PopulatedQuiet(e, cfg, c, w.apps);
    var pop := AppsPopulated(e, cfg, c, w.apps);
    if pop.apps.None? {
      ReportErrorLostIff(e, pop.ctl);
    } else {
      ApplicationUnheardIff(e, CachesPopulated(w, listeners, cfg, c.sp, pop), cfg, pop.ctl, pop.apps.value);
    }
  }

  lemma OpenedLostIff(e: Env, w: World, sp: SiddhiProcess, upgrade: bool)
    requires sp.name in w.kube.crs
    ensures var k, c := UpgradePoint(e, w, sp), Opened(e, w, sp, upgrade);
            && c.sp.name == sp.name && sp.name in c.kube.crs && c.kube.stored >= k.stored
            && (c.kube.stored == k.stored <==> (upgrade ==> k.calls in e.failedUpgrades))
  {
  }

  lemma PreparedLostIff(e: Env, w: World, cfg: Config, sp: SiddhiProcess, upgrade: bool)
    requires sp.name in w.kube.crs
    ensures var c, d := Opened(e, w, sp, upgrade), Prepared(e, w, cfg, sp, upgrade);
            NoneStored(c, d) <==> (Unlogged(w, cfg) ==> ReportLost(e, c.(kube := AllAppsRead(e, w, c).kube)))
  {
    OpenedLostIff(e, w, sp, upgrade);
    PreparedQuiet(e, w, cfg, sp, upgrade);
    var c := Opened(e, w, sp, upgrade);
    SaveStoredIff(e.failedStatus, c.(kube := AllAppsRead(e, w, c).kube));
  }

  /** Whatever fails: a pass gets no status update stored from `UpgradeVersion` on exactly when each of them
      gets lost. */
  lemma PassUnheardIff(e: Env, w: World, cfg: Config, sp: SiddhiProcess, upgrade: bool)
    requires sp.name in w.kube.crs
    ensures var k, k' := UpgradePoint(e, w, sp), Advanced(e, w, cfg, sp, upgrade).world.kube;
            k'.stored >= k.stored && (k'.stored == k.stored <==> PassUnheard(e, w, cfg, sp, upgrade))
  {
    OpenedLostIff(e, w, sp, upgrade);
    PreparedQuiet(e, w, cfg, sp, upgrade);
    PreparedLostIff(e, w, cfg, sp, upgrade);
    var c := Opened(e, w, sp, upgrade);
    var g := AllAppsRead(e, w, c);
    if g.err {
      ReportErrorLostIff(e, c.(kube := g.kube));
    } else {
      ConclusionUnheardIff(e, w, g.listeners, cfg, Prepared(e, w, cfg, sp, upgrade));
    }
  }
}
