/** What the controller of one SiddhiProcess does to its artifacts and its status. */
module Controller {
  import opened SiddhiTypes
  import opened Ingress
  import opened Decimal
  import opened Names
  import opened Cluster
  import opened Deployments

  /** A controller at work: the cluster and its own copy of the custom resource. */
  datatype Ctl = Ctl(kube: Kube, sp: SiddhiProcess)

  /** A status update stores the whole status of the working copy.  The working copy keeps its
      changes even when the update fails. */
  function SaveStatus(failed: set<nat>, c: Ctl): Ctl {
    var k := c.kube;
    if k.calls in failed || c.sp.name !in k.crs then c.(kube := Tick(k))
    else
      c.(kube := Tick(k).(crs := k.crs[c.sp.name := k.crs[c.sp.name].(status := c.sp.status)],
                          stored := k.stored + 1))
  }

  function EnterPhase(e: Env, c: Ctl, phase: Phase): Ctl {
    SaveStatus(e.failedStatus, c.(sp := c.sp.(status := c.sp.status.(phase := phase))))
  }

  function ReportError(e: Env, c: Ctl): Ctl {
    EnterPhase(e, c, Failed)
  }

  /** Warnings and progress reports store the status as it is. */
  function Report(e: Env, c: Ctl): Ctl {
    SaveStatus(e.failedStatus, c)
  }

  function ReadyText(available: int, need: int): string {
    Itoa(available) + "/" + Itoa(need)
  }

  function ReportReady(e: Env, c: Ctl, available: int, need: int): Ctl {
    SaveStatus(e.failedStatus, c.(sp := c.sp.(status := c.sp.status.(ready := ReadyText(available, need)))))
  }

  function PartialApps(apps: seq<Application>): seq<PartialApp> {
    seq(|apps|, i requires 0 <= i < |apps| => PartialApp(apps[i].name, apps[i].apps.Values))
  }

  function ReportPartialApps(e: Env, c: Ctl, apps: seq<Application>): Ctl {
    SaveStatus(e.failedStatus, c.(sp := c.sp.(status := c.sp.status.(partialApps := PartialApps(apps)))))
  }

  /** `SyncVersion`. */
  function Synced(e: Env, c: Ctl): Ctl {
    SaveStatus(e.failedSyncs, c.(sp := c.sp.(status := c.sp.status.(previous := c.sp.status.current))))
  }

  /** `UpgradeVersion`. */
  function Upgraded(e: Env, c: Ctl): Ctl {
    SaveStatus(e.failedUpgrades, c.(sp := c.sp.(status := c.sp.status.(current := c.sp.status.current + 1))))
  }

  /** `getEventType`: version 0 is applied on every pass, a later one while it is ahead. */
  function EventOf(s: Status): OperationResult {
    if s.current == 0 then Created else if s.current > s.previous then Updated else Unchanged
  }

  function DefaultPending(e: Env, c: Ctl): Ctl {
    if EventOf(c.sp.status) == Created && c.sp.status.phase == Unset then EnterPhase(e, c, Pending) else c
  }

  function NotReadyWhenUpdated(e: Env, c: Ctl): Ctl {
    if EventOf(c.sp.status) == Updated then EnterPhase(e, c, NotReady) else c
  }

  /** The report after a successful call, made only when the call did what the event asks for. */
  function ReportIf(e: Env, c: Ctl, event: OperationResult, op: OperationResult): Ctl {
    if event == op && op != Unchanged then Report(e, c) else c
  }

  function ExposeApp(e: Env, cfg: Config, event: OperationResult, c: Ctl, a: Application): Ctl {
    var r := CreateOrUpdate(e, c.kube, c.sp.name, ServiceOf(a.name, a.ports));
    if r.err then ReportError(e, c.(kube := r.kube))
    else
      Published(e, cfg, ReportIf(e, c.(kube := r.kube), event, r.op), a)
  }

  /** The paths of an application in the shared ingress, when the operator looks after it. */
  function Published(e: Env, cfg: Config, c: Ctl, a: Application): Ctl {
    if !cfg.autoIngress then c
    else
      var r := CreateOrUpdate(e, c.kube, c.sp.name, PutIngress(cfg.tls, PathsOf(a.name, a.ports)));
      if r.err then ReportError(e, c.(kube := r.kube)) else c.(kube := r.kube)
  }

  /** One pass of the loop in `CreateArtifacts`; an error never stops the loop. */
  function RolledOut(e: Env, cfg: Config, event: OperationResult, c: Ctl, a: Application): Ctl {
    var d := Deployed(e, cfg, c.kube, a, c.sp);
    if d.err then ReportError(e, c.(kube := d.kube))
    else
      var c1 := ReportIf(e, c.(kube := d.kube), event, d.op);
      if a.serviceEnabled then ExposeApp(e, cfg, event, c1, a) else c1
  }

  function RolledOutUpTo(e: Env, cfg: Config, event: OperationResult, c: Ctl, apps: seq<Application>, n: nat): Ctl
    requires n <= |apps|
    decreases n
  {
    if n == 0 then c
    else RolledOut(e, cfg, event, RolledOutUpTo(e, cfg, event, c, apps, n - 1), apps[n - 1])
  }

  /** The part of `CreateArtifacts` before the version is synchronised. */
  function Rollouts(e: Env, cfg: Config, event: OperationResult, c: Ctl, apps: seq<Application>): Ctl {
    var c1 := ReportPartialApps(e, c, apps);
    if event == Unchanged then c1 else RolledOutUpTo(e, cfg, event, c1, apps, |apps|)
  }

  /** `CreateArtifacts`: the version is synchronised whether or not every application succeeded. */
  function ArtifactsCreated(e: Env, cfg: Config, c: Ctl, apps: seq<Application>): Ctl {
    var event := EventOf(c.sp.status);
    var c1 := Synced(e, Rollouts(e, cfg, event, c, apps));
    if event == Unchanged then c1 else ReportReady(e, c1, 0, |apps|)
  }

  datatype Cleaned = Cleaned(ctl: Ctl, err: bool)

  /** First half of the removal of application `i`: its deployment and its service. */
  function AppStopped(e: Env, c: Ctl, i: nat): Cleaned {
    var n := AppName(c.sp.name, i);
    var d := Delete(e, c.kube, c.sp.name, DropDeployment(n));
    if d.err then Cleaned(c.(kube := d.kube), true)
    else
      var c1 := Report(e, c.(kube := d.kube));
      var s := Delete(e, c1.kube, c.sp.name, DropService(n));
      if s.err then Cleaned(c1.(kube := s.kube), true) else Cleaned(Report(e, c1.(kube := s.kube)), false)
  }

  /** Second half: its claim, and its config map of the previous version. */
  function AppReleased(e: Env, c: Ctl, i: nat): Cleaned {
    var n := AppName(c.sp.name, i);
    var v := Delete(e, c.kube, c.sp.name, DropClaim(ClaimName(n)));
    if v.err then Cleaned(c.(kube := v.kube), true)
    else
      var m := Delete(e, v.kube, c.sp.name, DropConfig(AppsConfigName(n, c.sp.status.previous)));
      Cleaned(c.(kube := m.kube), m.err)
  }

  /** The first error ends the removal. */
  function AppRemoved(e: Env, c: Ctl, i: nat): Cleaned {
    var r := AppStopped(e, c, i);
    if r.err then r else AppReleased(e, r.ctl, i)
  }

  function RemovedUpTo(e: Env, c: Ctl, lo: nat, n: nat): Cleaned
    decreases n
  {
    if n <= lo then Cleaned(c, false)
    else
      var r := RemovedUpTo(e, c, lo, n - 1);
      if r.err then r else AppRemoved(e, r.ctl, n - 1)
  }

  /** `CleanArtifacts`: applications that the new list no longer has, in ascending order. */
  function ArtifactsCleaned(e: Env, c: Ctl, oldLen: nat, newLen: nat): Cleaned {
    RemovedUpTo(e, c, newLen, oldLen)
  }

  /** `CheckDeployments` for one application. */
  function Rescaled(e: Env, c: Ctl, a: Application): Ctl {
    var k := c.kube;
    if k.calls in e.failedReads || a.name !in k.store.deployments
       || k.store.deployments[a.name].replicas == a.replicas
    then c.(kube := Tick(k))
    else
      var r := Write(e, Tick(k), c.sp.name, Scale(a.name, a.replicas), Updated);
      if r.err then ReportError(e, c.(kube := r.kube)) else c.(kube := r.kube)
  }

  function RescaledUpTo(e: Env, c: Ctl, apps: seq<Application>, n: nat): Ctl
    requires n <= |apps|
    decreases n
  {
    if n == 0 then c else Rescaled(e, RescaledUpTo(e, c, apps, n - 1), apps[n - 1])
  }

  function DeploymentsChecked(e: Env, c: Ctl, apps: seq<Application>): Ctl {
    RescaledUpTo(e, c, apps, |apps|)
  }

  /** The counters of `CheckAvailableDeployments`. */
  datatype Tally = Tally(
    need: int, available: int,
    needStateful: int, availableStateful: int,
    needStateless: int, availableStateless: int,
    statelessReady: bool)

  const EMPTY_TALLY := Tally(0, 0, 0, 0, 0, 0, true)

  /** Available replicas of an application, unless its deployment cannot be read. */
  function Observed(e: Env, k: Kube, a: Application): Option<int> {
    if k.calls in e.failedReads || a.name !in k.store.deployments then None
    else Some(k.store.deployments[a.name].available)
  }

  function Count(t: Tally, a: Application, seen: Option<int>): Tally {
    var n := if seen.Some? then seen.value else 0;
    var t1 := t.(need := t.need + a.replicas, available := t.available + n);
    if a.persistenceEnabled then
      t1.(needStateful := t.needStateful + a.replicas, availableStateful := t.availableStateful + n)
    else
      t1.(needStateless := t.needStateless + a.replicas, availableStateless := t.availableStateless + n,
          statelessReady := t.statelessReady && seen != Some(0))
  }

  /** The counters after the first `n` applications, one Get for each. */
  function TallyUpTo(e: Env, k: Kube, apps: seq<Application>, n: nat): Tally
    requires n <= |apps|
    decreases n
  {
    if n == 0 then EMPTY_TALLY
    else Count(TallyUpTo(e, k, apps, n - 1), apps[n - 1], Observed(e, k.(calls := k.calls + n - 1), apps[n - 1]))
  }

  /** The counters after all applications. */
  function Tallied(e: Env, k: Kube, apps: seq<Application>): Tally {
    TallyUpTo(e, k, apps, |apps|)
  }

  predicate AllAvailable(t: Tally) {
    t.need == t.available
  }

  predicate ReadyByTally(t: Tally) {
    AllAvailable(t) || (t.statelessReady && t.needStateful == t.availableStateful)
  }

  datatype Checked = Checked(ctl: Ctl, terminate: bool)

  /** `CheckAvailableDeployments`. */
  function AvailabilityChecked(e: Env, c: Ctl, apps: seq<Application>): Checked {
    Judged(e, c.(kube := c.kube.(calls := c.kube.calls + |apps|)), Tallied(e, c.kube, apps))
  }

  /** What `CheckAvailableDeployments` makes of its counters. */
  function Judged(e: Env, c: Ctl, t: Tally): Checked {
    var c1 := ReportReady(e, c, t.available, t.need);
    if ReadyByTally(t) then Checked(EnterPhase(e, c1, Ready), AllAvailable(t))
    else if c1.sp.status.phase != Failed then Checked(EnterPhase(e, c1, NotReady), false)
    else Checked(c1, false)
  }
}
