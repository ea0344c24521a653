/** The operator as a transition system: custom resources, caches and cluster, changed by events
    and by reconcile passes. */
module Operator {
  import opened SiddhiTypes
  import opened SpecEquality
  import opened Cluster
  import opened Deployments
  import opened Controller
  import opened ParserLifecycle

  /** The process that mounts a user config map, and whether the map has changed since. */
  datatype Listener = Listener(process: string, changed: bool)

  /** `apps` is `SPContainer`, `listeners` is `CMContainer`, `userConfigs` are the config maps of
      users.  `parsedSpec` and `rollouts` record, for the theorems only, which spec the cached
      applications were parsed from and which versions above 0 have been rolled out. */
  datatype World = World(
    kube: Kube,
    apps: map<string, seq<Application>>,
    listeners: map<string, Listener>,
    userConfigs: map<string, map<string, string>>,
    messagingLogged: bool,
    parsedSpec: map<string, Spec>,
    rollouts: map<string, seq<int>>)

  const EMPTY_STORE := Store(map[], map[], map[], map[], None)

  const INITIAL := World(Kube(map[], EMPTY_STORE, [], 0, 0), map[], map[], map[], false, map[], map[])

  predicate KnownConfig(userConfigs: map<string, map<string, string>>, s: Store, n: string) {
    n in userConfigs || n in s.configMaps
  }

  predicate IsConfigMap(w: World, n: string) {
    KnownConfig(w.userConfigs, w.kube.store, n)
  }

  datatype AppsRead = AppsRead(kube: Kube, listeners: map<string, Listener>, err: bool)

  /** `getSiddhiApps`, from `start` on: every config map it reads becomes listened to, until one
      cannot be read. */
  function AppsReadUpTo(e: Env, userConfigs: map<string, map<string, string>>, start: AppsRead, p: string,
                        refs: seq<AppRef>, n: nat): AppsRead
    requires n <= |refs|
    decreases n
  {
    if n == 0 then start
    else
      var r := AppsReadUpTo(e, userConfigs, start, p, refs, n - 1);
      var cm := refs[n - 1].configMap;
      if r.err || cm == "" then r
      else if r.kube.calls in e.failedReads || !KnownConfig(userConfigs, r.kube.store, cm) then
        AppsRead(Tick(r.kube), r.listeners, true)
      else AppsRead(Tick(r.kube), r.listeners[cm := Listener(p, false)], false)
  }

  datatype Populated = Populated(ctl: Ctl, apps: Option<seq<Application>>, parsed: bool)

  predicate Modified(s: Status) {
    s.current > s.previous
  }

  /** `populateSiddhiApps`. */
  function AppsPopulated(e: Env, cfg: Config, c: Ctl, cache: map<string, seq<Application>>): Populated {
    var p := c.sp.name;
    if !Modified(c.sp.status) && p in cache then Populated(c, Some(cache[p]), false)
    else
      var r := ProcessParsed(e, cfg, c.kube, c.sp);
      var c1 := c.(kube := r.kube);
      if r.apps.None? then Populated(c1, None, false)
      else if !Modified(c.sp.status) then Populated(c1, r.apps, true)
      else
        var oldLen := if p in cache then |cache[p]| else 0;
        var d := ArtifactsCleaned(e, c1, oldLen, |r.apps.value|);
        if d.err then Populated(d.ctl, None, false) else Populated(d.ctl, r.apps, true)
  }

  predicate NeedsMessaging(spec: Spec, apps: seq<Application>) {
    && spec.messaging.typ != ""
    && spec.messaging.clusterId == "" && spec.messaging.servers == []
    && exists i :: 0 <= i < |apps| && apps[i].persistenceEnabled
  }

  datatype Outcome =
    NotFound | TimerChecked(terminate: bool) | AppReadError | ParserFailed | MessagingFailed | Completed

  datatype Reconciled = Reconciled(world: World, outcome: Outcome)

  predicate MessagingFails(e: Env, cfg: Config, c: Ctl, apps: seq<Application>) {
    NeedsMessaging(c.sp.spec, apps) && (!cfg.natsInstalled || c.kube.calls in e.failedWrites)
  }

  /** The call that creates the messaging clusters has been made, if any. */
  function Messaged(c: Ctl, apps: seq<Application>): Ctl {
    if NeedsMessaging(c.sp.spec, apps) then c.(kube := Tick(c.kube)) else c
  }

  /** The tail of `Reconcile`, once the applications are known. */
  function AppsApplied(e: Env, w: World, cfg: Config, c: Ctl, apps: seq<Application>): Reconciled {
    var p := c.sp.name;
    if MessagingFails(e, cfg, c, apps) then
      Reconciled(w.(kube := ReportError(e, Messaged(c, apps)).kube), MessagingFailed)
    else
      var c1 := ArtifactsCreated(e, cfg, Messaged(c, apps), apps);
      var c2 := DeploymentsChecked(e, c1, apps);
      var done := if EventOf(c.sp.status) == Updated && p in w.rollouts then
                    w.rollouts[p := w.rollouts[p] + [c.sp.status.current]]
                  else w.rollouts;
      Reconciled(w.(kube := c2.kube, rollouts := done), Completed)
  }

  /** The beginning of a pass that is not a timer pass; `upgrade` when a config map has changed. */
  function Opened(e: Env, w: World, sp: SiddhiProcess, upgrade: bool): Ctl {
    var c := NotReadyWhenUpdated(e, DefaultPending(e, Ctl(w.kube, sp)));
    if upgrade then Upgraded(e, c) else c
  }

  function AllAppsRead(e: Env, w: World, c: Ctl): AppsRead {
    AppsReadUpTo(e, w.userConfigs, AppsRead(c.kube, w.listeners, false), c.sp.name, c.sp.spec.apps, |c.sp.spec.apps|)
  }

  /** The missing messaging operators are reported once in the life of the operator. */
  predicate Unlogged(w: World, cfg: Config) {
    !w.messagingLogged && !cfg.natsInstalled
  }

  /** The controller when it is about to populate its applications. */
  function Prepared(e: Env, w: World, cfg: Config, sp: SiddhiProcess, upgrade: bool): Ctl {
    var c := Opened(e, w, sp, upgrade);
    var c1 := c.(kube := AllAppsRead(e, w, c).kube);
    if Unlogged(w, cfg) then Report(e, c1) else c1
  }

  /** The caches once the applications are known. */
  function CachesPopulated(w: World, listeners: map<string, Listener>, cfg: Config, sp: SiddhiProcess,
                           pop: Populated): World {
    var w1 := w.(listeners := listeners, messagingLogged := w.messagingLogged || Unlogged(w, cfg));
    if pop.parsed && pop.apps.Some? then
      w1.(apps := w.apps[sp.name := pop.apps.value], parsedSpec := w.parsedSpec[sp.name := sp.spec])
    else w1
  }

  /** The rest of a pass once all Siddhi applications have been read. */
  function Concluded(e: Env, w: World, listeners: map<string, Listener>, cfg: Config, c: Ctl): Reconciled {
    var pop := AppsPopulated(e, cfg, c, w.apps);
    var w1 := CachesPopulated(w, listeners, cfg, c.sp, pop);
    if pop.apps.None? then Reconciled(w1.(kube := ReportError(e, pop.ctl).kube), ParserFailed)
    else AppsApplied(e, w1, cfg, pop.ctl, pop.apps.value)
  }

  /** `Reconcile` after the timer branch. */
  function Advanced(e: Env, w: World, cfg: Config, sp: SiddhiProcess, upgrade: bool): Reconciled {
    var c := Opened(e, w, sp, upgrade);
    var g := AllAppsRead(e, w, c);
    if g.err then
      Reconciled(w.(listeners := g.listeners, kube := ReportError(e, c.(kube := g.kube)).kube), AppReadError)
    else Concluded(e, w, g.listeners, cfg, Prepared(e, w, cfg, sp, upgrade))
  }

  predicate TimerPass(w: World, sp: SiddhiProcess) {
    sp.status.eventType == TimerEvent && sp.name in w.apps && w.apps[sp.name] != []
  }

  function Found(e: Env, w: World, cfg: Config, sp: SiddhiProcess, upgrade: bool): Reconciled {
    if TimerPass(w, sp) then
      var r := AvailabilityChecked(e, Ctl(w.kube, sp), w.apps[sp.name]);
      Reconciled(w.(kube := r.ctl.kube), TimerChecked(r.terminate))
    else Advanced(e, w, cfg, sp, upgrade)
  }

  /** The first Get of `Reconcile` finds a config map under the requested name. */
  predicate ForConfigMap(e: Env, w: World, request: string) {
    w.kube.calls !in e.failedReads && IsConfigMap(w, request)
  }

  /** The process that a request is about. */
  function Target(e: Env, w: World, request: string): string {
    if !ForConfigMap(e, w, request) then request
    else if request in w.listeners then w.listeners[request].process
    else ""
  }

  /** A config map that has been dealt with is no longer marked as changed. */
  function ListenersSettled(w: World, outcome: Outcome, request: string): World {
    if outcome == Completed then
      var process := if request in w.listeners then w.listeners[request].process else "";
      w.(listeners := w.listeners[request := Listener(process, false)])
    else w
  }

  /** The second Get of `Reconcile` finds the process. */
  predicate Reaches(e: Env, w: World, request: string) {
    w.kube.calls + 1 !in e.failedReads && Target(e, w, request) in w.kube.crs
  }

  /** Both Gets have been made. */
  function Entered(w: World): World {
    w.(kube := w.kube.(calls := w.kube.calls + 2))
  }

  /** `Reconcile`. */
  function Reconcile(e: Env, w: World, request: string, cfg: Config): Reconciled {
    if !Reaches(e, w, request) then Reconciled(Entered(w), NotFound)
    else
      var upgrade := ForConfigMap(e, w, request);
      var r := Found(e, Entered(w), cfg, w.kube.crs[Target(e, w, request)], upgrade);
      if upgrade then Reconciled(ListenersSettled(r.world, r.outcome, request), r.outcome) else r
  }

  datatype Step =
    | CreateProcess(name: string, spec: Spec)
    | UpdateProcess(name: string, spec: Spec)
    | DeleteProcess(name: string)
    | PutUserConfig(name: string, data: map<string, string>)
    | DropUserConfig(name: string)
    | Observe(name: string, available: int)
    | ReconcileRequest(name: string, cfg: Config)

  function NewProcess(n: string, spec: Spec): SiddhiProcess {
    SiddhiProcess(n, spec, Status(Unset, "", 0, 0, NoEvent, []))
  }

  /** The update predicate: a visible change raises the version, anything else, including the echo
      of a status update, turns the next passes into timer passes. */
  function OnUpdate(sp: SiddhiProcess, spec: Spec): SiddhiProcess {
    var stored := AfterCompare(sp.spec, spec);
    if Equals(sp.spec, spec) then sp.(spec := stored, status := sp.status.(eventType := TimerEvent))
    else sp.(spec := stored, status := sp.status.(current := sp.status.current + 1, eventType := UpdateEvent))
  }

  function WithStore(k: Kube, s: Store): Kube {
    k.(store := s, past := History(k))
  }

  /** An event: something that users or the cluster do. */
  function Event(w: World, step: Step): World
    requires !step.ReconcileRequest?
  {
    match step
    case CreateProcess(n, spec) =>
      if n in w.kube.crs then w
      else w.(kube := w.kube.(crs := w.kube.crs[n := NewProcess(n, spec)]), rollouts := w.rollouts[n := []])
    case UpdateProcess(n, spec) =>
      if n !in w.kube.crs then w
      else w.(kube := w.kube.(crs := w.kube.crs[n := OnUpdate(w.kube.crs[n], spec)]))
    case DeleteProcess(n) =>
      if n !in w.kube.crs then w
      else w.(kube := WithStore(w.kube.(crs := w.kube.crs - {n}), CollectGarbage(w.kube.store, n)),
              apps := w.apps - {n}, parsedSpec := w.parsedSpec - {n}, rollouts := w.rollouts - {n})
    case PutUserConfig(n, data) =>
      w.(userConfigs := w.userConfigs[n := data],
         listeners := if n in w.userConfigs && n in w.listeners then w.listeners[n := w.listeners[n].(changed := true)]
                      else w.listeners)
    case DropUserConfig(n) => w.(userConfigs := w.userConfigs - {n})
    case Observe(n, available) =>
      if n !in w.kube.store.deployments then w
      else
        var s := w.kube.store;
        w.(kube := WithStore(w.kube, s.(deployments := s.deployments[n := s.deployments[n].(available := available)])))
  }

  function Next(e: Env, w: World, step: Step): World {
    if step.ReconcileRequest? then Reconcile(e, w, step.name, step.cfg).world else Event(w, step)
  }

  /** The world after a sequence of events and reconcile passes, in any order. */
  function Run(e: Env, steps: seq<Step>): World
    decreases |steps|
  {
    if steps == [] then INITIAL else Next(e, Run(e, steps[..|steps| - 1]), steps[|steps| - 1])
  }
}
