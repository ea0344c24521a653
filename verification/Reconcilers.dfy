/** The reconciler as an object: its two caches, the client, and the predicates that handle events. */
module Reconcilers {
  import opened SiddhiTypes
  import opened SpecEquality
  import opened Cluster
  import opened Deployments
  import opened Controller
  import opened ParserLifecycle
  import opened SiddhiControllers
  import opened Operator

  class ReconcileSiddhiProcess {
    const client: KubeClient
    var spContainer: map<string, seq<Application>>
    var cmContainer: map<string, Listener>
    var messagingLogged: bool
    var userConfigs: map<string, map<string, string>>
    ghost var parsedSpec: map<string, Spec>
    ghost var rollouts: map<string, seq<int>>

    constructor (env: Env)
      ensures fresh(client) && client.env == env
      ensures State() == INITIAL
    {
      client := new KubeClient(env, INITIAL.kube);
      spContainer, cmContainer, messagingLogged, userConfigs := map[], map[], false, map[];
      parsedSpec, rollouts := map[], map[];
    }

    ghost function State(): World
      reads this, client
    {
      World(client.kube, spContainer, cmContainer, userConfigs, messagingLogged, parsedSpec, rollouts)
    }

    /** Predicate for the creation of a SiddhiProcess. */
    method OnCreate(name: string, spec: Spec)
      modifies this, client
      ensures State() == Event(old(State()), CreateProcess(name, spec))
    {
      if name !in client.kube.crs {
        var status := Status(Unset, "", 0, 0, NoEvent, []);
        client.kube := client.kube.(crs := client.kube.crs[name := SiddhiProcess(name, spec, status)]);
        rollouts := rollouts[name := []];
      }
    }

    /** Predicate for an update; comparing the specs sorts the server lists of both. */
    method OnUpdate(name: string, spec: Spec)
      modifies this, client
      ensures State() == Event(old(State()), UpdateProcess(name, spec))
    {
      if name in client.kube.crs {
        var sp := client.kube.crs[name];
        var oldMessaging := new MessagingSystem(sp.spec.messaging);
        var newMessaging := new MessagingSystem(spec.messaging);
        var equal := SpecEquals(sp.spec, spec, oldMessaging, newMessaging);
        var stored := spec.(messaging := newMessaging.Value());
        assert stored == AfterCompare(sp.spec, spec);
        if !equal {
          sp := sp.(status := sp.status.(current := sp.status.current + 1, eventType := UpdateEvent));
        } else {
          sp := sp.(status := sp.status.(eventType := TimerEvent));
        }
        client.kube := client.kube.(crs := client.kube.crs[name := sp.(spec := stored)]);
      }
    }

    /** Predicate for a deletion, together with the removal of all that the process owns. */
    method OnDelete(name: string)
      modifies this, client
      ensures State() == Event(old(State()), DeleteProcess(name))
    {
      if name in client.kube.crs {
        spContainer := spContainer - {name};
        parsedSpec, rollouts := parsedSpec - {name}, rollouts - {name};
        var k := client.kube;
        client.kube := k.(crs := k.crs - {name}, past := k.past + [k.store], store := CollectGarbage(k.store, name));
      }
    }

    /** Predicate for a user config map. */
    method OnConfig(name: string, data: map<string, string>)
      modifies this
      ensures State() == Event(old(State()), PutUserConfig(name, data))
    {
      if name in userConfigs && name in cmContainer {
        cmContainer := cmContainer[name := cmContainer[name].(changed := true)];
      }
      userConfigs := userConfigs[name := data];
    }

    method IsConfig(name: string) returns (r: bool)
      ensures r == IsConfigMap(State(), name)
    {
      r := name in userConfigs || name in client.kube.store.configMaps;
    }

    /** `getSiddhiApps`. */
    method GetSiddhiApps(process: SiddhiProcess) returns (err: bool)
      modifies this`cmContainer, client
      ensures var r := AppsReadUpTo(client.env, userConfigs, AppsRead(old(client.kube), old(cmContainer), false),
                                    process.name, process.spec.apps, |process.spec.apps|);
              client.kube == r.kube && cmContainer == r.listeners && err == r.err
    {
      err := false;
      var refs := process.spec.apps;
      ghost var start := AppsRead(client.kube, cmContainer, false);
      for i := 0 to |refs|
        invariant AppsReadUpTo(client.env, userConfigs, start, process.name, refs, i) ==
                  AppsRead(client.kube, cmContainer, false)
      {
        var cm := refs[i].configMap;
        if cm != "" {
          var known := IsConfig(cm);
          var found, _ := client.Get(known);
          if !found {
            AppsReadStops(client.env, userConfigs, start, process.name, refs, i + 1, |refs|);
            return true;
          }
          cmContainer := cmContainer[cm := Listener(process.name, false)];
        }
      }
    }

    /** `populateSiddhiApps`. */
    method PopulateSiddhiApps(controller: SiddhiController, parser: Parser) returns (apps: seq<Application>, err: bool)
      requires controller.client == client && parser.client == client
      requires parser.config == controller.config && parser.process == controller.process
      modifies this`spContainer, this`parsedSpec, controller, client
      ensures var pop := AppsPopulated(client.env, controller.config, old(controller.State()), old(spContainer));
              && controller.State() == pop.ctl && err == pop.apps.None? && (!err ==> apps == pop.apps.value)
              && spContainer == (if pop.parsed && !err then old(spContainer[controller.process.name := apps])
                                 else old(spContainer))
              && parsedSpec == (if pop.parsed && !err then
                                  old(parsedSpec[controller.process.name := controller.process.spec])
                                else old(parsedSpec))
    {
      var p := controller.process.name;
      apps, err := [], false;
      if Modified(controller.process.status) {
        var newApps;
        newApps, err := parser.Parse();
        if err {
          return;
        }
        var oldApps := if p in spContainer then spContainer[p] else [];
        err := controller.CleanArtifacts(oldApps, newApps);
        if err {
          return;
        }
        apps := newApps;
      } else if p in spContainer {
        return spContainer[p], false;
      } else {
        apps, err := parser.Parse();
        if err {
          return;
        }
      }
      spContainer := spContainer[p := apps];
      parsedSpec := parsedSpec[p := controller.process.spec];
    }

    /** The creation of the NATS clusters, as far as it can fail. */
    method CreateMessagingSystem(process: SiddhiProcess, cfg: Config, apps: seq<Application>) returns (err: bool)
      modifies client
      ensures var needed := NeedsMessaging(process.spec, apps);
              && client.kube == (if needed then Tick(old(client.kube)) else old(client.kube))
              && err == (needed && (!cfg.natsInstalled || old(client.kube).calls in client.env.failedWrites))
    {
      var persistenceEnabled := false;
      for i := 0 to |apps|
        invariant persistenceEnabled == exists k :: 0 <= k < i && apps[k].persistenceEnabled
      {
        if apps[i].persistenceEnabled {
          persistenceEnabled := true;
          break;
        }
      }
      var messaging := process.spec.messaging;
      err := false;
      if messaging.typ != "" && messaging.clusterId == "" && messaging.servers == [] && persistenceEnabled {
        err := !cfg.natsInstalled || client.kube.calls in client.env.failedWrites;
        client.CountCall();
      }
    }

    /** The tail of `Reconcile`. */
    method Apply(controller: SiddhiController, cfg: Config, apps: seq<Application>) returns (outcome: Outcome)
      requires controller.client == client && controller.config == cfg
      modifies this`rollouts, controller, client
      ensures var r := AppsApplied(client.env, old(State()), cfg, old(controller.State()), apps);
              State() == r.world && outcome == r.outcome
    {
      var err := CreateMessagingSystem(controller.process, cfg, apps);
      if err {
        controller.UpdateErrorStatus();
        return MessagingFailed;
      }
      ghost var p, status := controller.process.name, controller.process.status;
      controller.CreateArtifacts(apps);
      controller.CheckDeployments(apps);
      if EventOf(status) == Updated && p in rollouts {
        rollouts := rollouts[p := rollouts[p] + [status.current]];
      }
      return Completed;
    }

    /** The first status reports, and the new version when a config map has changed. */
    method Open(controller: SiddhiController, cfg: Config, upgrade: bool)
      requires controller.client == client
      modifies controller, client
      ensures var w := World(old(client.kube), map[], map[], map[], false, map[], map[]);
              controller.State() == Opened(client.env, w, old(controller.process), upgrade)
    {
      controller.SetDefaultPendingState();
      controller.SetNotReadyState();
      if upgrade {
        controller.UpgradeVersion();
      }
    }

    /** The beginning of a pass up to the reading of its Siddhi applications. */
    method Begin(controller: SiddhiController, cfg: Config, upgrade: bool) returns (err: bool)
      requires controller.client == client
      modifies this`cmContainer, controller, client
      ensures var c := Opened(client.env, old(State()), old(controller.process), upgrade);
              var g := AllAppsRead(client.env, old(State()), c);
              && controller.State() == c.(kube := g.kube) && err == g.err
              && State() == old(State()).(kube := g.kube, listeners := g.listeners)
    {
      Open(controller, cfg, upgrade);
      err := GetSiddhiApps(controller.process);
    }

    /** A pass that is not a timer pass. */
    method Advance(controller: SiddhiController, cfg: Config, upgrade: bool) returns (outcome: Outcome)
      requires controller.client == client && controller.config == cfg
      modifies this, controller, client
      ensures var r := Advanced(client.env, old(State()), cfg, old(controller.process), upgrade);
              State() == r.world && outcome == r.outcome
    {
      ghost var w, sp := State(), controller.process;
      var err := Begin(controller, cfg, upgrade);
      if err {
        controller.UpdateErrorStatus();
        return AppReadError;
      }
      ConcludedForgets(client.env, w, client.kube, cmContainer, cfg, Prepared(client.env, w, cfg, sp, upgrade));
      outcome := Conclude(controller, cfg);
    }

    /** The message that the messaging operators are missing, sent once. */
    method LogMissingMessaging(controller: SiddhiController, cfg: Config)
      requires controller.client == client
      modifies this`messagingLogged, controller, client
      ensures controller.State() == if Unlogged(old(State()), cfg) then Report(client.env, old(controller.State()))
                                    else old(controller.State())
      ensures messagingLogged == (old(messagingLogged) || !cfg.natsInstalled)
    {
      if !messagingLogged && !cfg.natsInstalled {
        controller.UpdateRunningStatus();
        messagingLogged := true;
      }
    }

    /** From the Siddhi applications to those that have to be deployed. */
    method Populate(controller: SiddhiController, cfg: Config) returns (apps: seq<Application>, err: bool)
      requires controller.client == client && controller.config == cfg
      modifies this`messagingLogged, this`spContainer, this`parsedSpec, controller, client
      ensures var w, e := old(State()), client.env;
              var c := if Unlogged(w, cfg) then Report(e, old(controller.State())) else old(controller.State());
              var pop := AppsPopulated(e, cfg, c, w.apps);
              && controller.State() == pop.ctl && err == pop.apps.None? && (!err ==> apps == pop.apps.value)
              && State() == CachesPopulated(w, w.listeners, cfg, c.sp, pop).(kube := pop.ctl.kube)
    {
      LogMissingMessaging(controller, cfg);
      var parser := new Parser(client, cfg, controller.process);
      apps, err := PopulateSiddhiApps(controller, parser);
    }

    /** The rest of a pass once all Siddhi applications have been read. */
    method Conclude(controller: SiddhiController, cfg: Config) returns (outcome: Outcome)
      requires controller.client == client && controller.config == cfg
      modifies this, controller, client
      ensures var w, e := old(State()), client.env;
              var c := if Unlogged(w, cfg) then Report(e, old(controller.State())) else old(controller.State());
              var r := Concluded(e, w, old(cmContainer), cfg, c);
              State() == r.world && outcome == r.outcome
    {
      ghost var w, c0 := State(), controller.State();
      var apps, err := Populate(controller, cfg);
      if err {
        controller.UpdateErrorStatus();
        return ParserFailed;
      }
      ghost var c := if Unlogged(w, cfg) then Report(client.env, c0) else c0;
      ghost var pop := AppsPopulated(client.env, cfg, c, w.apps);
      AppliedForgets(client.env, CachesPopulated(w, w.listeners, cfg, c.sp, pop), pop.ctl.kube, cfg, pop.ctl, apps);
      outcome := Apply(controller, cfg, apps);
    }

    /** A pass for a process that has been found. */
    method Pass(process: SiddhiProcess, cfg: Config, upgrade: bool) returns (outcome: Outcome)
      modifies this, client
      ensures var r := Found(client.env, old(State()), cfg, process, upgrade);
              State() == r.world && outcome == r.outcome
    {
      var controller := new SiddhiController(client, cfg, process);
      if process.status.eventType == TimerEvent && process.name in spContainer && spContainer[process.name] != [] {
        var terminate := controller.CheckAvailableDeployments(spContainer[process.name]);
        return TimerChecked(terminate);
      }
      outcome := Advance(controller, cfg, upgrade);
    }

    /** The two Gets at the beginning of `Reconcile`. */
    method Locate(request: string) returns (name: string, upgrade: bool, found: bool)
      modifies client
      ensures State() == Entered(old(State()))
      ensures upgrade == ForConfigMap(client.env, old(State()), request)
      ensures found == Reaches(client.env, old(State()), request)
      ensures name == Target(client.env, old(State()), request)
    {
      name, upgrade := request, false;
      var known := IsConfig(request);
      var isConfig, _ := client.Get(known);
      if isConfig {
        name := if request in cmContainer then cmContainer[request].process else "";
        upgrade := true;
      }
      var read, _ := client.Get(name in client.kube.crs);
      found := read;
    }

    /** The change of a config map has been dealt with. */
    method SettleListener(request: string, outcome: Outcome)
      modifies this`cmContainer
      ensures State() == ListenersSettled(old(State()), outcome, request)
    {
      if outcome == Completed {
        var process := if request in cmContainer then cmContainer[request].process else "";
        cmContainer := cmContainer[request := Listener(process, false)];
      }
    }

    method Reconcile(request: string, cfg: Config) returns (outcome: Outcome)
      modifies this, client
      ensures var r := Operator.Reconcile(client.env, old(State()), request, cfg);
              State() == r.world && outcome == r.outcome
    {
      var name, upgrade, found := Locate(request);
      if !found {
        return NotFound;
      }
      outcome := Pass(client.kube.crs[name], cfg, upgrade);
      if upgrade {
        SettleListener(request, outcome);
      }
    }
  }

  /** The tail of a pass does not depend on the cluster that its world records, only on its controller's. */
  lemma AppliedForgets(e: Env, w: World, k: Kube, cfg: Config, c: Ctl, apps: seq<Application>)
    ensures AppsApplied(e, w.(kube := k), cfg, c, apps) == AppsApplied(e, w, cfg, c, apps)
  {
  }

  /** What a pass makes of the applications does not depend on the cluster and the listeners it started from. */
  lemma ConcludedForgets(e: Env, w: World, k: Kube, listeners: map<string, Listener>, cfg: Config, c: Ctl)
    ensures Concluded(e, w.(kube := k, listeners := listeners), listeners, cfg, c) == Concluded(e, w, listeners, cfg, c)
  {
    var pop := AppsPopulated(e, cfg, c, w.apps);
    var v := CachesPopulated(w.(kube := k, listeners := listeners), listeners, cfg, c.sp, pop);
    assert v == CachesPopulated(w, listeners, cfg, c.sp, pop).(kube := k);
  }

  /** Reading stops at the first config map that cannot be read. */
  lemma {:induction false} AppsReadStops(e: Env, userConfigs: map<string, map<string, string>>, start: AppsRead,
                                         p: string, refs: seq<AppRef>, m: nat, n: nat)
    requires m <= n <= |refs| && AppsReadUpTo(e, userConfigs, start, p, refs, m).err
    ensures AppsReadUpTo(e, userConfigs, start, p, refs, n) == AppsReadUpTo(e, userConfigs, start, p, refs, m)
    decreases n
  {
    if m < n {
      AppsReadStops(e, userConfigs, start, p, refs, m, n - 1);
    }
  }
}
