/** What the artifacts of an application contain after a rollout, spelled out field by field. */
module Contents {
  import opened SiddhiTypes
  import opened SpecEquality
  import opened Decimal
  import opened Ingress
  import opened Names
  import opened Cluster
  import opened Deployments
  import opened Controller
  import opened ParserLifecycle
  import opened Operator
  import opened StatusFlow
  import opened Runs
  import opened Provisioning
  import opened FixedPoint
  import opened Locality

  // ---------------------------------------------------------------- what is wanted

  /** A stateful application of a process with a claim spec that says something. */
  predicate WantsClaim(a: Application, spec: Spec) {
    a.persistenceEnabled
    && !(spec.pvc.volumeMode == None && spec.pvc.storageClass == None
         && spec.pvc.resources.limits == None && spec.pvc.resources.requests == None
         && spec.pvc.accessModes in {None, Some([])})
  }

  /** The runner configuration: what the user has written, or that state persistence is enabled. */
  predicate RunnerText(text: string, spec: Spec) {
    if spec.siddhiConfig != "" then text == spec.siddhiConfig
    else
      text == "\nstatePersistence:\n  enabled: true\n  intervalInMin: 1\n  revisionsToKeep: 2\n"
              + "  persistenceStore: io.siddhi.distribution.core.persistence.FileSystemPersistenceStore\n"
              + "  config:\n    location: siddhi-app-persistence\n"
  }

  /** The base name of the runner configuration that application `a` mounts, if it mounts one. */
  function RunnerBase(a: Application, sp: SiddhiProcess): Option<string> {
    if a.persistenceEnabled then Some(a.name)
    else if sp.spec.siddhiConfig != "" then Some(sp.name)
    else None
  }

  /** The pods of application `a`: image and pull secret of the spec before those of the operator, the ports of
      the application and the health port, the variables of the spec, and the volumes. */
  ghost predicate PodsOf(t: Template, cfg: Config, sp: SiddhiProcess, a: Application) {
    && t.image == (if sp.spec.container.image != "" then sp.spec.container.image else cfg.image)
    && t.pullSecret == (if sp.spec.imagePullSecret != "" then sp.spec.imagePullSecret else cfg.pullSecret)
    && t.env == sp.spec.container.env
    && t.ports == a.ports + [Port("hport", 9090, "TCP")]
    && t.volumes ==
       (if WantsClaim(a, sp.spec) then [ClaimVolume(a.name + "-pvc")] else [])
       + (match RunnerBase(a, sp) case Some(base) => [ConfigVolume(base + "-depyml")] case None => [])
       + (if a.apps != map[] then [ConfigVolume(a.name + Itoa(sp.status.current))] else [])
  }

  /** The config map of the runner configuration holds one file, of the name of the map. */
  ghost predicate RunnerDelivered(s: Store, sp: SiddhiProcess, a: Application) {
    match RunnerBase(a, sp)
    case None => true
    case Some(base) =>
      var n := base + "-depyml";
      n in s.configMaps && s.configMaps[n].data.Keys == {n} && RunnerText(s.configMaps[n].data[n], sp.spec)
  }

  /** The config map of the current version holds each Siddhi application in a file of its name. */
  ghost predicate AppsDelivered(s: Store, sp: SiddhiProcess, a: Application) {
    a.apps != map[] ==>
      var n := a.name + Itoa(sp.status.current);
      && n in s.configMaps
      && (forall k | k in a.apps :: k + ".siddhi" in s.configMaps[n].data
                                    && s.configMaps[n].data[k + ".siddhi"] == a.apps[k])
      && forall f | f in s.configMaps[n].data :: exists k :: k in a.apps && f == k + ".siddhi"
  }

  /** The service selects the pods of the application and offers its ports, without their protocols. */
  ghost predicate ServiceDelivered(s: Store, a: Application) {
    a.serviceEnabled ==>
      && a.name in s.services && s.services[a.name].selector == a.name
      && |s.services[a.name].ports| == |a.ports|
      && forall j :: 0 <= j < |a.ports| ==>
           s.services[a.name].ports[j] == Port(a.ports[j].name, a.ports[j].number, "")
  }

  /** The ingress has the secret of the operator and, for the host `siddhi`, an entry for each port. */
  ghost predicate PortsPublished(s: Store, cfg: Config, a: Application) {
    a.serviceEnabled && cfg.autoIngress ==>
      && s.ingress.Some? && s.ingress.value.tls == cfg.tls
      && (exists k :: 0 <= k < |s.ingress.value.rules| && s.ingress.value.rules[k].host == "siddhi")
      && forall k, j :: 0 <= k < |s.ingress.value.rules| && s.ingress.value.rules[k].host == "siddhi"
                        && 0 <= j < |a.ports| ==>
           Routed(s.ingress.value.rules[k], a.name, a.ports[j])
  }

  ghost predicate Routed(r: Rule, service: string, port: Port) {
    exists p :: p in r.paths && EntryFor(p, service, port)
  }

  /** Everything that application `a` of process `sp` asks for is there. */
  ghost predicate Delivered(s: Store, cfg: Config, sp: SiddhiProcess, a: Application) {
    && a.name in s.deployments && PodsOf(s.deployments[a.name].template, cfg, sp, a)
    && (WantsClaim(a, sp.spec) ==> a.name + "-pvc" in s.claims)
    && RunnerDelivered(s, sp, a) && AppsDelivered(s, sp, a)
    && ServiceDelivered(s, a) && PortsPublished(s, cfg, a)
  }

  // ---------------------------------------------------------------- what is provided is what is wanted

  lemma WantsClaimIff(a: Application, spec: Spec)
    ensures NeedsClaim(a, spec) <==> WantsClaim(a, spec)
  {
    EqualClaimsIff(spec.pvc, EMPTY_CLAIM);
  }

  lemma TemplateExact(cfg: Config, a: Application, sp: SiddhiProcess)
    ensures PodsOf(TemplateOf(cfg, a, sp, VolumesOf(a, sp)), cfg, sp, a)
  {
    WantsClaimIff(a, sp.spec);
  }

  lemma RunnerDataExact(sp: SiddhiProcess, a: Application)
    requires NeedsRunnerConfig(a, sp.spec)
    ensures RunnerBase(a, sp).Some? && RunnerConfigOf(a, sp) == RunnerBase(a, sp).value + "-depyml"
    ensures RunnerConfigData(a, sp).Keys == {RunnerConfigOf(a, sp)}
    ensures RunnerText(RunnerConfigData(a, sp)[RunnerConfigOf(a, sp)], sp.spec)
  {
  }

  /** Each Siddhi application has its file, and each file its Siddhi application. */
  lemma AppsDataExact(apps: map<string, string>)
    ensures forall k | k in apps :: k + ".siddhi" in AppsData(apps) && AppsData(apps)[k + ".siddhi"] == apps[k]
    ensures forall f | f in AppsData(apps) :: exists k :: k in apps && f == k + ".siddhi"
  {
    forall k | k in apps ensures k + ".siddhi" in AppsData(apps) && AppsData(apps)[k + ".siddhi"] == apps[k] {
      assert k + SIDDHI_EXTENSION == k + ".siddhi";
      forall k' | k' in apps && k' + SIDDHI_EXTENSION == k + SIDDHI_EXTENSION ensures k' == k {
        SuffixUnique(k', k, SIDDHI_EXTENSION);
      }
    }
  }

  lemma ServesEntries(ing: Ingress, service: string, ports: seq<Port>)
    requires Serves(ing, PathsOf(service, ports))
    ensures exists k :: 0 <= k < |ing.rules| && ing.rules[k].host == "siddhi"
    ensures forall k, j :: 0 <= k < |ing.rules| && ing.rules[k].host == "siddhi" && 0 <= j < |ports| ==>
              Routed(ing.rules[k], service, ports[j])
  {
    PathsOfExact(service, ports);
    forall k, j | 0 <= k < |ing.rules| && ing.rules[k].host == "siddhi" && 0 <= j < |ports|
      ensures Routed(ing.rules[k], service, ports[j])
    {
      assert PathsOf(service, ports)[j] in ing.rules[k].paths;
    }
  }

  lemma ProvidedDelivers(cfg: Config, sp: SiddhiProcess, a: Application, s: Store)
    requires Provided(cfg, sp, a, s)
    ensures Delivered(s, cfg, sp, a)
  {
    WantsClaimIff(a, sp.spec);
    TemplateExact(cfg, a, sp);
    if NeedsRunnerConfig(a, sp.spec) {
      RunnerDataExact(sp, a);
    }
    AppsDataExact(a.apps);
    if a.serviceEnabled && cfg.autoIngress {
      ServesEntries(s.ingress.value, a.name, a.ports);
    }
  }

  // ---------------------------------------------------------------- after a pass

  /** Application `a` is not refused: it wants no claim, or the runner configuration can be read and the claim is
      there. */
  predicate Accepted(e: Env, sp: SiddhiProcess, a: Application, s: Store) {
    WantsClaim(a, sp.spec) ==> sp.spec.siddhiConfig !in e.badYaml && a.name + "-pvc" in s.claims
  }

  /** After a rollout in which no call fails, whatever has failed before: each application that is not refused
      is delivered, with the contents that the spec, the settings and the answer of the parser ask for at the
      version of the pass, and its deployment has the replicas that it asks for. */
  lemma RolloutDelivers(e: Env, w: World, request: string, cfg: Config, i: nat)
    requires Calm(e, w.kube.calls, Reconcile(e, w, request, cfg).world.kube.calls)
    requires Consistent(w) && Reaches(e, w, request) && Reconcile(e, w, request, cfg).outcome == Completed
    requires var sp := Reached(e, w, request);
             sp.status.current == 0 || Modified(sp.status) || ForConfigMap(e, w, request)
    ensures var w', p := Reconcile(e, w, request, cfg).world, Target(e, w, request);
            var sp := Reached(e, w, request);
            var sp' := sp.(status := sp.status.(current := VersionOf(sp, ForConfigMap(e, w, request))));
            && p in w'.apps
            && (i < |w'.apps[p]| && Accepted(e, sp, w'.apps[p][i], w'.kube.store) ==>
                  && Delivered(w'.kube.store, cfg, sp', w'.apps[p][i])
                  && w'.kube.store.deployments[w'.apps[p][i].name].replicas == w'.apps[p][i].replicas)
  {
    var lo, hi := w.kube.calls, Reconcile(e, w, request, cfg).world.kube.calls;
    var e' := Only(e, lo, hi);
    OnlyAgrees(e, lo, hi);
    ReconcileLocal(e, e', hi, w, request, cfg);
    ReachLocal(e, e', hi, w, request);
    FaultlessDelivers(e', w, request, cfg, i);
  }

  lemma FaultlessDelivers(e: Env, w: World, request: string, cfg: Config, i: nat)
    requires NoFaults(e) && Consistent(w) && Reaches(e, w, request)
    requires Reconcile(e, w, request, cfg).outcome == Completed
    requires var sp := Reached(e, w, request);
             sp.status.current == 0 || Modified(sp.status) || ForConfigMap(e, w, request)
    ensures var w', p := Reconcile(e, w, request, cfg).world, Target(e, w, request);
            var sp := Reached(e, w, request);
            var sp' := sp.(status := sp.status.(current := VersionOf(sp, ForConfigMap(e, w, request))));
            && p in w'.apps
            && (i < |w'.apps[p]| && Accepted(e, sp, w'.apps[p][i], w'.kube.store) ==>
                  && Delivered(w'.kube.store, cfg, sp', w'.apps[p][i])
                  && w'.kube.store.deployments[w'.apps[p][i].name].replicas == w'.apps[p][i].replicas)
  {
    var w', p := Reconcile(e, w, request, cfg).world, Target(e, w, request);
    var sp, upgrade := Reached(e, w, request), ForConfigMap(e, w, request);
    FaultlessHandles(e, w, request, cfg, i);
    var sp' := sp.(status := sp.status.(current := VersionOf(sp, upgrade)));
    if i < |w'.apps[p]| && Accepted(e, sp, w'.apps[p][i], w'.kube.store) {
      HandledDelivers(e, cfg, sp', w'.apps[p][i], w'.kube.store);
      assert Scaled(w'.apps[p][i], w'.kube.store);
    }
  }

  lemma FaultlessHandles(e: Env, w: World, request: string, cfg: Config, i: nat)
    requires NoFaults(e) && Consistent(w) && Reaches(e, w, request)
    requires Reconcile(e, w, request, cfg).outcome == Completed
    requires var sp := Reached(e, w, request);
             sp.status.current == 0 || Modified(sp.status) || ForConfigMap(e, w, request)
    ensures var w', p := Reconcile(e, w, request, cfg).world, Target(e, w, request);
            var sp := Reached(e, w, request);
            var sp' := sp.(status := sp.status.(current := VersionOf(sp, ForConfigMap(e, w, request))));
            && p in w'.apps
            && (i < |w'.apps[p]| ==>
                  Handled(e, cfg, Core(sp'), w'.apps[p][i], w'.kube.store) && Scaled(w'.apps[p][i], w'.kube.store))
  {
    ReconcileCases(e, w, request, cfg);
    AdvancedAchieves(e, Entered(w), cfg, Reached(e, w, request), ForConfigMap(e, w, request));
  }

  lemma HandledDelivers(e: Env, cfg: Config, sp: SiddhiProcess, a: Application, s: Store)
    requires Handled(e, cfg, Core(sp), a, s) && Accepted(e, sp, a, s)
    ensures Delivered(s, cfg, sp, a)
  {
    WantsClaimIff(a, sp.spec);
    ProvidedDelivers(cfg, Core(sp), a, s);
    DeliveredCore(s, cfg, sp, a);
  }

  /** The reporting fields of the status do not matter. */
  lemma DeliveredCore(s: Store, cfg: Config, sp: SiddhiProcess, a: Application)
    ensures Delivered(s, cfg, Core(sp), a) <==> Delivered(s, cfg, sp, a)
  {
  }

  // ---------------------------------------------------------------- one round of the loop

  /** The claim of application `a` is there, or a mode that permits writing is asked for, or none at all. */
  predicate ClaimPermitted(a: Application, sp: SiddhiProcess, s: Store) {
    || a.name + "-pvc" in s.claims || sp.spec.pvc.accessModes.None?
    || "ReadWriteOnce" in sp.spec.pvc.accessModes.value || "ReadWriteMany" in sp.spec.pvc.accessModes.value
  }

  /** The config maps that application `a` mounts. */
  function ConfigsOf(a: Application, sp: SiddhiProcess): set<string> {
    RunnerConfigs(a, sp) + SiddhiConfigs(a, sp)
  }

  function RunnerConfigs(a: Application, sp: SiddhiProcess): set<string> {
    match RunnerBase(a, sp)
    case Some(base) => {base + "-depyml"}
    case None => {}
  }

  function SiddhiConfigs(a: Application, sp: SiddhiProcess): set<string> {
    if a.apps != map[] then {a.name + Itoa(sp.status.current)} else {}
  }

  /** At most the objects of the given names are new, and belong to `p`; those that were there before keep their
      owners, and all others are as they were. */
  ghost predicate OnlyTouched<T(!new)>(m: map<string, T>, m': map<string, T>, names: set<string>, p: string,
                                 owner: T -> string) {
    && m'.Keys == m.Keys + names
    && (forall n | n in m && n !in names :: m'[n] == m[n])
    && (forall n | n in names :: owner(m'[n]) == if n in m then owner(m[n]) else p)
  }

  /** The whole effect of one round of the rollout loop in which no call fails and nothing is refused. */
  lemma RoundExact(e: Env, cfg: Config, event: OperationResult, c: Ctl, a: Application)
    requires NoFaults(e) && c.sp.status.current >= 0
    requires WantsClaim(a, c.sp.spec) ==> ClaimPermitted(a, c.sp, c.kube.store) && c.sp.spec.siddhiConfig !in e.badYaml
    ensures var s, t, p := c.kube.store, RolledOut(e, cfg, event, c, a).kube.store, c.sp.name;
            && Delivered(t, cfg, c.sp, a)
            && t.claims == (if WantsClaim(a, c.sp.spec) && a.name + "-pvc" !in s.claims
                            then s.claims[a.name + "-pvc" := Claim(p, c.sp.spec.pvc)] else s.claims)
            && OnlyTouched(s.configMaps, t.configMaps, ConfigsOf(a, c.sp), p, OwnerOf)
            && OnlyTouched(s.deployments, t.deployments, {a.name}, p, (d: Deployment) => d.owner)
            && t.deployments[a.name].replicas ==
               (if a.name in s.deployments then s.deployments[a.name].replicas else a.replicas)
            && t.deployments[a.name].available ==
               (if a.name in s.deployments then s.deployments[a.name].available else 0)
            && OnlyTouched(s.services, t.services, if a.serviceEnabled then {a.name} else {}, p,
                           (v: Service) => v.owner)
            && (!(a.serviceEnabled && cfg.autoIngress) ==> t.ingress == s.ingress)
  {
    var s := c.kube.store;
    WantsClaimIff(a, c.sp.spec);
    RolledOutIsProvision(e, cfg, event, c, a);
    ProvisionProvides(cfg, c.sp, a, s);
    ProvidedDelivers(cfg, c.sp, a, Provision(cfg, c.sp, a, s));
    MountTouches(c.sp, a, s);
    FinishTouches(cfg, c.sp, a, Mount(c.sp, a, s));
  }

  function OwnerOf(m: ConfigMap): string {
    m.owner
  }

  lemma PutTouches(s: Store, p: string, n: string, data: map<string, string>)
    ensures var t := Perform(s, p, PutConfig(n, data));
            t == s.(configMaps := t.configMaps) && OnlyTouched(s.configMaps, t.configMaps, {n}, p, OwnerOf)
  {
  }

  lemma TouchedInTurn(m: map<string, ConfigMap>, m1: map<string, ConfigMap>, m2: map<string, ConfigMap>,
                      names: set<string>, names': set<string>, p: string)
    requires OnlyTouched(m, m1, names, p, OwnerOf) && OnlyTouched(m1, m2, names', p, OwnerOf)
    ensures OnlyTouched(m, m2, names + names', p, OwnerOf)
  {
  }

  lemma MountTouches(sp: SiddhiProcess, a: Application, s: Store)
    ensures var t := Mount(sp, a, s);
            && t == s.(claims := t.claims, configMaps := t.configMaps)
            && t.claims == (if WantsClaim(a, sp.spec) && a.name + "-pvc" !in s.claims
                            then s.claims[a.name + "-pvc" := Claim(sp.name, sp.spec.pvc)] else s.claims)
            && OnlyTouched(s.configMaps, t.configMaps, ConfigsOf(a, sp), sp.name, OwnerOf)
  {
    WantsClaimIff(a, sp.spec);
    ClaimedTouches(sp, a, s);
    var s1 := Claimed(sp, a, s);
    var s2 := RunnerPut(sp, a, s1);
    RunnerTouches(sp, a, s1);
    AppsTouch(sp, a, s2);
    var t := AppsPut(sp, a, s2);
    TouchedInTurn(s1.configMaps, s2.configMaps, t.configMaps, RunnerConfigs(a, sp), SiddhiConfigs(a, sp), sp.name);
    assert Mount(sp, a, s) == t;
  }

  lemma ClaimedTouches(sp: SiddhiProcess, a: Application, s: Store)
    ensures var t := Claimed(sp, a, s);
            && t == s.(claims := t.claims)
            && t.claims == (if NeedsClaim(a, sp.spec) && a.name + "-pvc" !in s.claims
                            then s.claims[a.name + "-pvc" := Claim(sp.name, sp.spec.pvc)] else s.claims)
  {
  }

  function RunnerPut(sp: SiddhiProcess, a: Application, s: Store): Store {
    if NeedsRunnerConfig(a, sp.spec) then
      Perform(s, sp.name, PutConfig(RunnerConfigOf(a, sp), RunnerConfigData(a, sp)))
    else s
  }

  function AppsPut(sp: SiddhiProcess, a: Application, s: Store): Store {
    if a.apps != map[] then Perform(s, sp.name, PutConfig(AppsConfigOf(a, sp), AppsData(a.apps))) else s
  }

  lemma RunnerTouches(sp: SiddhiProcess, a: Application, s: Store)
    ensures var t := RunnerPut(sp, a, s);
            && t == s.(configMaps := t.configMaps)
            && OnlyTouched(s.configMaps, t.configMaps, RunnerConfigs(a, sp), sp.name, OwnerOf)
  {
    PutTouches(s, sp.name, RunnerConfigOf(a, sp), RunnerConfigData(a, sp));
  }

  lemma AppsTouch(sp: SiddhiProcess, a: Application, s: Store)
    ensures var t := AppsPut(sp, a, s);
            && t == s.(configMaps := t.configMaps)
            && OnlyTouched(s.configMaps, t.configMaps, SiddhiConfigs(a, sp), sp.name, OwnerOf)
  {
    PutTouches(s, sp.name, AppsConfigOf(a, sp), AppsData(a.apps));
  }

  lemma FinishTouches(cfg: Config, sp: SiddhiProcess, a: Application, s: Store)
    ensures var t := Finish(cfg, sp, a, s);
            && t.claims == s.claims && t.configMaps == s.configMaps
            && OnlyTouched(s.deployments, t.deployments, {a.name}, sp.name, (d: Deployment) => d.owner)
            && t.deployments[a.name].replicas ==
               (if a.name in s.deployments then s.deployments[a.name].replicas else a.replicas)
            && t.deployments[a.name].available ==
               (if a.name in s.deployments then s.deployments[a.name].available else 0)
            && OnlyTouched(s.services, t.services, if a.serviceEnabled then {a.name} else {}, sp.name,
                           (v: Service) => v.owner)
            && (!(a.serviceEnabled && cfg.autoIngress) ==> t.ingress == s.ingress)
  {
  }

  /** An application is refused exactly when it wants a claim and either none is there and none is permitted, or
      the runner configuration cannot be read. */
  lemma RefusedIff(e: Env, sp: SiddhiProcess, a: Application, s: Store)
    ensures ClaimRefused(sp, a, s) || ConfigRefused(e, sp, a) <==>
            WantsClaim(a, sp.spec) && (!ClaimPermitted(a, sp, s) || sp.spec.siddhiConfig in e.badYaml)
  {
    WantsClaimIff(a, sp.spec);
  }

  // ---------------------------------------------------------------- the parser

  /** The pods of the parser: image and pull secret as for an application, the port of the parser and the health
      port, and the configuration of the user if there is one.  The service offers the port of the parser. */
  lemma ParserExact(e: Env, cfg: Config, k: Kube, sp: SiddhiProcess)
    requires NoFaults(e)
    ensures var s, t, n := k.store, ParserDeployed(e, cfg, k, sp).store, sp.name + "-parser";
            && n in t.deployments && n in t.services
            && (n !in s.deployments ==> t.deployments[n].replicas == 1 && t.deployments[n].owner == sp.name)
            && var pods := t.deployments[n].template;
               && pods.image == (if sp.spec.container.image != "" then sp.spec.container.image else cfg.image)
               && pods.pullSecret == (if sp.spec.imagePullSecret != "" then sp.spec.imagePullSecret else cfg.pullSecret)
               && pods.env == sp.spec.container.env
               && pods.ports == [Port("parser", 9090, "TCP"), Port("hport", 9090, "TCP")]
               && pods.volumes ==
                  (if sp.spec.siddhiConfig != "" then [ConfigVolume(sp.name + "-depyml")] else [])
               && t.services[n].selector == n && t.services[n].ports == [Port("parser", 9090, "")]
               && (sp.spec.siddhiConfig != "" ==>
                     sp.name + "-depyml" in t.configMaps
                     && t.configMaps[sp.name + "-depyml"].data == map[sp.name + "-depyml" := sp.spec.siddhiConfig])
  {
    var a := ParserApp(sp.name);
    StageIsMount(e, k, a, sp);
    var s := Stage(e, k, a, sp);
    ApplyIsPerform(e, s.kube, sp.name, PutDeployment(a.name, a.replicas, TemplateOf(cfg, a, sp, s.volumes)));
    var d := Deployed(e, cfg, k, a, sp);
    ApplyIsPerform(e, d.kube, sp.name, ServiceOf(a.name, [PARSER_PORT]));
    ParserMounts(sp, a, k.store);
  }

  lemma ParserMounts(sp: SiddhiProcess, a: Application, s: Store)
    requires a == ParserApp(sp.name)
    ensures var t := Mount(sp, a, s);
            && t == s.(configMaps := t.configMaps)
            && VolumesOf(a, sp) == (if sp.spec.siddhiConfig != "" then [ConfigVolume(sp.name + "-depyml")] else [])
            && (sp.spec.siddhiConfig != "" ==>
                  sp.name + "-depyml" in t.configMaps
                  && t.configMaps[sp.name + "-depyml"].data == map[sp.name + "-depyml" := sp.spec.siddhiConfig])
  {
  }
}
