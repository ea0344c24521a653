/** What the rollout of applications provides while no call fails, refused applications included. */
module Provisioning {
  import opened SiddhiTypes
  import opened SpecEquality
  import opened Ingress
  import opened Names
  import opened Cluster
  import opened Deployments
  import opened Controller
  import opened Conformance
  import opened StatusFlow

  /** Nothing in the spec makes a deployment fail by itself. */
  predicate Deployable(e: Env, spec: Spec) {
    EqualClaims(spec.pvc, EMPTY_CLAIM) || (AccessGranted(spec.pvc) && spec.siddhiConfig !in e.badYaml)
  }

  function VolumesOf(a: Application, sp: SiddhiProcess): seq<Volume> {
    (if NeedsClaim(a, sp.spec) then [ClaimVolume(ClaimName(a.name))] else [])
    + (if NeedsRunnerConfig(a, sp.spec) then [ConfigVolume(RunnerConfigOf(a, sp))] else [])
    + (if a.apps != map[] then [ConfigVolume(AppsConfigOf(a, sp))] else [])
  }

  /** The claim and the config maps of application `a` are there, with the right contents. */
  ghost predicate MountedFor(sp: SiddhiProcess, a: Application, s: Store) {
    && (NeedsClaim(a, sp.spec) ==> ClaimName(a.name) in s.claims)
    && (NeedsRunnerConfig(a, sp.spec) ==>
          RunnerConfigOf(a, sp) in s.configMaps && s.configMaps[RunnerConfigOf(a, sp)].data == RunnerConfigData(a, sp))
    && (a.apps != map[] ==>
          AppsConfigOf(a, sp) in s.configMaps && s.configMaps[AppsConfigOf(a, sp)].data == AppsData(a.apps))
  }

  /** The cluster holds all that application `a` of process `sp` asks for, with the right contents. */
  ghost predicate Provided(cfg: Config, sp: SiddhiProcess, a: Application, s: Store) {
    && MountedFor(sp, a, s)
    && a.name in s.deployments && s.deployments[a.name].template == TemplateOf(cfg, a, sp, VolumesOf(a, sp))
    && (a.serviceEnabled ==> Exposed(cfg, a, s))
  }

  ghost predicate Exposed(cfg: Config, a: Application, s: Store) {
    && a.name in s.services
    && s.services[a.name].selector == a.name && s.services[a.name].ports == ServiceOf(a.name, a.ports).ports
    && (cfg.autoIngress ==> s.ingress.Some? && s.ingress.value.tls == cfg.tls
                            && Serves(s.ingress.value, PathsOf(a.name, a.ports)))
  }

  function Claimed(sp: SiddhiProcess, a: Application, s: Store): Store {
    if NeedsClaim(a, sp.spec) && ClaimName(a.name) !in s.claims then
      Perform(s, sp.name, PutClaim(ClaimName(a.name), sp.spec.pvc))
    else s
  }

  /** What a failure-free `Deploy` does to the cluster, as a plain sequence of updates. */
  function Mount(sp: SiddhiProcess, a: Application, s: Store): Store {
    var s1 := Claimed(sp, a, s);
    var s2 := if NeedsRunnerConfig(a, sp.spec) then
                Perform(s1, sp.name, PutConfig(RunnerConfigOf(a, sp), RunnerConfigData(a, sp))) else s1;
    if a.apps != map[] then Perform(s2, sp.name, PutConfig(AppsConfigOf(a, sp), AppsData(a.apps))) else s2
  }

  function Finish(cfg: Config, sp: SiddhiProcess, a: Application, s: Store): Store {
    var s1 := Perform(s, sp.name, PutDeployment(a.name, a.replicas, TemplateOf(cfg, a, sp, VolumesOf(a, sp))));
    if !a.serviceEnabled then s1
    else
      var s2 := Perform(s1, sp.name, ServiceOf(a.name, a.ports));
      if cfg.autoIngress then Perform(s2, sp.name, PutIngress(cfg.tls, PathsOf(a.name, a.ports))) else s2
  }

  /** What one failure-free pass of the rollout loop does. */
  function Provision(cfg: Config, sp: SiddhiProcess, a: Application, s: Store): Store {
    Finish(cfg, sp, a, Mount(sp, a, s))
  }

  /** The claim that application `a` needs is not there, and its access modes are refused. */
  predicate ClaimRefused(sp: SiddhiProcess, a: Application, s: Store) {
    NeedsClaim(a, sp.spec) && ClaimName(a.name) !in s.claims && !AccessGranted(sp.spec.pvc)
  }

  /** The runner configuration has to be read for the claim, and is not YAML. */
  predicate ConfigRefused(e: Env, sp: SiddhiProcess, a: Application) {
    NeedsClaim(a, sp.spec) && sp.spec.siddhiConfig in e.badYaml
  }

  /** What one failure-free pass of the rollout loop does, whether the application is refused or not. */
  function Attempt(e: Env, cfg: Config, sp: SiddhiProcess, a: Application, s: Store): Store {
    if ClaimRefused(sp, a, s) then s
    else if ConfigRefused(e, sp, a) then Claimed(sp, a, s)
    else Provision(cfg, sp, a, s)
  }

  function AttemptAll(e: Env, cfg: Config, sp: SiddhiProcess, apps: seq<Application>, n: nat, s: Store): Store
    requires n <= |apps|
    decreases n
  {
    if n == 0 then s else Attempt(e, cfg, sp, apps[n - 1], AttemptAll(e, cfg, sp, apps, n - 1, s))
  }

  /** Nothing more can be done for application `a`: it is refused, or it is provided. */
  ghost predicate Handled(e: Env, cfg: Config, sp: SiddhiProcess, a: Application, s: Store) {
    || ClaimRefused(sp, a, s)
    || (if ConfigRefused(e, sp, a) then ClaimName(a.name) in s.claims else Provided(cfg, sp, a, s))
  }

  lemma ApplyIsPerform(e: Env, k: Kube, owner: string, eff: Effect)
    requires NoFaults(e)
    ensures !CreateOrUpdate(e, k, owner, eff).err
    ensures CreateOrUpdate(e, k, owner, eff).kube.store == Perform(k.store, owner, eff)
  {
  }

  /** The volumes of an application that is not refused. */
  lemma StageIsMount(e: Env, k: Kube, a: Application, sp: SiddhiProcess)
    requires NoFaults(e) && !ClaimRefused(sp, a, k.store) && !ConfigRefused(e, sp, a)
    ensures var s := Stage(e, k, a, sp);
            !s.err && s.kube.store == Mount(sp, a, k.store) && s.volumes == VolumesOf(a, sp)
  {
    ClaimMounted(e, k, a, sp);
    var s1 := MountClaim(e, k, a, sp);
    ConfigMounted(e, s1.kube, a, sp);
    var s2 := MountRunnerConfig(e, s1.kube, a, sp);
    ConfigMounted(e, s2.kube, a, sp);
  }

  lemma ClaimMounted(e: Env, k: Kube, a: Application, sp: SiddhiProcess)
    requires NoFaults(e)
    ensures var s := MountClaim(e, k, a, sp);
            && s.err == (ClaimRefused(sp, a, k.store) || ConfigRefused(e, sp, a))
            && s.kube.store == (if ClaimRefused(sp, a, k.store) then k.store else Claimed(sp, a, k.store))
            && (!s.err ==> s.volumes == if NeedsClaim(a, sp.spec) then [ClaimVolume(ClaimName(a.name))] else [])
  {
  }

  lemma ConfigMounted(e: Env, k: Kube, a: Application, sp: SiddhiProcess)
    requires NoFaults(e)
    ensures var s := MountRunnerConfig(e, k, a, sp);
            && !s.err
            && s.volumes == (if NeedsRunnerConfig(a, sp.spec) then [ConfigVolume(RunnerConfigOf(a, sp))] else [])
            && s.kube.store ==
               if NeedsRunnerConfig(a, sp.spec) then
                 Perform(k.store, sp.name, PutConfig(RunnerConfigOf(a, sp), RunnerConfigData(a, sp)))
               else k.store
    ensures var s := MountApps(e, k, a, sp);
            && !s.err
            && s.volumes == (if a.apps != map[] then [ConfigVolume(AppsConfigOf(a, sp))] else [])
            && s.kube.store ==
               if a.apps != map[] then Perform(k.store, sp.name, PutConfig(AppsConfigOf(a, sp), AppsData(a.apps)))
               else k.store
  {
  }

  /** Without failures, one pass of the rollout loop is the plain sequence of updates; a refused
      application gets no more than its claim. */
  lemma RolledOutIsAttempt(e: Env, cfg: Config, event: OperationResult, c: Ctl, a: Application)
    requires NoFaults(e)
    ensures RolledOut(e, cfg, event, c, a).kube.store == Attempt(e, cfg, c.sp, a, c.kube.store)
  {
    if ClaimRefused(c.sp, a, c.kube.store) || ConfigRefused(e, c.sp, a) {
      ClaimMounted(e, c.kube, a, c.sp);
      assert Stage(e, c.kube, a, c.sp).kube == MountClaim(e, c.kube, a, c.sp).kube;
    } else {
      RolledOutIsProvision(e, cfg, event, c, a);
    }
  }

  lemma RolledOutIsProvision(e: Env, cfg: Config, event: OperationResult, c: Ctl, a: Application)
    requires NoFaults(e) && !ClaimRefused(c.sp, a, c.kube.store) && !ConfigRefused(e, c.sp, a)
    ensures RolledOut(e, cfg, event, c, a).kube.store == Provision(cfg, c.sp, a, c.kube.store)
  {
    StageIsMount(e, c.kube, a, c.sp);
    var s := Stage(e, c.kube, a, c.sp);
    ApplyIsPerform(e, s.kube, c.sp.name, PutDeployment(a.name, a.replicas, TemplateOf(cfg, a, c.sp, s.volumes)));
    var d := Deployed(e, cfg, c.kube, a, c.sp);
    var c1 := ReportIf(e, c.(kube := d.kube), event, d.op);
    if a.serviceEnabled {
      ExposeIsProvision(e, cfg, event, c1, a);
    }
  }

  lemma ExposeIsProvision(e: Env, cfg: Config, event: OperationResult, c: Ctl, a: Application)
    requires NoFaults(e)
    ensures var s := Perform(c.kube.store, c.sp.name, ServiceOf(a.name, a.ports));
            ExposeApp(e, cfg, event, c, a).kube.store ==
            if cfg.autoIngress then Perform(s, c.sp.name, PutIngress(cfg.tls, PathsOf(a.name, a.ports))) else s
  {
    ApplyIsPerform(e, c.kube, c.sp.name, ServiceOf(a.name, a.ports));
    var r := CreateOrUpdate(e, c.kube, c.sp.name, ServiceOf(a.name, a.ports));
    var c1 := ReportIf(e, c.(kube := r.kube), event, r.op);
    ApplyIsPerform(e, c1.kube, c.sp.name, PutIngress(cfg.tls, PathsOf(a.name, a.ports)));
  }

  lemma CreateOrMergeServes(current: Option<Ingress>, tls: string, paths: seq<IngressPath>)
    ensures Serves(CreateOrMerge(current, tls, paths), paths) && CreateOrMerge(current, tls, paths).tls == tls
  {
    MergeServes(if current.Some? then current.value else Fresh(tls, paths), tls, paths);
  }

  /** Both config maps of an application have different names. */
  lemma OwnConfigsDistinct(a: Application, sp: SiddhiProcess)
    requires sp.status.current >= 0
    ensures AppsConfigOf(a, sp) != RunnerConfigOf(a, sp)
  {
    AppsConfigIsNotRunnerConfig(a.name, sp.status.current, if a.persistenceEnabled then a.name else sp.name);
  }

  lemma MountProvides(sp: SiddhiProcess, a: Application, s: Store)
    requires sp.status.current >= 0
    ensures MountedFor(sp, a, Mount(sp, a, s))
  {
    OwnConfigsDistinct(a, sp);
  }

  lemma FinishProvides(cfg: Config, sp: SiddhiProcess, a: Application, s: Store)
    requires MountedFor(sp, a, s)
    ensures Provided(cfg, sp, a, Finish(cfg, sp, a, s))
  {
    CreateOrMergeServes(s.ingress, cfg.tls, PathsOf(a.name, a.ports));
  }

  /** A provisioned application is provided. */
  lemma ProvisionProvides(cfg: Config, sp: SiddhiProcess, a: Application, s: Store)
    requires sp.status.current >= 0
    ensures Provided(cfg, sp, a, Provision(cfg, sp, a, s))
  {
    MountProvides(sp, a, s);
    FinishProvides(cfg, sp, a, Mount(sp, a, s));
  }

  /** A provided application needs no further provision. */
  lemma ProvidedIsFixed(cfg: Config, sp: SiddhiProcess, a: Application, s: Store)
    requires Provided(cfg, sp, a, s)
    ensures Provision(cfg, sp, a, s) == s
  {
    assert Mount(sp, a, s) == s;
    if a.serviceEnabled && cfg.autoIngress {
      MergeSettledIff(s.ingress.value, cfg.tls, PathsOf(a.name, a.ports));
    }
  }

  /** Two applications of a process use different names, or the same one for the same contents. */
  ghost predicate Compatible(sp: SiddhiProcess, a: Application, b: Application) {
    && (RunnerConfigOf(a, sp) == RunnerConfigOf(b, sp) ==> RunnerConfigData(a, sp) == RunnerConfigData(b, sp))
    && AppsConfigOf(a, sp) != AppsConfigOf(b, sp)
    && AppsConfigOf(a, sp) != RunnerConfigOf(b, sp) && AppsConfigOf(b, sp) != RunnerConfigOf(a, sp)
    && a.name != b.name
  }

  lemma NamedCompatible(sp: SiddhiProcess, a: Application, i: nat, b: Application, j: nat)
    requires a.name == AppName(sp.name, i) && b.name == AppName(sp.name, j) && i != j && sp.status.current >= 0
    ensures Compatible(sp, a, b)
  {
    var v := sp.status.current;
    AppsConfigIsNotRunnerConfig(a.name, v, if b.persistenceEnabled then b.name else sp.name);
    AppsConfigIsNotRunnerConfig(b.name, v, if a.persistenceEnabled then a.name else sp.name);
    if AppsConfigOf(a, sp) == AppsConfigOf(b, sp) {
      SameVersionDistinct(sp.name, i, j, v);
    }
    if a.name == b.name {
      AppNameInjective(sp.name, i, sp.name, j);
    }
  }

  lemma MountKeeps(cfg: Config, sp: SiddhiProcess, a: Application, b: Application, s: Store)
    requires Compatible(sp, a, b) && Provided(cfg, sp, a, s)
    ensures Provided(cfg, sp, a, Mount(sp, b, s))
  {
  }

  lemma FinishKeeps(cfg: Config, sp: SiddhiProcess, a: Application, b: Application, s: Store)
    requires Compatible(sp, a, b) && Provided(cfg, sp, a, s)
    ensures Provided(cfg, sp, a, Finish(cfg, sp, b, s))
  {
    if a.serviceEnabled && cfg.autoIngress {
      MergeKeepsServing(s.ingress.value, cfg.tls, PathsOf(b.name, b.ports), PathsOf(a.name, a.ports));
    }
  }

  /** Provisioning one application leaves the others provided. */
  lemma ProvisionKeeps(cfg: Config, sp: SiddhiProcess, a: Application, b: Application, s: Store)
    requires Compatible(sp, a, b) && Provided(cfg, sp, a, s)
    ensures Provided(cfg, sp, a, Provision(cfg, sp, b, s))
  {
    MountKeeps(cfg, sp, a, b, s);
    FinishKeeps(cfg, sp, a, b, Mount(sp, b, s));
  }

  // ---------------------------------------------------------------- refused or provided

  /** Once attempted, an application is handled. */
  lemma AttemptHandles(e: Env, cfg: Config, sp: SiddhiProcess, a: Application, s: Store)
    requires sp.status.current >= 0
    ensures Handled(e, cfg, sp, a, Attempt(e, cfg, sp, a, s))
  {
    if !ClaimRefused(sp, a, s) && !ConfigRefused(e, sp, a) {
      ProvisionProvides(cfg, sp, a, s);
    }
  }

  /** Once handled, an application needs no further attempt. */
  lemma HandledIsFixed(e: Env, cfg: Config, sp: SiddhiProcess, a: Application, s: Store)
    requires Handled(e, cfg, sp, a, s)
    ensures Attempt(e, cfg, sp, a, s) == s
  {
    if !ClaimRefused(sp, a, s) && !ConfigRefused(e, sp, a) {
      ProvidedIsFixed(cfg, sp, a, s);
    }
  }

  lemma ClaimedKeeps(cfg: Config, sp: SiddhiProcess, a: Application, b: Application, s: Store)
    requires Compatible(sp, a, b) && Provided(cfg, sp, a, s)
    ensures Provided(cfg, sp, a, Claimed(sp, b, s))
  {
  }

  /** The claims after an attempt: at most that of the application is new. */
  lemma AttemptClaims(e: Env, cfg: Config, sp: SiddhiProcess, b: Application, s: Store)
    ensures s.claims.Keys <= Attempt(e, cfg, sp, b, s).claims.Keys <= s.claims.Keys + {ClaimName(b.name)}
  {
    if !ClaimRefused(sp, b, s) && !ConfigRefused(e, sp, b) {
      ProvisionClaims(cfg, sp, b, s);
    }
  }

  lemma ProvisionClaims(cfg: Config, sp: SiddhiProcess, b: Application, s: Store)
    ensures Provision(cfg, sp, b, s).claims == Claimed(sp, b, s).claims
  {
    assert Mount(sp, b, s).claims == Claimed(sp, b, s).claims;
  }

  /** An attempt leaves the other applications handled. */
  lemma AttemptKeeps(e: Env, cfg: Config, sp: SiddhiProcess, a: Application, b: Application, s: Store)
    requires Compatible(sp, a, b) && Handled(e, cfg, sp, a, s)
    ensures Handled(e, cfg, sp, a, Attempt(e, cfg, sp, b, s))
  {
    AttemptClaims(e, cfg, sp, b, s);
    if ClaimName(a.name) == ClaimName(b.name) {
      ClaimNameInjective(a.name, b.name);
    }
    if !ClaimRefused(sp, a, s) && !ConfigRefused(e, sp, a) {
      ClaimedKeeps(cfg, sp, a, b, s);
      ProvisionKeeps(cfg, sp, a, b, s);
    }
  }

  /** A refused application leaves its claim behind at most. */
  lemma RefusedLeaves(e: Env, cfg: Config, event: OperationResult, c: Ctl, a: Application)
    requires NoFaults(e) && (ClaimRefused(c.sp, a, c.kube.store) || ConfigRefused(e, c.sp, a))
    ensures var s, t := c.kube.store, RolledOut(e, cfg, event, c, a).kube.store;
            || t == s
            || (ClaimName(a.name) !in s.claims
                && t == Perform(s, c.sp.name, PutClaim(ClaimName(a.name), c.sp.spec.pvc)))
  {
    RolledOutIsAttempt(e, cfg, event, c, a);
  }

  // ---------------------------------------------------------------- all applications

  /** The first `n` applications are handled. */
  ghost predicate AllHandled(e: Env, cfg: Config, sp: SiddhiProcess, apps: seq<Application>, n: nat, s: Store)
    requires n <= |apps|
  {
    forall i {:trigger Handled(e, cfg, sp, apps[i], s)} :: 0 <= i < n ==> Handled(e, cfg, sp, apps[i], s)
  }

  /** The plain attempts of the first `n` applications leave them handled. */
  lemma AttemptAllHandles(e: Env, cfg: Config, sp: SiddhiProcess, apps: seq<Application>, n: nat, s: Store)
    requires Named(sp.name, apps) && n <= |apps| && sp.status.current >= 0
    ensures AllHandled(e, cfg, sp, apps, n, AttemptAll(e, cfg, sp, apps, n, s))
  {
    forall i: nat | i < n ensures Handled(e, cfg, sp, apps[i], AttemptAll(e, cfg, sp, apps, n, s)) {
      var _ := AttemptedHandles(e, cfg, sp, apps, i, n, s);
    }
  }

  lemma {:induction false} AttemptedHandles(e: Env, cfg: Config, sp: SiddhiProcess, apps: seq<Application>,
                                            i: nat, n: nat, s: Store)
    returns (t: Store)
    requires Named(sp.name, apps) && i < n <= |apps| && sp.status.current >= 0
    ensures t == AttemptAll(e, cfg, sp, apps, n, s) && Handled(e, cfg, sp, apps[i], t)
    decreases n
  {
    if i == n - 1 {
      t := AttemptAll(e, cfg, sp, apps, n, s);
      AttemptStep(e, cfg, sp, apps, n, s);
      AttemptHandles(e, cfg, sp, apps[i], AttemptAll(e, cfg, sp, apps, i, s));
    } else {
      var u := AttemptedHandles(e, cfg, sp, apps, i, n - 1, s);
      t := HandledStep(e, cfg, sp, apps, i, n, s, u);
    }
  }

  lemma HandledStep(e: Env, cfg: Config, sp: SiddhiProcess, apps: seq<Application>, i: nat, n: nat, s: Store,
                    u: Store)
    returns (t: Store)
    requires Named(sp.name, apps) && i < n - 1 && n <= |apps| && sp.status.current >= 0
    requires u == AttemptAll(e, cfg, sp, apps, n - 1, s) && Handled(e, cfg, sp, apps[i], u)
    ensures t == AttemptAll(e, cfg, sp, apps, n, s) && Handled(e, cfg, sp, apps[i], t)
  {
    AttemptStep(e, cfg, sp, apps, n, s);
    t := Attempt(e, cfg, sp, apps[n - 1], u);
    NamedCompatible(sp, apps[i], i, apps[n - 1], n - 1);
    AttemptKeeps(e, cfg, sp, apps[i], apps[n - 1], u);
  }

  /** A process without its reporting fields: all that an attempt looks at. */
  function Core(sp: SiddhiProcess): SiddhiProcess {
    sp.(status := Status(Unset, "", sp.status.current, 0, NoEvent, []))
  }

  lemma CoreAttempt(e: Env, cfg: Config, sp: SiddhiProcess, a: Application, s: Store)
    ensures Attempt(e, cfg, sp, a, s) == Attempt(e, cfg, Core(sp), a, s)
  {
  }

  lemma RefinementStep(e: Env, cfg: Config, event: OperationResult, c: Ctl, sp: SiddhiProcess, a: Application)
    requires NoFaults(e) && Core(c.sp) == Core(sp)
    ensures var r := RolledOut(e, cfg, event, c, a);
            Core(r.sp) == Core(sp) && r.kube.store == Attempt(e, cfg, Core(sp), a, c.kube.store)
  {
    RolledOutQuiet(e, cfg, event, c, a);
    RolledOutIsAttempt(e, cfg, event, c, a);
    CoreAttempt(e, cfg, c.sp, a, c.kube.store);
  }

  lemma RolloutStep(e: Env, cfg: Config, event: OperationResult, c: Ctl, apps: seq<Application>, n: nat, r: Ctl)
    requires NoFaults(e) && 0 < n <= |apps|
    requires r == RolledOutUpTo(e, cfg, event, c, apps, n - 1) && Core(r.sp) == Core(c.sp)
    ensures var r' := RolledOutUpTo(e, cfg, event, c, apps, n);
            Core(r'.sp) == Core(c.sp) && r'.kube.store == Attempt(e, cfg, Core(c.sp), apps[n - 1], r.kube.store)
  {
    RefinementStep(e, cfg, event, r, c.sp, apps[n - 1]);
  }

  lemma AttemptStep(e: Env, cfg: Config, sp: SiddhiProcess, apps: seq<Application>, n: nat, s: Store)
    requires 0 < n <= |apps|
    ensures AttemptAll(e, cfg, sp, apps, n, s) ==
            Attempt(e, cfg, sp, apps[n - 1], AttemptAll(e, cfg, sp, apps, n - 1, s))
  {
  }

  /** The rollout loop and the plain attempts side by side. */
  lemma InStep(e: Env, cfg: Config, event: OperationResult, c: Ctl, apps: seq<Application>, n: nat) returns (r: Ctl)
    requires NoFaults(e) && n <= |apps|
    ensures r == RolledOutUpTo(e, cfg, event, c, apps, n) && Core(r.sp) == Core(c.sp)
    ensures r.kube.store == AttemptAll(e, cfg, Core(c.sp), apps, n, c.kube.store)
  {
    r := c;
    for i := 0 to n
      invariant r == RolledOutUpTo(e, cfg, event, c, apps, i) && Core(r.sp) == Core(c.sp)
      invariant r.kube.store == AttemptAll(e, cfg, Core(c.sp), apps, i, c.kube.store)
    {
      r := NextInStep(e, cfg, event, c, apps, i + 1, r);
    }
  }

  lemma NextInStep(e: Env, cfg: Config, event: OperationResult, c: Ctl, apps: seq<Application>, n: nat, q: Ctl)
    returns (r: Ctl)
    requires NoFaults(e) && 0 < n <= |apps|
    requires q == RolledOutUpTo(e, cfg, event, c, apps, n - 1) && Core(q.sp) == Core(c.sp)
    requires q.kube.store == AttemptAll(e, cfg, Core(c.sp), apps, n - 1, c.kube.store)
    ensures r == RolledOutUpTo(e, cfg, event, c, apps, n) && Core(r.sp) == Core(c.sp)
    ensures r.kube.store == AttemptAll(e, cfg, Core(c.sp), apps, n, c.kube.store)
  {
    RolloutStep(e, cfg, event, c, apps, n, q);
    AttemptStep(e, cfg, Core(c.sp), apps, n, c.kube.store);
    r := RolledOutUpTo(e, cfg, event, c, apps, n);
  }

  /** Without failures, the rollout loop of the operator refines the plain attempts of all applications,
      one after the other. */
  lemma RolloutRefinesAttempts(e: Env, cfg: Config, event: OperationResult, c: Ctl, apps: seq<Application>, n: nat)
    requires NoFaults(e) && n <= |apps|
    ensures RolledOutUpTo(e, cfg, event, c, apps, n).kube.store ==
            AttemptAll(e, cfg, Core(c.sp), apps, n, c.kube.store)
  {
    var _ := InStep(e, cfg, event, c, apps, n);
  }

  /** A rollout of applications that are all handled changes nothing. */
  lemma {:induction false} AttemptAllFixed(e: Env, cfg: Config, core: SiddhiProcess, apps: seq<Application>,
                                           n: nat, s: Store)
    requires n <= |apps| && AllHandled(e, cfg, core, apps, |apps|, s)
    ensures AttemptAll(e, cfg, core, apps, n, s) == s
    decreases n
  {
    if n > 0 {
      AttemptAllFixed(e, cfg, core, apps, n - 1, s);
      AttemptStep(e, cfg, core, apps, n, s);
      HandledIsFixed(e, cfg, core, apps[n - 1], s);
    }
  }
}
