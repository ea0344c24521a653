/** A pass depends on the failures and answers of its own calls only: those from its first call number up to
    its last. */
module Locality {
  import opened SiddhiTypes
  import opened Ingress
  import opened Names
  import opened Cluster
  import opened Deployments
  import opened Controller
  import opened ParserLifecycle
  import opened Operator

  /** Both environments treat call `n` alike. */
  predicate Alike(e: Env, e': Env, n: nat) {
    && (n in e.failedReads <==> n in e'.failedReads)
    && (n in e.failedLookups <==> n in e'.failedLookups)
    && (n in e.failedWrites <==> n in e'.failedWrites)
    && (n in e.failedStatus <==> n in e'.failedStatus)
    && (n in e.failedSyncs <==> n in e'.failedSyncs)
    && (n in e.failedUpgrades <==> n in e'.failedUpgrades)
    && (n in e.replies <==> n in e'.replies)
    && (n in e.replies ==> e.replies[n] == e'.replies[n])
  }

  /** Both environments treat the calls from `lo` up to `hi` alike. */
  ghost predicate Agree(e: Env, e': Env, lo: nat, hi: nat) {
    && e.appNames == e'.appNames && e.badYaml == e'.badYaml
    && forall n: nat | lo <= n < hi :: Alike(e, e', n)
  }

  lemma AgreeAt(e: Env, e': Env, lo: nat, hi: nat, n: nat)
    requires Agree(e, e', lo, hi) && lo <= n < hi
    ensures Alike(e, e', n)
  {
  }

  lemma AgreeLater(e: Env, e': Env, lo: nat, lo': nat, hi: nat)
    requires Agree(e, e', lo, hi) && lo <= lo'
    ensures Agree(e, e', lo', hi)
  {
  }

  // ---------------------------------------------------------------- single requests

  lemma WriteLocal(e: Env, e': Env, hi: nat, k: Kube, owner: string, eff: Effect, op: OperationResult)
    requires Agree(e, e', k.calls, hi) && Write(e, k, owner, eff, op).kube.calls <= hi
    ensures Write(e', k, owner, eff, op) == Write(e, k, owner, eff, op)
    ensures Write(e, k, owner, eff, op).kube.calls == k.calls + 1
  {
    AgreeAt(e, e', k.calls, hi, k.calls);
  }

  lemma ApplyTicks(e: Env, k: Kube, owner: string, eff: Effect)
    ensures CreateOrUpdate(e, k, owner, eff).kube.calls > k.calls
    ensures Delete(e, k, owner, eff).kube.calls > k.calls
  {
  }

  lemma ApplyLocal(e: Env, e': Env, hi: nat, k: Kube, owner: string, eff: Effect)
    requires Agree(e, e', k.calls, hi) && CreateOrUpdate(e, k, owner, eff).kube.calls <= hi
    ensures CreateOrUpdate(e', k, owner, eff) == CreateOrUpdate(e, k, owner, eff)
  {
    ApplyTicks(e, k, owner, eff);
    AgreeAt(e, e', k.calls, hi, k.calls);
    if k.calls + 1 < hi {
      AgreeAt(e, e', k.calls, hi, k.calls + 1);
    }
  }

  lemma DeleteLocal(e: Env, e': Env, hi: nat, k: Kube, owner: string, eff: Effect)
    requires Agree(e, e', k.calls, hi) && Delete(e, k, owner, eff).kube.calls <= hi
    ensures Delete(e', k, owner, eff) == Delete(e, k, owner, eff)
  {
    ApplyTicks(e, k, owner, eff);
    AgreeAt(e, e', k.calls, hi, k.calls);
    if k.calls + 1 < hi {
      AgreeAt(e, e', k.calls, hi, k.calls + 1);
    }
  }

  lemma SaveLocal(e: Env, e': Env, hi: nat, c: Ctl)
    requires Agree(e, e', c.kube.calls, hi) && c.kube.calls < hi
    ensures SaveStatus(e'.failedStatus, c) == SaveStatus(e.failedStatus, c)
    ensures SaveStatus(e'.failedSyncs, c) == SaveStatus(e.failedSyncs, c)
    ensures SaveStatus(e'.failedUpgrades, c) == SaveStatus(e.failedUpgrades, c)
  {
    AgreeAt(e, e', c.kube.calls, hi, c.kube.calls);
  }

  // ---------------------------------------------------------------- deploying

  lemma ClaimTicks(e: Env, k: Kube, a: Application, sp: SiddhiProcess)
    ensures MountClaim(e, k, a, sp).kube.calls >= k.calls
  {
  }

  lemma ClaimLocal(e: Env, e': Env, hi: nat, k: Kube, a: Application, sp: SiddhiProcess)
    requires Agree(e, e', k.calls, hi) && MountClaim(e, k, a, sp).kube.calls <= hi
    ensures MountClaim(e', k, a, sp) == MountClaim(e, k, a, sp)
  {
    if NeedsClaim(a, sp.spec) {
      AgreeAt(e, e', k.calls, hi, k.calls);
      var eff := PutClaim(ClaimName(a.name), sp.spec.pvc);
      ApplyTicks(e, Tick(k), sp.name, eff);
      if CreateOrUpdate(e, Tick(k), sp.name, eff).kube.calls <= hi {
        AgreeLater(e, e', k.calls, k.calls + 1, hi);
        ApplyLocal(e, e', hi, Tick(k), sp.name, eff);
      }
    }
  }

  lemma ConfigTicks(e: Env, k: Kube, a: Application, sp: SiddhiProcess)
    ensures MountRunnerConfig(e, k, a, sp).kube.calls >= k.calls && MountApps(e, k, a, sp).kube.calls >= k.calls
  {
    ApplyTicks(e, Tick(k), sp.name, PutConfig(RunnerConfigOf(a, sp), RunnerConfigData(a, sp)));
    ApplyTicks(e, Tick(k), sp.name, PutConfig(AppsConfigOf(a, sp), AppsData(a.apps)));
  }

  lemma RunnerConfigLocal(e: Env, e': Env, hi: nat, k: Kube, a: Application, sp: SiddhiProcess)
    requires Agree(e, e', k.calls, hi) && MountRunnerConfig(e, k, a, sp).kube.calls <= hi
    ensures MountRunnerConfig(e', k, a, sp) == MountRunnerConfig(e, k, a, sp)
  {
    if NeedsRunnerConfig(a, sp.spec) {
      AgreeLater(e, e', k.calls, k.calls + 1, hi);
      ApplyLocal(e, e', hi, Tick(k), sp.name, PutConfig(RunnerConfigOf(a, sp), RunnerConfigData(a, sp)));
    }
  }

  lemma AppsConfigLocal(e: Env, e': Env, hi: nat, k: Kube, a: Application, sp: SiddhiProcess)
    requires Agree(e, e', k.calls, hi) && MountApps(e, k, a, sp).kube.calls <= hi
    ensures MountApps(e', k, a, sp) == MountApps(e, k, a, sp)
  {
    if a.apps != map[] {
      AgreeLater(e, e', k.calls, k.calls + 1, hi);
      ApplyLocal(e, e', hi, Tick(k), sp.name, PutConfig(AppsConfigOf(a, sp), AppsData(a.apps)));
    }
  }

  lemma StageTicks(e: Env, k: Kube, a: Application, sp: SiddhiProcess)
    ensures k.calls <= MountClaim(e, k, a, sp).kube.calls <= Stage(e, k, a, sp).kube.calls
    ensures !MountClaim(e, k, a, sp).err ==>
              MountRunnerConfig(e, MountClaim(e, k, a, sp).kube, a, sp).kube.calls <= Stage(e, k, a, sp).kube.calls
  {
    ClaimTicks(e, k, a, sp);
    var s1 := MountClaim(e, k, a, sp);
    ConfigTicks(e, s1.kube, a, sp);
    ConfigTicks(e, MountRunnerConfig(e, s1.kube, a, sp).kube, a, sp);
  }

  lemma StageLocal(e: Env, e': Env, hi: nat, k: Kube, a: Application, sp: SiddhiProcess)
    requires Agree(e, e', k.calls, hi) && Stage(e, k, a, sp).kube.calls <= hi
    ensures Stage(e', k, a, sp) == Stage(e, k, a, sp)
  {
    StageTicks(e, k, a, sp);
    ClaimLocal(e, e', hi, k, a, sp);
    var s1 := MountClaim(e, k, a, sp);
    if !s1.err {
      AgreeLater(e, e', k.calls, s1.kube.calls, hi);
      RunnerConfigLocal(e, e', hi, s1.kube, a, sp);
      ConfigTicks(e, s1.kube, a, sp);
      var s2 := MountRunnerConfig(e, s1.kube, a, sp);
      if !s2.err {
        AgreeLater(e, e', k.calls, s2.kube.calls, hi);
        AppsConfigLocal(e, e', hi, s2.kube, a, sp);
      }
    }
  }

  lemma DeployedTicks(e: Env, cfg: Config, k: Kube, a: Application, sp: SiddhiProcess)
    ensures k.calls <= Stage(e, k, a, sp).kube.calls <= Deployed(e, cfg, k, a, sp).kube.calls
  {
    StageTicks(e, k, a, sp);
    var s := Stage(e, k, a, sp);
    ApplyTicks(e, s.kube, sp.name, PutDeployment(a.name, a.replicas, TemplateOf(cfg, a, sp, s.volumes)));
  }

  lemma DeployedLocal(e: Env, e': Env, hi: nat, cfg: Config, k: Kube, a: Application, sp: SiddhiProcess)
    requires Agree(e, e', k.calls, hi) && Deployed(e, cfg, k, a, sp).kube.calls <= hi
    ensures Deployed(e', cfg, k, a, sp) == Deployed(e, cfg, k, a, sp)
  {
    DeployedTicks(e, cfg, k, a, sp);
    StageLocal(e, e', hi, k, a, sp);
    var s := Stage(e, k, a, sp);
    if !s.err {
      AgreeLater(e, e', k.calls, s.kube.calls, hi);
      ApplyLocal(e, e', hi, s.kube, sp.name, PutDeployment(a.name, a.replicas, TemplateOf(cfg, a, sp, s.volumes)));
    }
  }

  // ---------------------------------------------------------------- rolling out

  lemma ReportIfTicks(e: Env, c: Ctl, event: OperationResult, op: OperationResult)
    ensures c.kube.calls <= ReportIf(e, c, event, op).kube.calls && ReportIf(e, c, event, op).sp == c.sp
  {
  }

  lemma ReportIfLocal(e: Env, e': Env, hi: nat, c: Ctl, event: OperationResult, op: OperationResult)
    requires Agree(e, e', c.kube.calls, hi) && ReportIf(e, c, event, op).kube.calls <= hi
    ensures ReportIf(e', c, event, op) == ReportIf(e, c, event, op)
  {
    if event == op && op != Unchanged {
      SaveLocal(e, e', hi, c);
    }
  }

  lemma ErrorLocal(e: Env, e': Env, hi: nat, c: Ctl)
    requires Agree(e, e', c.kube.calls, hi) && ReportError(e, c).kube.calls <= hi
    ensures ReportError(e', c) == ReportError(e, c)
  {
    SaveLocal(e, e', hi, c.(sp := c.sp.(status := c.sp.status.(phase := Failed))));
  }

  lemma PublishedTicks(e: Env, cfg: Config, c: Ctl, a: Application)
    ensures c.kube.calls <= Published(e, cfg, c, a).kube.calls
  {
    ApplyTicks(e, c.kube, c.sp.name, PutIngress(cfg.tls, PathsOf(a.name, a.ports)));
  }

  lemma PublishedLocal(e: Env, e': Env, hi: nat, cfg: Config, c: Ctl, a: Application)
    requires Agree(e, e', c.kube.calls, hi) && Published(e, cfg, c, a).kube.calls <= hi
    ensures Published(e', cfg, c, a) == Published(e, cfg, c, a)
  {
    if cfg.autoIngress {
      var eff := PutIngress(cfg.tls, PathsOf(a.name, a.ports));
      var r := CreateOrUpdate(e, c.kube, c.sp.name, eff);
      ApplyTicks(e, c.kube, c.sp.name, eff);
      ApplyLocal(e, e', hi, c.kube, c.sp.name, eff);
      if r.err {
        AgreeLater(e, e', c.kube.calls, r.kube.calls, hi);
        ErrorLocal(e, e', hi, c.(kube := r.kube));
      }
    }
  }

  lemma ExposeTicks(e: Env, cfg: Config, event: OperationResult, c: Ctl, a: Application)
    ensures var r := CreateOrUpdate(e, c.kube, c.sp.name, ServiceOf(a.name, a.ports));
            && c.kube.calls <= r.kube.calls <= ExposeApp(e, cfg, event, c, a).kube.calls
            && (!r.err ==> ReportIf(e, c.(kube := r.kube), event, r.op).kube.calls
                           <= ExposeApp(e, cfg, event, c, a).kube.calls)
  {
    var r := CreateOrUpdate(e, c.kube, c.sp.name, ServiceOf(a.name, a.ports));
    ApplyTicks(e, c.kube, c.sp.name, ServiceOf(a.name, a.ports));
    if !r.err {
      ReportIfTicks(e, c.(kube := r.kube), event, r.op);
      PublishedTicks(e, cfg, ReportIf(e, c.(kube := r.kube), event, r.op), a);
    }
  }

  lemma ExposeLocal(e: Env, e': Env, hi: nat, cfg: Config, event: OperationResult, c: Ctl, a: Application)
    requires Agree(e, e', c.kube.calls, hi) && ExposeApp(e, cfg, event, c, a).kube.calls <= hi
    ensures ExposeApp(e', cfg, event, c, a) == ExposeApp(e, cfg, event, c, a)
  {
    ExposeTicks(e, cfg, event, c, a);
    var r := CreateOrUpdate(e, c.kube, c.sp.name, ServiceOf(a.name, a.ports));
    ApplyLocal(e, e', hi, c.kube, c.sp.name, ServiceOf(a.name, a.ports));
    var c1 := c.(kube := r.kube);
    AgreeLater(e, e', c.kube.calls, r.kube.calls, hi);
    if r.err {
      ErrorLocal(e, e', hi, c1);
    } else {
      ReportIfLocal(e, e', hi, c1, event, r.op);
      ReportIfTicks(e, c1, event, r.op);
      var c2 := ReportIf(e, c1, event, r.op);
      AgreeLater(e, e', c.kube.calls, c2.kube.calls, hi);
      PublishedLocal(e, e', hi, cfg, c2, a);
    }
  }

  lemma RolledOutTicks(e: Env, cfg: Config, event: OperationResult, c: Ctl, a: Application)
    ensures var d := Deployed(e, cfg, c.kube, a, c.sp);
            && c.kube.calls <= d.kube.calls <= RolledOut(e, cfg, event, c, a).kube.calls
            && (!d.err ==> ReportIf(e, c.(kube := d.kube), event, d.op).kube.calls
                           <= RolledOut(e, cfg, event, c, a).kube.calls)
  {
    DeployedTicks(e, cfg, c.kube, a, c.sp);
    var d := Deployed(e, cfg, c.kube, a, c.sp);
    if !d.err {
      ReportIfTicks(e, c.(kube := d.kube), event, d.op);
      ExposeTicks(e, cfg, event, ReportIf(e, c.(kube := d.kube), event, d.op), a);
    }
  }

  lemma RolledOutLocal(e: Env, e': Env, hi: nat, cfg: Config, event: OperationResult, c: Ctl, a: Application)
    requires Agree(e, e', c.kube.calls, hi) && RolledOut(e, cfg, event, c, a).kube.calls <= hi
    ensures RolledOut(e', cfg, event, c, a) == RolledOut(e, cfg, event, c, a)
  {
    RolledOutTicks(e, cfg, event, c, a);
    var d := Deployed(e, cfg, c.kube, a, c.sp);
    DeployedLocal(e, e', hi, cfg, c.kube, a, c.sp);
    var c1 := c.(kube := d.kube);
    AgreeLater(e, e', c.kube.calls, d.kube.calls, hi);
    if d.err {
      ErrorLocal(e, e', hi, c1);
    } else {
      ReportIfLocal(e, e', hi, c1, event, d.op);
      ReportIfTicks(e, c1, event, d.op);
      var c2 := ReportIf(e, c1, event, d.op);
      if a.serviceEnabled {
        AgreeLater(e, e', c.kube.calls, c2.kube.calls, hi);
        ExposeLocal(e, e', hi, cfg, event, c2, a);
      }
    }
  }

  /** From `c` the first environment leads to `r` and the second to `r'`: the same, if they agree until then. */
  ghost predicate LocalTo(e: Env, e': Env, hi: nat, c: Ctl, r: Ctl, r': Ctl) {
    c.kube.calls <= r.kube.calls && (Agree(e, e', c.kube.calls, hi) && r.kube.calls <= hi ==> r' == r)
  }

  lemma RolledOutStepLocal(e: Env, e': Env, hi: nat, cfg: Config, event: OperationResult, c: Ctl, q: Ctl, q': Ctl,
                           a: Application)
    requires LocalTo(e, e', hi, c, q, q')
    ensures LocalTo(e, e', hi, c, RolledOut(e, cfg, event, q, a), RolledOut(e', cfg, event, q', a))
  {
    var r := RolledOut(e, cfg, event, q, a);
    RolledOutTicks(e, cfg, event, q, a);
    if Agree(e, e', c.kube.calls, hi) && r.kube.calls <= hi {
      AgreeLater(e, e', c.kube.calls, q.kube.calls, hi);
      RolledOutLocal(e, e', hi, cfg, event, q, a);
    }
  }

  lemma RolledOutNextLocal(e: Env, e': Env, hi: nat, cfg: Config, event: OperationResult, c: Ctl,
                           apps: seq<Application>, n: nat)
    requires 0 < n <= |apps|
    requires LocalTo(e, e', hi, c, RolledOutUpTo(e, cfg, event, c, apps, n - 1),
                     RolledOutUpTo(e', cfg, event, c, apps, n - 1))
    ensures LocalTo(e, e', hi, c, RolledOutUpTo(e, cfg, event, c, apps, n), RolledOutUpTo(e', cfg, event, c, apps, n))
  {
    RolledOutStepLocal(e, e', hi, cfg, event, c, RolledOutUpTo(e, cfg, event, c, apps, n - 1),
                       RolledOutUpTo(e', cfg, event, c, apps, n - 1), apps[n - 1]);
  }

  lemma RolledOutUpToLocal(e: Env, e': Env, hi: nat, cfg: Config, event: OperationResult, c: Ctl,
                           apps: seq<Application>, n: nat)
    requires n <= |apps|
    ensures LocalTo(e, e', hi, c, RolledOutUpTo(e, cfg, event, c, apps, n), RolledOutUpTo(e', cfg, event, c, apps, n))
  {
    for i := 0 to n
      invariant LocalTo(e, e', hi, c, RolledOutUpTo(e, cfg, event, c, apps, i),
                        RolledOutUpTo(e', cfg, event, c, apps, i))
    {
      RolledOutNextLocal(e, e', hi, cfg, event, c, apps, i + 1);
    }
  }

  lemma RescaledTicks(e: Env, c: Ctl, a: Application)
    ensures c.kube.calls <= Rescaled(e, c, a).kube.calls
  {
  }

  lemma RescaledLocal(e: Env, e': Env, hi: nat, c: Ctl, a: Application)
    requires Agree(e, e', c.kube.calls, hi) && Rescaled(e, c, a).kube.calls <= hi
    ensures Rescaled(e', c, a) == Rescaled(e, c, a)
  {
    var k := c.kube;
    AgreeAt(e, e', k.calls, hi, k.calls);
    if k.calls !in e.failedReads && a.name in k.store.deployments
       && k.store.deployments[a.name].replicas != a.replicas {
      var r := Write(e, Tick(k), c.sp.name, Scale(a.name, a.replicas), Updated);
      AgreeLater(e, e', k.calls, k.calls + 1, hi);
      WriteLocal(e, e', hi, Tick(k), c.sp.name, Scale(a.name, a.replicas), Updated);
      if r.err {
        AgreeLater(e, e', k.calls, r.kube.calls, hi);
        ErrorLocal(e, e', hi, c.(kube := r.kube));
      }
    }
  }

  lemma {:induction false} RescaledUpToLocal(e: Env, e': Env, hi: nat, c: Ctl, apps: seq<Application>, n: nat)
    returns (r: Ctl)
    requires n <= |apps|
    ensures r == RescaledUpTo(e, c, apps, n) && c.kube.calls <= r.kube.calls
    ensures Agree(e, e', c.kube.calls, hi) && r.kube.calls <= hi ==> RescaledUpTo(e', c, apps, n) == r
    decreases n
  {
    r := c;
    if n > 0 {
      var q := RescaledUpToLocal(e, e', hi, c, apps, n - 1);
      r := Rescaled(e, q, apps[n - 1]);
      RescaledTicks(e, q, apps[n - 1]);
      if Agree(e, e', c.kube.calls, hi) && r.kube.calls <= hi {
        AgreeLater(e, e', c.kube.calls, q.kube.calls, hi);
        RescaledLocal(e, e', hi, q, apps[n - 1]);
      }
    }
  }

  lemma PartialLocal(e: Env, e': Env, hi: nat, c: Ctl, apps: seq<Application>)
    ensures var r := ReportPartialApps(e, c, apps);
            && r.kube.calls == c.kube.calls + 1
            && (Agree(e, e', c.kube.calls, hi) && r.kube.calls <= hi ==> ReportPartialApps(e', c, apps) == r)
  {
    if Agree(e, e', c.kube.calls, hi) && c.kube.calls + 1 <= hi {
      SaveLocal(e, e', hi, c.(sp := c.sp.(status := c.sp.status.(partialApps := PartialApps(apps)))));
    }
  }

  lemma SyncedLocal(e: Env, e': Env, hi: nat, c: Ctl)
    ensures var r := Synced(e, c);
            && r.kube.calls == c.kube.calls + 1
            && (Agree(e, e', c.kube.calls, hi) && r.kube.calls <= hi ==> Synced(e', c) == r)
  {
    if Agree(e, e', c.kube.calls, hi) && c.kube.calls + 1 <= hi {
      SaveLocal(e, e', hi, c.(sp := c.sp.(status := c.sp.status.(previous := c.sp.status.current))));
    }
  }

  lemma ReadyLocal(e: Env, e': Env, hi: nat, c: Ctl, available: int, need: int)
    ensures var r := ReportReady(e, c, available, need);
            && r.kube.calls == c.kube.calls + 1
            && (Agree(e, e', c.kube.calls, hi) && r.kube.calls <= hi ==> ReportReady(e', c, available, need) == r)
  {
    if Agree(e, e', c.kube.calls, hi) && c.kube.calls + 1 <= hi {
      SaveLocal(e, e', hi, c.(sp := c.sp.(status := c.sp.status.(ready := ReadyText(available, need)))));
    }
  }

  lemma PhaseLocal(e: Env, e': Env, hi: nat, c: Ctl, phase: Phase)
    ensures var r := EnterPhase(e, c, phase);
            && r.kube.calls == c.kube.calls + 1
            && (Agree(e, e', c.kube.calls, hi) && r.kube.calls <= hi ==> EnterPhase(e', c, phase) == r)
  {
    if Agree(e, e', c.kube.calls, hi) && c.kube.calls + 1 <= hi {
      SaveLocal(e, e', hi, c.(sp := c.sp.(status := c.sp.status.(phase := phase))));
    }
  }

  lemma RolloutsLocal(e: Env, e': Env, hi: nat, cfg: Config, event: OperationResult, c: Ctl, apps: seq<Application>)
    returns (r: Ctl)
    ensures r == Rollouts(e, cfg, event, c, apps) && c.kube.calls <= r.kube.calls
    ensures Agree(e, e', c.kube.calls, hi) && r.kube.calls <= hi ==> Rollouts(e', cfg, event, c, apps) == r
  {
    PartialLocal(e, e', hi, c, apps);
    r := ReportPartialApps(e, c, apps);
    if event != Unchanged {
      if Agree(e, e', c.kube.calls, hi) {
        AgreeLater(e, e', c.kube.calls, r.kube.calls, hi);
      }
      RolledOutUpToLocal(e, e', hi, cfg, event, r, apps, |apps|);
      r := RolledOutUpTo(e, cfg, event, r, apps, |apps|);
    }
  }

  lemma CreatedLocal(e: Env, e': Env, hi: nat, cfg: Config, c: Ctl, apps: seq<Application>) returns (r: Ctl)
    ensures r == ArtifactsCreated(e, cfg, c, apps) && c.kube.calls <= r.kube.calls
    ensures Agree(e, e', c.kube.calls, hi) && r.kube.calls <= hi ==> ArtifactsCreated(e', cfg, c, apps) == r
  {
    var event := EventOf(c.sp.status);
    var q := RolloutsLocal(e, e', hi, cfg, event, c, apps);
    SyncedLocal(e, e', hi, q);
    var s := Synced(e, q);
    ReadyLocal(e, e', hi, s, 0, |apps|);
    if Agree(e, e', c.kube.calls, hi) {
      AgreeLater(e, e', c.kube.calls, q.kube.calls, hi);
      AgreeLater(e, e', c.kube.calls, s.kube.calls, hi);
    }
    r := ArtifactsCreated(e, cfg, c, apps);
  }

  // ---------------------------------------------------------------- cleaning

  lemma StoppedTicks(e: Env, c: Ctl, i: nat)
    ensures var n := AppName(c.sp.name, i);
            var d := Delete(e, c.kube, c.sp.name, DropDeployment(n));
            var c1 := Report(e, c.(kube := d.kube));
            var s := Delete(e, c1.kube, c.sp.name, DropService(n));
            var r := AppStopped(e, c, i);
            && c.kube.calls <= d.kube.calls <= r.ctl.kube.calls && c1.kube.calls == d.kube.calls + 1
            && (!d.err ==> c1.kube.calls <= s.kube.calls <= r.ctl.kube.calls)
            && (!d.err && !s.err ==> r.ctl.kube.calls == s.kube.calls + 1)
  {
  }

  lemma ReportLocal(e: Env, e': Env, hi: nat, c: Ctl)
    requires Agree(e, e', c.kube.calls, hi) && c.kube.calls < hi
    ensures Report(e', c) == Report(e, c)
  {
    SaveLocal(e, e', hi, c);
  }

  lemma StoppedLocal(e: Env, e': Env, hi: nat, c: Ctl, i: nat)
    requires Agree(e, e', c.kube.calls, hi) && AppStopped(e, c, i).ctl.kube.calls <= hi
    ensures AppStopped(e', c, i) == AppStopped(e, c, i)
  {
    StoppedTicks(e, c, i);
    var n := AppName(c.sp.name, i);
    var d := Delete(e, c.kube, c.sp.name, DropDeployment(n));
    DeleteLocal(e, e', hi, c.kube, c.sp.name, DropDeployment(n));
    if !d.err {
      AgreeLater(e, e', c.kube.calls, d.kube.calls, hi);
      ReportLocal(e, e', hi, c.(kube := d.kube));
      var c1 := Report(e, c.(kube := d.kube));
      AgreeLater(e, e', c.kube.calls, c1.kube.calls, hi);
      DeleteLocal(e, e', hi, c1.kube, c.sp.name, DropService(n));
      var s := Delete(e, c1.kube, c.sp.name, DropService(n));
      if !s.err {
        AgreeLater(e, e', c.kube.calls, s.kube.calls, hi);
        ReportLocal(e, e', hi, c1.(kube := s.kube));
      }
    }
  }

  lemma ReleasedLocal(e: Env, e': Env, hi: nat, c: Ctl, i: nat)
    ensures var r := AppReleased(e, c, i);
            && c.kube.calls <= r.ctl.kube.calls
            && (Agree(e, e', c.kube.calls, hi) && r.ctl.kube.calls <= hi ==> AppReleased(e', c, i) == r)
  {
    var n := AppName(c.sp.name, i);
    var claim, config := DropClaim(ClaimName(n)), DropConfig(AppsConfigName(n, c.sp.status.previous));
    var v := Delete(e, c.kube, c.sp.name, claim);
    ApplyTicks(e, c.kube, c.sp.name, claim);
    ApplyTicks(e, v.kube, c.sp.name, config);
    if Agree(e, e', c.kube.calls, hi) && AppReleased(e, c, i).ctl.kube.calls <= hi {
      DeleteLocal(e, e', hi, c.kube, c.sp.name, claim);
      if !v.err {
        AgreeLater(e, e', c.kube.calls, v.kube.calls, hi);
        DeleteLocal(e, e', hi, v.kube, c.sp.name, config);
      }
    }
  }

  lemma RemovedLocal(e: Env, e': Env, hi: nat, c: Ctl, i: nat)
    ensures var r := AppRemoved(e, c, i);
            && c.kube.calls <= r.ctl.kube.calls
            && (Agree(e, e', c.kube.calls, hi) && r.ctl.kube.calls <= hi ==> AppRemoved(e', c, i) == r)
  {
    var s := AppStopped(e, c, i);
    StoppedTicks(e, c, i);
    ReleasedLocal(e, e', hi, s.ctl, i);
    if Agree(e, e', c.kube.calls, hi) && AppRemoved(e, c, i).ctl.kube.calls <= hi {
      StoppedLocal(e, e', hi, c, i);
      AgreeLater(e, e', c.kube.calls, s.ctl.kube.calls, hi);
    }
  }

  lemma {:induction false} RemovedUpToLocal(e: Env, e': Env, hi: nat, c: Ctl, lo: nat, n: nat) returns (r: Cleaned)
    ensures r == RemovedUpTo(e, c, lo, n) && c.kube.calls <= r.ctl.kube.calls
    ensures Agree(e, e', c.kube.calls, hi) && r.ctl.kube.calls <= hi ==> RemovedUpTo(e', c, lo, n) == r
    decreases n
  {
    if n <= lo {
      r := Cleaned(c, false);
    } else {
      var q := RemovedUpToLocal(e, e', hi, c, lo, n - 1);
      r := q;
      if !q.err {
        r := AppRemoved(e, q.ctl, n - 1);
        RemovedLocal(e, e', hi, q.ctl, n - 1);
        if Agree(e, e', c.kube.calls, hi) {
          AgreeLater(e, e', c.kube.calls, q.ctl.kube.calls, hi);
        }
      }
    }
  }

  // ---------------------------------------------------------------- parsing

  lemma StartLocal(e: Env, e': Env, hi: nat, cfg: Config, k: Kube, sp: SiddhiProcess)
    ensures var r := ParserDeployed(e, cfg, k, sp);
            && k.calls <= r.calls
            && (Agree(e, e', k.calls, hi) && r.calls <= hi ==> ParserDeployed(e', cfg, k, sp) == r)
  {
    var a, service := ParserApp(sp.name), ServiceOf(ParserName(sp.name), [PARSER_PORT]);
    var d := Deployed(e, cfg, k, a, sp);
    DeployedTicks(e, cfg, k, a, sp);
    ApplyTicks(e, d.kube, sp.name, service);
    if Agree(e, e', k.calls, hi) && ParserDeployed(e, cfg, k, sp).calls <= hi {
      DeployedLocal(e, e', hi, cfg, k, a, sp);
      AgreeLater(e, e', k.calls, d.kube.calls, hi);
      if !d.err {
        ApplyLocal(e, e', hi, d.kube, sp.name, service);
      }
    }
  }

  lemma ParserCleanedLocal(e: Env, e': Env, hi: nat, k: Kube, p: string)
    ensures var r := ParserCleaned(e, k, p);
            && k.calls <= r.kube.calls
            && (Agree(e, e', k.calls, hi) && r.kube.calls <= hi ==> ParserCleaned(e', k, p) == r)
  {
    var n := ParserName(p);
    var d := Delete(e, k, p, DropDeployment(n));
    ApplyTicks(e, k, p, DropDeployment(n));
    ApplyTicks(e, d.kube, p, DropService(n));
    if Agree(e, e', k.calls, hi) && ParserCleaned(e, k, p).kube.calls <= hi {
      DeleteLocal(e, e', hi, k, p, DropDeployment(n));
      AgreeLater(e, e', k.calls, d.kube.calls, hi);
      if !d.err {
        DeleteLocal(e, e', hi, d.kube, p, DropService(n));
      }
    }
  }

  lemma ParsedLocal(e: Env, e': Env, hi: nat, cfg: Config, k: Kube, sp: SiddhiProcess)
    ensures var r := ProcessParsed(e, cfg, k, sp);
            && k.calls <= r.kube.calls
            && (Agree(e, e', k.calls, hi) && r.kube.calls <= hi ==> ProcessParsed(e', cfg, k, sp) == r)
  {
    var k1 := ParserDeployed(e, cfg, k, sp);
    StartLocal(e, e', hi, cfg, k, sp);
    ParserCleanedLocal(e, e', hi, Tick(k1), sp.name);
    if Agree(e, e', k.calls, hi) && ProcessParsed(e, cfg, k, sp).kube.calls <= hi {
      AgreeAt(e, e', k.calls, hi, k1.calls);
      AgreeLater(e, e', k.calls, k1.calls + 1, hi);
    }
  }

  // ---------------------------------------------------------------- a pass

  lemma {:induction false} AppsReadLocal(e: Env, e': Env, hi: nat, userConfigs: map<string, map<string, string>>,
                                         start: AppsRead, p: string, refs: seq<AppRef>, n: nat) returns (r: AppsRead)
    requires n <= |refs|
    ensures r == AppsReadUpTo(e, userConfigs, start, p, refs, n) && start.kube.calls <= r.kube.calls
    ensures Agree(e, e', start.kube.calls, hi) && r.kube.calls <= hi ==>
              AppsReadUpTo(e', userConfigs, start, p, refs, n) == r
    decreases n
  {
    r := start;
    if n > 0 {
      var q := AppsReadLocal(e, e', hi, userConfigs, start, p, refs, n - 1);
      r := AppsReadUpTo(e, userConfigs, start, p, refs, n);
      if Agree(e, e', start.kube.calls, hi) && q.kube.calls < hi {
        AgreeAt(e, e', start.kube.calls, hi, q.kube.calls);
      }
    }
  }

  lemma PopulatedLocal(e: Env, e': Env, hi: nat, cfg: Config, c: Ctl, cache: map<string, seq<Application>>)
    ensures var r := AppsPopulated(e, cfg, c, cache);
            && c.kube.calls <= r.ctl.kube.calls
            && (Agree(e, e', c.kube.calls, hi) && r.ctl.kube.calls <= hi ==> AppsPopulated(e', cfg, c, cache) == r)
  {
    var p, r := c.sp.name, ProcessParsed(e, cfg, c.kube, c.sp);
    ParsedLocal(e, e', hi, cfg, c.kube, c.sp);
    if r.apps.Some? {
      var oldLen := if p in cache then |cache[p]| else 0;
      var d := RemovedUpToLocal(e, e', hi, c.(kube := r.kube), |r.apps.value|, oldLen);
      assert d == ArtifactsCleaned(e, c.(kube := r.kube), oldLen, |r.apps.value|);
      if Agree(e, e', c.kube.calls, hi) {
        AgreeLater(e, e', c.kube.calls, r.kube.calls, hi);
      }
    }
  }

  lemma CheckedLocal(e: Env, e': Env, hi: nat, cfg: Config, c: Ctl, apps: seq<Application>)
    ensures var r := DeploymentsChecked(e, ArtifactsCreated(e, cfg, c, apps), apps);
            && c.kube.calls <= r.kube.calls
            && (Agree(e, e', c.kube.calls, hi) && r.kube.calls <= hi ==>
                  DeploymentsChecked(e', ArtifactsCreated(e', cfg, c, apps), apps) == r)
  {
    var c1 := CreatedLocal(e, e', hi, cfg, c, apps);
    var c2 := RescaledUpToLocal(e, e', hi, c1, apps, |apps|);
    if Agree(e, e', c.kube.calls, hi) {
      AgreeLater(e, e', c.kube.calls, c1.kube.calls, hi);
    }
  }

  lemma MessagingLocal(e: Env, e': Env, hi: nat, cfg: Config, c: Ctl, apps: seq<Application>)
    requires Agree(e, e', c.kube.calls, hi) && Messaged(c, apps).kube.calls <= hi
    ensures MessagingFails(e', cfg, c, apps) <==> MessagingFails(e, cfg, c, apps)
  {
    if NeedsMessaging(c.sp.spec, apps) {
      AgreeAt(e, e', c.kube.calls, hi, c.kube.calls);
    }
  }

  lemma AppliedTicks(e: Env, w: World, cfg: Config, c: Ctl, apps: seq<Application>)
    ensures c.kube.calls <= Messaged(c, apps).kube.calls <= AppsApplied(e, w, cfg, c, apps).world.kube.calls
  {
    CheckedLocal(e, e, 0, cfg, Messaged(c, apps), apps);
  }

  lemma AppliedLocal(e: Env, e': Env, hi: nat, w: World, cfg: Config, c: Ctl, apps: seq<Application>)
    ensures var r := AppsApplied(e, w, cfg, c, apps);
            && c.kube.calls <= r.world.kube.calls
            && (Agree(e, e', c.kube.calls, hi) && r.world.kube.calls <= hi ==> AppsApplied(e', w, cfg, c, apps) == r)
  {
    var c1 := Messaged(c, apps);
    AppliedTicks(e, w, cfg, c, apps);
    if Agree(e, e', c.kube.calls, hi) && AppsApplied(e, w, cfg, c, apps).world.kube.calls <= hi {
      MessagingLocal(e, e', hi, cfg, c, apps);
      AgreeLater(e, e', c.kube.calls, c1.kube.calls, hi);
      if MessagingFails(e, cfg, c, apps) {
        ErrorLocal(e, e', hi, c1);
      } else {
        CheckedLocal(e, e', hi, cfg, c1, apps);
      }
    }
  }

  lemma OpenedLocal(e: Env, e': Env, hi: nat, w: World, sp: SiddhiProcess, upgrade: bool)
    ensures var r := Opened(e, w, sp, upgrade);
            && w.kube.calls <= r.kube.calls
            && (Agree(e, e', w.kube.calls, hi) && r.kube.calls <= hi ==> Opened(e', w, sp, upgrade) == r)
  {
    var c := Ctl(w.kube, sp);
    PhaseLocal(e, e', hi, c, Pending);
    var c1 := DefaultPending(e, c);
    PhaseLocal(e, e', hi, c1, NotReady);
    var c2 := NotReadyWhenUpdated(e, c1);
    if Agree(e, e', w.kube.calls, hi) && Opened(e, w, sp, upgrade).kube.calls <= hi {
      AgreeLater(e, e', w.kube.calls, c1.kube.calls, hi);
      AgreeLater(e, e', w.kube.calls, c2.kube.calls, hi);
      if upgrade {
        SaveLocal(e, e', hi, c2.(sp := c2.sp.(status := c2.sp.status.(current := c2.sp.status.current + 1))));
      }
    }
  }

  lemma ReadLocal(e: Env, e': Env, hi: nat, w: World, c: Ctl)
    ensures var r := AllAppsRead(e, w, c);
            && c.kube.calls <= r.kube.calls
            && (Agree(e, e', c.kube.calls, hi) && r.kube.calls <= hi ==> AllAppsRead(e', w, c) == r)
  {
    var _ := AppsReadLocal(e, e', hi, w.userConfigs, AppsRead(c.kube, w.listeners, false), c.sp.name, c.sp.spec.apps,
                           |c.sp.spec.apps|);
  }

  lemma PreparedLocal(e: Env, e': Env, hi: nat, w: World, cfg: Config, sp: SiddhiProcess, upgrade: bool)
    ensures var c, d := Opened(e, w, sp, upgrade), Prepared(e, w, cfg, sp, upgrade);
            && w.kube.calls <= c.kube.calls <= AllAppsRead(e, w, c).kube.calls <= d.kube.calls
            && (Agree(e, e', w.kube.calls, hi) && d.kube.calls <= hi ==>
                  && Opened(e', w, sp, upgrade) == c && AllAppsRead(e', w, c) == AllAppsRead(e, w, c)
                  && Prepared(e', w, cfg, sp, upgrade) == d)
  {
    var c := Opened(e, w, sp, upgrade);
    OpenedLocal(e, e', hi, w, sp, upgrade);
    ReadLocal(e, e', hi, w, c);
    var c1 := c.(kube := AllAppsRead(e, w, c).kube);
    if Agree(e, e', w.kube.calls, hi) {
      AgreeLater(e, e', w.kube.calls, c.kube.calls, hi);
      AgreeLater(e, e', w.kube.calls, c1.kube.calls, hi);
      if c1.kube.calls < hi {
        ReportLocal(e, e', hi, c1);
      }
    }
  }

  lemma ConcludedLocal(e: Env, e': Env, hi: nat, w: World, listeners: map<string, Listener>, cfg: Config, c: Ctl)
    ensures var r := Concluded(e, w, listeners, cfg, c);
            && c.kube.calls <= r.world.kube.calls
            && (Agree(e, e', c.kube.calls, hi) && r.world.kube.calls <= hi ==>
                  Concluded(e', w, listeners, cfg, c) == r)
  {
    var pop := AppsPopulated(e, cfg, c, w.apps);
    var w1 := CachesPopulated(w, listeners, cfg, c.sp, pop);
    PopulatedLocal(e, e', hi, cfg, c, w.apps);
    if pop.apps.Some? {
      AppliedLocal(e, e', hi, w1, cfg, pop.ctl, pop.apps.value);
    }
    if Agree(e, e', c.kube.calls, hi) && Concluded(e, w, listeners, cfg, c).world.kube.calls <= hi {
      AgreeLater(e, e', c.kube.calls, pop.ctl.kube.calls, hi);
      if pop.apps.None? {
        ErrorLocal(e, e', hi, pop.ctl);
      }
    }
  }

  lemma UnreadLocal(e: Env, e': Env, hi: nat, w: World, sp: SiddhiProcess, upgrade: bool)
    requires Agree(e, e', w.kube.calls, hi)
    ensures var c := Opened(e, w, sp, upgrade);
            AllAppsRead(e, w, c).kube.calls <= hi ==>
              Opened(e', w, sp, upgrade) == c && AllAppsRead(e', w, c) == AllAppsRead(e, w, c)
  {
    var c := Opened(e, w, sp, upgrade);
    OpenedLocal(e, e', hi, w, sp, upgrade);
    ReadLocal(e, e', hi, w, c);
    AgreeLater(e, e', w.kube.calls, c.kube.calls, hi);
  }

  lemma AdvancedLocal(e: Env, e': Env, hi: nat, w: World, cfg: Config, sp: SiddhiProcess, upgrade: bool)
    ensures var r := Advanced(e, w, cfg, sp, upgrade);
            && w.kube.calls <= r.world.kube.calls
            && (Agree(e, e', w.kube.calls, hi) && r.world.kube.calls <= hi ==>
                  Advanced(e', w, cfg, sp, upgrade) == r)
  {
    PreparedLocal(e, e', hi, w, cfg, sp, upgrade);
    var c, d := Opened(e, w, sp, upgrade), Prepared(e, w, cfg, sp, upgrade);
    var g := AllAppsRead(e, w, c);
    ConcludedLocal(e, e', hi, w, g.listeners, cfg, d);
    if Agree(e, e', w.kube.calls, hi) && Advanced(e, w, cfg, sp, upgrade).world.kube.calls <= hi {
      UnreadLocal(e, e', hi, w, sp, upgrade);
      AgreeLater(e, e', w.kube.calls, g.kube.calls, hi);
      if g.err {
        ErrorLocal(e, e', hi, c.(kube := g.kube));
      } else {
        AgreeLater(e, e', w.kube.calls, d.kube.calls, hi);
      }
    }
  }

  lemma {:induction false} TallyLocal(e: Env, e': Env, hi: nat, k: Kube, apps: seq<Application>, n: nat)
    requires n <= |apps| && Agree(e, e', k.calls, hi) && k.calls + n <= hi
    ensures TallyUpTo(e', k, apps, n) == TallyUpTo(e, k, apps, n)
    decreases n
  {
    if n > 0 {
      TallyLocal(e, e', hi, k, apps, n - 1);
      AgreeAt(e, e', k.calls, hi, k.calls + n - 1);
    }
  }

  lemma JudgedLocal(e: Env, e': Env, hi: nat, c: Ctl, t: Tally)
    ensures var r := Judged(e, c, t);
            && c.kube.calls <= r.ctl.kube.calls
            && (Agree(e, e', c.kube.calls, hi) && r.ctl.kube.calls <= hi ==> Judged(e', c, t) == r)
  {
    ReadyLocal(e, e', hi, c, t.available, t.need);
    var c1 := ReportReady(e, c, t.available, t.need);
    PhaseLocal(e, e', hi, c1, Ready);
    PhaseLocal(e, e', hi, c1, NotReady);
    if Agree(e, e', c.kube.calls, hi) {
      AgreeLater(e, e', c.kube.calls, c1.kube.calls, hi);
    }
  }

  lemma TimerLocal(e: Env, e': Env, hi: nat, c: Ctl, apps: seq<Application>)
    ensures var r := AvailabilityChecked(e, c, apps);
            && c.kube.calls <= r.ctl.kube.calls
            && (Agree(e, e', c.kube.calls, hi) && r.ctl.kube.calls <= hi ==> AvailabilityChecked(e', c, apps) == r)
  {
    var c1 := c.(kube := c.kube.(calls := c.kube.calls + |apps|));
    var r := TimerTallied(e, e', hi, c, apps, c1);
    CheckedIsJudged(e, c, apps, c1);
    CheckedIsJudged(e', c, apps, c1);
  }

  lemma CheckedIsJudged(e: Env, c: Ctl, apps: seq<Application>, c1: Ctl)
    requires c1 == c.(kube := c.kube.(calls := c.kube.calls + |apps|))
    ensures AvailabilityChecked(e, c, apps) == Judged(e, c1, Tallied(e, c.kube, apps))
  {
  }

  lemma TimerTallied(e: Env, e': Env, hi: nat, c: Ctl, apps: seq<Application>, c1: Ctl) returns (r: Checked)
    requires c1 == c.(kube := c.kube.(calls := c.kube.calls + |apps|))
    ensures r == Judged(e, c1, Tallied(e, c.kube, apps)) && c.kube.calls <= r.ctl.kube.calls
    ensures Agree(e, e', c.kube.calls, hi) && r.ctl.kube.calls <= hi ==> r == Judged(e', c1, Tallied(e', c.kube, apps))
  {
    var t := Tallied(e, c.kube, apps);
    r := Judged(e, c1, t);
    JudgedLocal(e, e', hi, c1, t);
    if Agree(e, e', c.kube.calls, hi) && r.ctl.kube.calls <= hi {
      TallyLocal(e, e', hi, c.kube, apps, |apps|);
      AgreeLater(e, e', c.kube.calls, c1.kube.calls, hi);
    }
  }

  lemma FoundLocal(e: Env, e': Env, hi: nat, w: World, cfg: Config, sp: SiddhiProcess, upgrade: bool)
    ensures var r := Found(e, w, cfg, sp, upgrade);
            && w.kube.calls <= r.world.kube.calls
            && (Agree(e, e', w.kube.calls, hi) && r.world.kube.calls <= hi ==> Found(e', w, cfg, sp, upgrade) == r)
  {
    if TimerPass(w, sp) {
      TimerLocal(e, e', hi, Ctl(w.kube, sp), w.apps[sp.name]);
    } else {
      AdvancedLocal(e, e', hi, w, cfg, sp, upgrade);
    }
  }

  /** A pass has the same outcome and leads to the same world in every environment that treats its own calls
      alike. */
  lemma ReconcileLocal(e: Env, e': Env, hi: nat, w: World, request: string, cfg: Config)
    ensures var r := Reconcile(e, w, request, cfg);
            && w.kube.calls + 2 <= r.world.kube.calls
            && (Agree(e, e', w.kube.calls, hi) && r.world.kube.calls <= hi ==> Reconcile(e', w, request, cfg) == r)
  {
    if Reaches(e, w, request) {
      FoundLocal(e, e', hi, Entered(w), cfg, w.kube.crs[Target(e, w, request)], ForConfigMap(e, w, request));
    }
    if Agree(e, e', w.kube.calls, hi) && w.kube.calls + 2 <= hi {
      AgreeAt(e, e', w.kube.calls, hi, w.kube.calls);
      AgreeAt(e, e', w.kube.calls, hi, w.kube.calls + 1);
      AgreeLater(e, e', w.kube.calls, w.kube.calls + 2, hi);
    }
  }

  // ---------------------------------------------------------------- restricting failures to a range

  function Within(ns: set<nat>, lo: nat, hi: nat): set<nat> {
    set n | n in ns && lo <= n < hi
  }

  /** The environment without the failures outside of the calls from `lo` up to `hi`. */
  function Only(e: Env, lo: nat, hi: nat): Env {
    e.(failedReads := Within(e.failedReads, lo, hi),
       failedLookups := Within(e.failedLookups, lo, hi),
       failedWrites := Within(e.failedWrites, lo, hi),
       failedStatus := Within(e.failedStatus, lo, hi),
       failedSyncs := Within(e.failedSyncs, lo, hi),
       failedUpgrades := Within(e.failedUpgrades, lo, hi))
  }

  lemma OnlyAgrees(e: Env, lo: nat, hi: nat)
    ensures Agree(e, Only(e, lo, hi), lo, hi)
  {
  }

  /** No call from `lo` up to `hi` fails. */
  ghost predicate Calm(e: Env, lo: nat, hi: nat) {
    NoFaults(Only(e, lo, hi))
  }

  /** No read and no write from `lo` up to `hi` fails; lookups before deletions and status updates may. */
  ghost predicate Effective(e: Env, lo: nat, hi: nat) {
    Within(e.failedReads, lo, hi) == {} && Within(e.failedWrites, lo, hi) == {}
  }

  /** Target and reach of a request depend on its first two calls. */
  lemma ReachLocal(e: Env, e': Env, hi: nat, w: World, request: string)
    requires Agree(e, e', w.kube.calls, hi) && w.kube.calls + 2 <= hi
    ensures ForConfigMap(e', w, request) <==> ForConfigMap(e, w, request)
    ensures Target(e', w, request) == Target(e, w, request)
    ensures Reaches(e', w, request) <==> Reaches(e, w, request)
  {
    AgreeAt(e, e', w.kube.calls, hi, w.kube.calls);
    AgreeAt(e, e', w.kube.calls, hi, w.kube.calls + 1);
  }

  /** A run depends on the calls that it has made only. */
  lemma {:induction false} RunLocal(e: Env, e': Env, hi: nat, steps: seq<Step>)
    requires Agree(e, e', 0, hi) && Run(e, steps).kube.calls <= hi
    ensures Run(e', steps) == Run(e, steps)
    decreases |steps|
  {
    if steps != [] {
      var init, step := steps[..|steps| - 1], steps[|steps| - 1];
      NextLocal(e, e', hi, Run(e, init), step);
      RunLocal(e, e', hi, init);
    }
  }

  lemma NextLocal(e: Env, e': Env, hi: nat, w: World, step: Step)
    requires Agree(e, e', 0, hi) && Next(e, w, step).kube.calls <= hi
    ensures w.kube.calls <= Next(e, w, step).kube.calls && Next(e', w, step) == Next(e, w, step)
  {
    if step.ReconcileRequest? {
      AgreeLater(e, e', 0, w.kube.calls, hi);
      ReconcileLocal(e, e', hi, w, step.name, step.cfg);
    }
  }
}
