/** Every stage of a reconcile pass follows the protocol of `Moves`, whatever calls fail. */
module Conformance {
  import opened SiddhiTypes
  import opened Ingress
  import opened Names
  import opened Cluster
  import opened Deployments
  import opened Controller
  import opened ParserLifecycle
  import opened Moves

  /** Application `i` carries the `i`-th name of the process. */
  ghost predicate Named(p: string, apps: seq<Application>) {
    forall i: nat :: i < |apps| ==> apps[i].name == AppName(p, i)
  }

  /** The working copy may have changed in its reporting fields only. */
  ghost predicate SameVersion(c: Ctl, c': Ctl) {
    && c'.sp.name == c.sp.name && c'.sp.spec == c.sp.spec
    && c'.sp.status.current == c.sp.status.current && c'.sp.status.previous == c.sp.status.previous
  }

  ghost predicate StagedWell(p: string, d: string, version: nat, k: Kube, s: Staged) {
    && k.store.configMaps.Keys <= s.kube.store.configMaps.Keys
    && k.store.claims.Keys <= s.kube.store.claims.Keys
    && (!s.err ==> forall v | v in s.volumes :: VolumeAt(p, d, version, v) && Present(s.kube.store, v))
  }

  lemma MountClaimTraced(e: Env, k: Kube, a: Application, sp: SiddhiProcess, i: nat, n: nat)
    requires a.name == AppName(sp.name, i) && i < n && sp.status.current >= 0
    ensures Trace(sp.name, Rolling(n, sp.status.current), k, MountClaim(e, k, a, sp).kube)
    ensures StagedWell(sp.name, a.name, sp.status.current, k, MountClaim(e, k, a, sp))
  {
    var eff := PutClaim(ClaimName(a.name), sp.spec.pvc);
    ApplyTraced(e, Tick(k), sp.name, Rolling(n, sp.status.current), eff);
  }

  lemma MountRunnerConfigTraced(e: Env, k: Kube, a: Application, sp: SiddhiProcess, i: nat, n: nat)
    requires a.name == AppName(sp.name, i) && i < n && sp.status.current >= 0
    ensures Trace(sp.name, Rolling(n, sp.status.current), k, MountRunnerConfig(e, k, a, sp).kube)
    ensures StagedWell(sp.name, a.name, sp.status.current, k, MountRunnerConfig(e, k, a, sp))
  {
    var eff := PutConfig(RunnerConfigOf(a, sp), RunnerConfigData(a, sp));
    assert LegalConfig(sp.name, RunnerConfigOf(a, sp), n, sp.status.current);
    ApplyTraced(e, Tick(k), sp.name, Rolling(n, sp.status.current), eff);
  }

  lemma MountAppsTraced(e: Env, k: Kube, a: Application, sp: SiddhiProcess, i: nat, n: nat)
    requires a.name == AppName(sp.name, i) && i < n && sp.status.current >= 0
    ensures Trace(sp.name, Rolling(n, sp.status.current), k, MountApps(e, k, a, sp).kube)
    ensures StagedWell(sp.name, a.name, sp.status.current, k, MountApps(e, k, a, sp))
  {
    var eff := PutConfig(AppsConfigOf(a, sp), AppsData(a.apps));
    assert LegalConfig(sp.name, AppsConfigOf(a, sp), n, sp.status.current);
    ApplyTraced(e, Tick(k), sp.name, Rolling(n, sp.status.current), eff);
  }

  lemma StageTraced(e: Env, k: Kube, a: Application, sp: SiddhiProcess, i: nat, n: nat)
    requires a.name == AppName(sp.name, i) && i < n && sp.status.current >= 0
    ensures Trace(sp.name, Rolling(n, sp.status.current), k, Stage(e, k, a, sp).kube)
    ensures StagedWell(sp.name, a.name, sp.status.current, k, Stage(e, k, a, sp))
  {
    var p, pass := sp.name, Rolling(n, sp.status.current);
    MountClaimTraced(e, k, a, sp, i, n);
    var s1 := MountClaim(e, k, a, sp);
    if !s1.err {
      MountRunnerConfigTraced(e, s1.kube, a, sp, i, n);
      var s2 := MountRunnerConfig(e, s1.kube, a, sp);
      TraceTransitive(p, pass, k, s1.kube, s2.kube);
      if !s2.err {
        MountAppsTraced(e, s2.kube, a, sp, i, n);
        var s3 := MountApps(e, s2.kube, a, sp);
        TraceTransitive(p, pass, k, s2.kube, s3.kube);
        VolumesJoined(p, a.name, sp.status.current, s3.kube.store, s1.volumes, s2.volumes, s3.volumes);
      }
    }
  }

  lemma VolumesJoined(p: string, d: string, version: nat, s: Store, v1: seq<Volume>, v2: seq<Volume>, v3: seq<Volume>)
    requires forall v | v in v1 :: VolumeAt(p, d, version, v) && Present(s, v)
    requires forall v | v in v2 :: VolumeAt(p, d, version, v) && Present(s, v)
    requires forall v | v in v3 :: VolumeAt(p, d, version, v) && Present(s, v)
    ensures forall v | v in v1 + v2 + v3 :: VolumeAt(p, d, version, v) && Present(s, v)
  {
  }

  lemma DeployedTraced(e: Env, cfg: Config, k: Kube, a: Application, sp: SiddhiProcess, i: nat, n: nat)
    requires a.name == AppName(sp.name, i) && i < n && sp.status.current >= 0
    ensures Trace(sp.name, Rolling(n, sp.status.current), k, Deployed(e, cfg, k, a, sp).kube)
  {
    var pass := Rolling(n, sp.status.current);
    StageTraced(e, k, a, sp, i, n);
    var s := Stage(e, k, a, sp);
    if !s.err {
      var eff := PutDeployment(a.name, a.replicas, TemplateOf(cfg, a, sp, s.volumes));
      assert IsAppBelow(a.name, sp.name, 0, n);
      ApplyTraced(e, s.kube, sp.name, pass, eff);
      TraceTransitive(sp.name, pass, k, s.kube, Deployed(e, cfg, k, a, sp).kube);
    }
  }

  lemma PublishedTraced(e: Env, cfg: Config, c: Ctl, a: Application, i: nat, n: nat)
    requires a.name == AppName(c.sp.name, i) && i < n && c.sp.status.current >= 0
    ensures Trace(c.sp.name, Rolling(n, c.sp.status.current), c.kube, Published(e, cfg, c, a).kube)
    ensures SameVersion(c, Published(e, cfg, c, a))
  {
    ApplyTraced(e, c.kube, c.sp.name, Rolling(n, c.sp.status.current), PutIngress(cfg.tls, PathsOf(a.name, a.ports)));
  }

  lemma ExposeTraced(e: Env, cfg: Config, event: OperationResult, c: Ctl, a: Application, i: nat, n: nat)
    requires a.name == AppName(c.sp.name, i) && i < n && c.sp.status.current >= 0
    ensures Trace(c.sp.name, Rolling(n, c.sp.status.current), c.kube, ExposeApp(e, cfg, event, c, a).kube)
    ensures SameVersion(c, ExposeApp(e, cfg, event, c, a))
  {
    var p, pass := c.sp.name, Rolling(n, c.sp.status.current);
    assert IsAppBelow(a.name, p, 0, n);
    ApplyTraced(e, c.kube, p, pass, ServiceOf(a.name, a.ports));
    var r := CreateOrUpdate(e, c.kube, p, ServiceOf(a.name, a.ports));
    if !r.err {
      var c1 := ReportIf(e, c.(kube := r.kube), event, r.op);
      PublishedTraced(e, cfg, c1, a, i, n);
      TraceTransitive(p, pass, c.kube, c1.kube, Published(e, cfg, c1, a).kube);
    }
  }

  lemma RolledOutTraced(e: Env, cfg: Config, event: OperationResult, c: Ctl, a: Application, i: nat, n: nat)
    requires a.name == AppName(c.sp.name, i) && i < n && c.sp.status.current >= 0
    ensures Trace(c.sp.name, Rolling(n, c.sp.status.current), c.kube, RolledOut(e, cfg, event, c, a).kube)
    ensures SameVersion(c, RolledOut(e, cfg, event, c, a))
  {
    var p, pass := c.sp.name, Rolling(n, c.sp.status.current);
    DeployedTraced(e, cfg, c.kube, a, c.sp, i, n);
    var d := Deployed(e, cfg, c.kube, a, c.sp);
    if !d.err && a.serviceEnabled {
      var c1 := ReportIf(e, c.(kube := d.kube), event, d.op);
      ExposeTraced(e, cfg, event, c1, a, i, n);
      TraceTransitive(p, pass, c.kube, c1.kube, ExposeApp(e, cfg, event, c1, a).kube);
    }
  }

  lemma {:induction false} RolledOutUpToTraced(e: Env, cfg: Config, event: OperationResult, c: Ctl,
                                               apps: seq<Application>, n: nat)
    requires Named(c.sp.name, apps) && n <= |apps| && c.sp.status.current >= 0
    ensures Trace(c.sp.name, Rolling(|apps|, c.sp.status.current), c.kube,
                  RolledOutUpTo(e, cfg, event, c, apps, n).kube)
    ensures SameVersion(c, RolledOutUpTo(e, cfg, event, c, apps, n))
    decreases n
  {
    if n > 0 {
      RolledOutUpToTraced(e, cfg, event, c, apps, n - 1);
      RolledOutStepTraced(e, cfg, event, c, RolledOutUpTo(e, cfg, event, c, apps, n - 1), apps[n - 1], n - 1, |apps|);
    }
  }

  lemma RolledOutStepTraced(e: Env, cfg: Config, event: OperationResult, c: Ctl, q: Ctl, a: Application,
                            i: nat, n: nat)
    requires a.name == AppName(c.sp.name, i) && i < n && c.sp.status.current >= 0
    requires Trace(c.sp.name, Rolling(n, c.sp.status.current), c.kube, q.kube) && SameVersion(c, q)
    ensures var r := RolledOut(e, cfg, event, q, a);
            Trace(c.sp.name, Rolling(n, c.sp.status.current), c.kube, r.kube) && SameVersion(c, r)
  {
    RolledOutTraced(e, cfg, event, q, a, i, n);
    TraceTransitive(c.sp.name, Rolling(n, c.sp.status.current), c.kube, q.kube, RolledOut(e, cfg, event, q, a).kube);
  }

  lemma {:induction false} RescaledUpToTraced(e: Env, c: Ctl, apps: seq<Application>, n: nat, version: nat)
    requires Named(c.sp.name, apps) && n <= |apps|
    ensures Trace(c.sp.name, Rolling(|apps|, version), c.kube, RescaledUpTo(e, c, apps, n).kube)
    ensures SameVersion(c, RescaledUpTo(e, c, apps, n))
    decreases n
  {
    if n > 0 {
      RescaledUpToTraced(e, c, apps, n - 1, version);
      var c1, a := RescaledUpTo(e, c, apps, n - 1), apps[n - 1];
      assert IsAppBelow(a.name, c.sp.name, 0, |apps|);
      WriteTraced(e, Tick(c1.kube), c.sp.name, Rolling(|apps|, version), Scale(a.name, a.replicas), Updated);
      TraceTransitive(c.sp.name, Rolling(|apps|, version), c.kube, c1.kube, Rescaled(e, c1, a).kube);
    }
  }

  lemma ArtifactsCreatedTraced(e: Env, cfg: Config, c: Ctl, apps: seq<Application>)
    requires Named(c.sp.name, apps) && c.sp.status.current >= 0
    ensures Trace(c.sp.name, Rolling(|apps|, c.sp.status.current), c.kube, ArtifactsCreated(e, cfg, c, apps).kube)
    ensures ArtifactsCreated(e, cfg, c, apps).sp.name == c.sp.name
  {
    RolledOutUpToTraced(e, cfg, EventOf(c.sp.status), ReportPartialApps(e, c, apps), apps, |apps|);
  }

  /** `CreateArtifacts` followed by `CheckDeployments`. */
  lemma RolloutTraced(e: Env, cfg: Config, c: Ctl, apps: seq<Application>)
    requires Named(c.sp.name, apps) && c.sp.status.current >= 0
    ensures Trace(c.sp.name, Rolling(|apps|, c.sp.status.current), c.kube,
                  DeploymentsChecked(e, ArtifactsCreated(e, cfg, c, apps), apps).kube)
  {
    ArtifactsCreatedTraced(e, cfg, c, apps);
    var c1 := ArtifactsCreated(e, cfg, c, apps);
    RescaledUpToTraced(e, c1, apps, |apps|, c.sp.status.current);
    TraceTransitive(c.sp.name, Rolling(|apps|, c.sp.status.current), c.kube, c1.kube,
                    DeploymentsChecked(e, c1, apps).kube);
  }

  lemma AppStoppedTraced(e: Env, c: Ctl, i: nat, lo: nat, hi: nat, prev: nat)
    requires lo <= i < hi
    ensures Trace(c.sp.name, Cleaning(lo, hi, prev), c.kube, AppStopped(e, c, i).ctl.kube)
    ensures AppStopped(e, c, i).ctl.sp == c.sp
  {
    var p, n, pass := c.sp.name, AppName(c.sp.name, i), Cleaning(lo, hi, prev);
    assert IsAppBelow(n, p, lo, hi);
    DeleteTraced(e, c.kube, p, pass, DropDeployment(n));
    var d := Delete(e, c.kube, p, DropDeployment(n));
    if !d.err {
      var c1 := Report(e, c.(kube := d.kube));
      DeleteTraced(e, c1.kube, p, pass, DropService(n));
      TraceTransitive(p, pass, c.kube, c1.kube, Delete(e, c1.kube, p, DropService(n)).kube);
    }
  }

  lemma AppReleasedTraced(e: Env, c: Ctl, i: nat, lo: nat, hi: nat)
    requires lo <= i < hi && c.sp.status.previous >= 0
    ensures Trace(c.sp.name, Cleaning(lo, hi, c.sp.status.previous), c.kube, AppReleased(e, c, i).ctl.kube)
    ensures AppReleased(e, c, i).ctl.sp == c.sp
  {
    var p, n, pass := c.sp.name, AppName(c.sp.name, i), Cleaning(lo, hi, c.sp.status.previous);
    DeleteTraced(e, c.kube, p, pass, DropClaim(ClaimName(n)));
    var v := Delete(e, c.kube, p, DropClaim(ClaimName(n)));
    if !v.err {
      var eff := DropConfig(AppsConfigName(n, c.sp.status.previous));
      DeleteTraced(e, v.kube, p, pass, eff);
      TraceTransitive(p, pass, c.kube, v.kube, Delete(e, v.kube, p, eff).kube);
    }
  }

  lemma AppRemovedTraced(e: Env, c: Ctl, i: nat, lo: nat, hi: nat)
    requires lo <= i < hi && c.sp.status.previous >= 0
    ensures Trace(c.sp.name, Cleaning(lo, hi, c.sp.status.previous), c.kube, AppRemoved(e, c, i).ctl.kube)
    ensures AppRemoved(e, c, i).ctl.sp == c.sp
  {
    AppStoppedTraced(e, c, i, lo, hi, c.sp.status.previous);
    var r := AppStopped(e, c, i);
    if !r.err {
      AppReleasedTraced(e, r.ctl, i, lo, hi);
      TraceTransitive(c.sp.name, Cleaning(lo, hi, c.sp.status.previous), c.kube, r.ctl.kube,
                      AppReleased(e, r.ctl, i).ctl.kube);
    }
  }

  lemma {:induction false} RemovedUpToTraced(e: Env, c: Ctl, lo: nat, n: nat, hi: nat)
    requires n <= hi && c.sp.status.previous >= 0
    ensures Trace(c.sp.name, Cleaning(lo, hi, c.sp.status.previous), c.kube, RemovedUpTo(e, c, lo, n).ctl.kube)
    ensures RemovedUpTo(e, c, lo, n).ctl.sp == c.sp
    decreases n
  {
    if n > lo {
      RemovedUpToTraced(e, c, lo, n - 1, hi);
      var r := RemovedUpTo(e, c, lo, n - 1);
      if !r.err {
        AppRemovedTraced(e, r.ctl, n - 1, lo, hi);
        TraceTransitive(c.sp.name, Cleaning(lo, hi, c.sp.status.previous), c.kube, r.ctl.kube,
                        AppRemoved(e, r.ctl, n - 1).ctl.kube);
      }
    }
  }

  lemma ParserStageTraced(e: Env, k: Kube, sp: SiddhiProcess)
    ensures var s := Stage(e, k, ParserApp(sp.name), sp);
            && Trace(sp.name, Parsing, k, s.kube)
            && (!s.err ==> forall v | v in s.volumes ::
                              v == ConfigVolume(RunnerConfigName(sp.name)) && Present(s.kube.store, v))
  {
    var a := ParserApp(sp.name);
    ApplyTraced(e, Tick(k), sp.name, Parsing, PutConfig(RunnerConfigOf(a, sp), RunnerConfigData(a, sp)));
  }

  lemma ParserDeployedTraced(e: Env, cfg: Config, k: Kube, sp: SiddhiProcess)
    ensures Trace(sp.name, Parsing, k, ParserDeployed(e, cfg, k, sp))
  {
    var a, p := ParserApp(sp.name), sp.name;
    ParserStageTraced(e, k, sp);
    var s := Stage(e, k, a, sp);
    if !s.err {
      var d := Deployed(e, cfg, k, a, sp);
      ApplyTraced(e, s.kube, p, Parsing, PutDeployment(a.name, a.replicas, TemplateOf(cfg, a, sp, s.volumes)));
      TraceTransitive(p, Parsing, k, s.kube, d.kube);
      var eff := ServiceOf(ParserName(p), [PARSER_PORT]);
      ApplyTraced(e, d.kube, p, Parsing, eff);
      TraceTransitive(p, Parsing, k, d.kube, CreateOrUpdate(e, d.kube, p, eff).kube);
    }
  }

  lemma ProcessParsedTraced(e: Env, cfg: Config, k: Kube, sp: SiddhiProcess)
    ensures Trace(sp.name, Parsing, k, ProcessParsed(e, cfg, k, sp).kube)
    ensures ProcessParsed(e, cfg, k, sp).apps.Some? ==> Named(sp.name, ProcessParsed(e, cfg, k, sp).apps.value)
  {
    var p := sp.name;
    ParserDeployedTraced(e, cfg, k, sp);
    var k1 := ParserDeployed(e, cfg, k, sp);
    DeleteTraced(e, Tick(k1), p, Parsing, DropDeployment(ParserName(p)));
    var d := Delete(e, Tick(k1), p, DropDeployment(ParserName(p)));
    DeleteTraced(e, d.kube, p, Parsing, DropService(ParserName(p)));
    TraceTransitive(p, Parsing, k, Tick(k1), d.kube);
    TraceTransitive(p, Parsing, k, d.kube, Delete(e, d.kube, p, DropService(ParserName(p))).kube);
  }
}
