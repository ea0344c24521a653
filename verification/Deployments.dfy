/** Deployment of one application: its volumes first, then the deployment that mounts them. */
module Deployments {
  import opened SiddhiTypes
  import opened SpecEquality
  import opened Decimal
  import opened Names
  import opened AppConfigs
  import opened Cluster

  const SIDDHI_EXTENSION := ".siddhi"
  const STATE_PERSISTENCE_CONF :=
    "\nstatePersistence:\n  enabled: true\n  intervalInMin: 1\n  revisionsToKeep: 2\n"
    + "  persistenceStore: io.siddhi.distribution.core.persistence.FileSystemPersistenceStore\n"
    + "  config:\n    location: siddhi-app-persistence\n"

  /** Settings of the operator config map that reach the artifacts, and whether the NATS
      operators are installed. */
  datatype Config = Config(image: string, pullSecret: string, autoIngress: bool, tls: string, natsInstalled: bool)

  function Image(cfg: Config, spec: Spec): string {
    if spec.container.image != "" then spec.container.image else cfg.image
  }

  function PullSecret(cfg: Config, spec: Spec): string {
    if spec.imagePullSecret != "" then spec.imagePullSecret else cfg.pullSecret
  }

  /** Outcome of one step of `Deploy` that prepares volumes. */
  datatype Staged = Staged(kube: Kube, err: bool, volumes: seq<Volume>)

  predicate NeedsClaim(a: Application, spec: Spec) {
    a.persistenceEnabled && !EqualClaims(spec.pvc, EMPTY_CLAIM)
  }

  function MountClaim(e: Env, k: Kube, a: Application, sp: SiddhiProcess): Staged {
    if !NeedsClaim(a, sp.spec) then Staged(k, false, [])
    else
      var r := CreateOrUpdatePVC(e, k, ClaimName(a.name), sp.spec.pvc, sp.name);
      if r.err || sp.spec.siddhiConfig in e.badYaml then Staged(r.kube, true, [])
      else Staged(r.kube, false, [ClaimVolume(ClaimName(a.name))])
  }

  predicate NeedsRunnerConfig(a: Application, spec: Spec) {
    a.persistenceEnabled || spec.siddhiConfig != ""
  }

  /** A stateful application has a runner configuration of its own; the others share one. */
  function RunnerConfigOf(a: Application, sp: SiddhiProcess): string {
    RunnerConfigName(if a.persistenceEnabled then a.name else sp.name)
  }

  function RunnerConfigData(a: Application, sp: SiddhiProcess): map<string, string> {
    map[RunnerConfigOf(a, sp) := if sp.spec.siddhiConfig != "" then sp.spec.siddhiConfig else STATE_PERSISTENCE_CONF]
  }

  function MountRunnerConfig(e: Env, k: Kube, a: Application, sp: SiddhiProcess): Staged {
    if !NeedsRunnerConfig(a, sp.spec) then Staged(k, false, [])
    else
      var r := CreateOrUpdateCM(e, k, RunnerConfigOf(a, sp), RunnerConfigData(a, sp), sp.name);
      if r.err then Staged(r.kube, true, []) else Staged(r.kube, false, [ConfigVolume(RunnerConfigOf(a, sp))])
  }

  /** The Siddhi files of an application, one per Siddhi app. */
  function AppsData(apps: map<string, string>): map<string, string> {
    assert forall k, k' :: k + SIDDHI_EXTENSION == k' + SIDDHI_EXTENSION ==> k == k' by {
      forall k, k' | k + SIDDHI_EXTENSION == k' + SIDDHI_EXTENSION ensures k == k' {
        SuffixUnique(k, k', SIDDHI_EXTENSION);
      }
    }
    map k | k in apps :: k + SIDDHI_EXTENSION := apps[k]
  }

  function AppsConfigOf(a: Application, sp: SiddhiProcess): string {
    AppsConfigName(a.name, sp.status.current)
  }

  function MountApps(e: Env, k: Kube, a: Application, sp: SiddhiProcess): Staged {
    if a.apps == map[] then Staged(k, false, [])
    else
      var r := CreateOrUpdateCM(e, k, AppsConfigOf(a, sp), AppsData(a.apps), sp.name);
      if r.err then Staged(r.kube, true, []) else Staged(r.kube, false, [ConfigVolume(AppsConfigOf(a, sp))])
  }

  /** All three volume steps, stopping at the first that fails. */
  function Stage(e: Env, k: Kube, a: Application, sp: SiddhiProcess): Staged {
    var s1 := MountClaim(e, k, a, sp);
    if s1.err then s1
    else
      var s2 := MountRunnerConfig(e, s1.kube, a, sp);
      if s2.err then s2
      else
        var s3 := MountApps(e, s2.kube, a, sp);
        if s3.err then s3 else s3.(volumes := s1.volumes + s2.volumes + s3.volumes)
  }

  function TemplateOf(cfg: Config, a: Application, sp: SiddhiProcess, volumes: seq<Volume>): Template {
    Template(Image(cfg, sp.spec), WithHealthPort(a.ports), sp.spec.container.env, PullSecret(cfg, sp.spec), volumes)
  }

  /** `Deploy` passes on an error of the volume steps and drops one of the deployment itself. */
  function Deployed(e: Env, cfg: Config, k: Kube, a: Application, sp: SiddhiProcess): Result {
    var s := Stage(e, k, a, sp);
    if s.err then Result(s.kube, Unchanged, true)
    else
      CreateOrUpdate(e, s.kube, sp.name,
                     PutDeployment(a.name, a.replicas, TemplateOf(cfg, a, sp, s.volumes))).(err := false)
  }

  /** A service takes over name and number of every container port, and no protocol. */
  function ServiceOf(name: string, ports: seq<Port>): Effect {
    PutService(name, name, seq(|ports|, i requires 0 <= i < |ports| => ports[i].(protocol := "")))
  }

  /** Name and owner of the deployment as labels; the instance label selects its pods. */
  class DeployManager {
    const application: Application
    const client: KubeClient
    const config: Config
    const process: SiddhiProcess
    var instanceLabel: string

    constructor (application: Application, client: KubeClient, config: Config, process: SiddhiProcess)
      ensures this.application == application && this.client == client
      ensures this.config == config && this.process == process
    {
      this.application, this.client, this.config, this.process := application, client, config, process;
      instanceLabel := "";
    }

    method CreateLabels()
      modifies this
      ensures instanceLabel == application.name
    {
      instanceLabel := application.name;
    }

    method PrepareClaim() returns (err: bool, volumes: seq<Volume>)
      modifies client
      ensures var s := MountClaim(client.env, old(client.kube), application, process);
              client.kube == s.kube && err == s.err && (!err ==> volumes == s.volumes)
    {
      err, volumes := false, [];
      if application.persistenceEnabled {
        if !EqualClaims(process.spec.pvc, EMPTY_CLAIM) {
          var pvcName := application.name + PVC_EXTENSION;
          err := client.ApplyClaim(pvcName, process.spec.pvc, process.name);
          if err {
            return;
          }
          if process.spec.siddhiConfig in client.env.badYaml {
            return true, [];
          }
          volumes := [ClaimVolume(pvcName)];
        }
      }
    }

    method PrepareRunnerConfig() returns (err: bool, volumes: seq<Volume>)
      modifies client
      ensures var s := MountRunnerConfig(client.env, old(client.kube), application, process);
              client.kube == s.kube && err == s.err && (!err ==> volumes == s.volumes)
    {
      err, volumes := false, [];
      if application.persistenceEnabled {
        var deployYamlName := application.name + DEP_CM_EXTENSION;
        var siddhiConfig := STATE_PERSISTENCE_CONF;
        if process.spec.siddhiConfig != "" {
          siddhiConfig := process.spec.siddhiConfig;
        }
        err := client.ApplyConfig(deployYamlName, map[deployYamlName := siddhiConfig], process.name);
        volumes := [ConfigVolume(deployYamlName)];
      } else if process.spec.siddhiConfig != "" {
        var deployYamlName := process.name + DEP_CM_EXTENSION;
        err := client.ApplyConfig(deployYamlName, map[deployYamlName := process.spec.siddhiConfig], process.name);
        volumes := [ConfigVolume(deployYamlName)];
      }
    }

    method PrepareApps() returns (err: bool, volumes: seq<Volume>)
      modifies client
      ensures var s := MountApps(client.env, old(client.kube), application, process);
              client.kube == s.kube && err == s.err && (!err ==> volumes == s.volumes)
    {
      err, volumes := false, [];
      if application.apps.Keys != {} {
        var appsName := application.name + Itoa(process.status.current);
        err := client.ApplyConfig(appsName, AppsData(application.apps), process.name);
        volumes := [ConfigVolume(appsName)];
      }
    }

    /** Volumes in the order of their creation, then the deployment, whose error is dropped. */
    method Deploy() returns (op: OperationResult, err: bool)
      modifies this, client
      ensures Result(client.kube, op, err) == Deployed(client.env, config, old(client.kube), application, process)
      ensures instanceLabel == application.name
    {
      op := Unchanged;
      CreateLabels();
      var volumes, more;
      err, volumes := PrepareClaim();
      if err {
        return;
      }
      err, more := PrepareRunnerConfig();
      if err {
        return;
      }
      volumes := volumes + more;
      err, more := PrepareApps();
      if err {
        return;
      }
      volumes := volumes + more;
      op, err := client.Apply(process.name,
        PutDeployment(application.name, application.replicas, TemplateOf(config, application, process, volumes)));
      err := false;
    }
  }
}
