/** The SiddhiProcess custom resource and the applications derived from it. */
module SiddhiTypes {

  datatype Option<+T> = None | Some(value: T)

  /** An entry of `spec.apps`; an absent part is the empty string. */
  datatype AppRef = AppRef(configMap: string, script: string)

  datatype EnvVar = EnvVar(name: string, value: string)

  datatype Container = Container(image: string, env: seq<EnvVar>)

  datatype Messaging = Messaging(typ: string, clusterId: string, servers: seq<string>)

  /** A nil map or slice is `None`; it differs from an empty one. */
  datatype Resources = Resources(limits: Option<map<string, int>>, requests: Option<map<string, int>>)

  datatype ClaimSpec = ClaimSpec(
    volumeMode: Option<string>,
    storageClass: Option<string>,
    resources: Resources,
    accessModes: Option<seq<string>>,
    volumeName: string)

  const EMPTY_CLAIM := ClaimSpec(None, None, Resources(None, None), None, "")

  datatype Spec = Spec(
    apps: seq<AppRef>,
    siddhiConfig: string,
    container: Container,
    messaging: Messaging,
    pvc: ClaimSpec,
    imagePullSecret: string)

  datatype Phase = Unset | Pending | Ready | Failed | NotReady

  datatype EventType = NoEvent | UpdateEvent | TimerEvent

  datatype PartialApp = PartialApp(deploymentName: string, apps: set<string>)

  datatype Status = Status(
    phase: Phase,
    ready: string,
    current: int,
    previous: int,
    eventType: EventType,
    partialApps: seq<PartialApp>)

  datatype SiddhiProcess = SiddhiProcess(name: string, spec: Spec, status: Status)

  datatype Port = Port(name: string, number: int, protocol: string)

  /** One runner deployment that the operator has to provide. */
  datatype Application = Application(
    name: string,
    ports: seq<Port>,
    apps: map<string, string>,
    serviceEnabled: bool,
    persistenceEnabled: bool,
    replicas: int)

  /** Answer of the Siddhi parser for one partial application. */
  datatype DeploymentConfig = DeploymentConfig(protocol: string, secured: bool, port: int, isPulling: bool)

  datatype AppConfig = AppConfig(
    siddhiApp: string,
    deploymentConfigs: seq<DeploymentConfig>,
    persistenceEnabled: bool,
    replicas: int)
}
