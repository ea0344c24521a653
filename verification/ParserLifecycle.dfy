/** The temporary parser deployment: started, asked once, and removed again. */
module ParserLifecycle {
  import opened SiddhiTypes
  import opened Names
  import opened AppConfigs
  import opened Cluster
  import opened Deployments

  const PARSER_PORT := Port("parser", 9090, "TCP")

  function ParserApp(p: string): Application {
    Application(ParserName(p), [PARSER_PORT], map[], true, false, 1)
  }

  /** `deploy` of the parser: deployment, then service. */
  function ParserDeployed(e: Env, cfg: Config, k: Kube, sp: SiddhiProcess): Kube {
    var d := Deployed(e, cfg, k, ParserApp(sp.name), sp);
    if d.err then d.kube
    else CreateOrUpdate(e, d.kube, sp.name, ServiceOf(ParserName(sp.name), [PARSER_PORT])).kube
  }

  /** `cleanParser`. */
  function ParserCleaned(e: Env, k: Kube, p: string): Result {
    var d := Delete(e, k, p, DropDeployment(ParserName(p)));
    if d.err then d else Delete(e, d.kube, p, DropService(ParserName(p)))
  }

  datatype Parsed = Parsed(kube: Kube, apps: Option<seq<Application>>)

  /** `Parse`: an error while the parser is deployed goes unnoticed; every later one leaves the
      parser behind. */
  function ProcessParsed(e: Env, cfg: Config, k: Kube, sp: SiddhiProcess): Parsed {
    var k1 := ParserDeployed(e, cfg, k, sp);
    if k1.calls !in e.replies then Parsed(Tick(k1), None)
    else
      var apps := Applications(sp.name, e.appNames, e.replies[k1.calls]);
      if apps.None? then Parsed(Tick(k1), None)
      else
        var r := ParserCleaned(e, Tick(k1), sp.name);
        if r.err then Parsed(r.kube, None) else Parsed(r.kube, apps)
  }

  /** The parser of one process. */
  class Parser {
    const client: KubeClient
    const config: Config
    const process: SiddhiProcess

    constructor (client: KubeClient, config: Config, process: SiddhiProcess)
      ensures this.client == client && this.config == config && this.process == process
    {
      this.client, this.config, this.process := client, config, process;
    }

    method Deploy() returns (err: bool)
      modifies client
      ensures client.kube == ParserDeployed(client.env, config, old(client.kube), process)
      ensures var d := Deployed(client.env, config, old(client.kube), ParserApp(process.name), process);
              var service := ServiceOf(ParserName(process.name), [PARSER_PORT]);
              err == (d.err || CreateOrUpdate(client.env, d.kube, process.name, service).err)
    {
      var generatedParserName := process.name + PARSER_EXTENSION;
      var application := Application(generatedParserName, [PARSER_PORT], map[], true, false, 1);
      var deployManager := new DeployManager(application, client, config, process);
      var op;
      op, err := deployManager.Deploy();
      if err {
        return;
      }
      op, err := client.Apply(process.name, ServiceOf(generatedParserName, [PARSER_PORT]));
    }

    method CleanParser() returns (err: bool)
      modifies client
      ensures client.kube == ParserCleaned(client.env, old(client.kube), process.name).kube
      ensures err == ParserCleaned(client.env, old(client.kube), process.name).err
    {
      var parserName := process.name + PARSER_EXTENSION;
      err := client.DeleteIfPresent(process.name, DropDeployment(parserName));
      if err {
        return;
      }
      err := client.DeleteIfPresent(process.name, DropService(parserName));
    }

    /** The error of the deployment is overwritten by that of the request to the parser. */
    method Parse() returns (applications: seq<Application>, err: bool)
      modifies client
      ensures var r := ProcessParsed(client.env, config, old(client.kube), process);
              client.kube == r.kube && err == r.apps.None? && (!err ==> applications == r.apps.value)
    {
      applications := [];
      err := Deploy();
      var call := client.kube.calls;
      client.CountCall();
      if call !in client.env.replies {
        return [], true;
      }
      applications, err := BuildApplications(process.name, client.env.appNames, client.env.replies[call]);
      if err {
        return;
      }
      err := CleanParser();
    }
  }
}
