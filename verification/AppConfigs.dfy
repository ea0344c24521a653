/** How `Parse` turns the answer of the Siddhi parser into applications. */
module AppConfigs {
  import opened SiddhiTypes
  import opened Decimal
  import opened Names

  const HEALTH_PORT_NAME := "hport"
  const HEALTH_PORT := 9090

  /** Conversion of a Go `int` to `int32`. */
  function ToInt32(n: int): int {
    (n + 0x8000_0000) % 0x1_0000_0000 - 0x8000_0000
  }

  /** Entry `j` is the first one that listens on its port. */
  predicate FirstUse(cs: seq<DeploymentConfig>, j: nat)
    requires j < |cs|
  {
    !cs[j].isPulling && forall k :: 0 <= k < j && !cs[k].isPulling ==> cs[k].port != cs[j].port
  }

  /** The first uses among the first `n` entries, in order. */
  function FirstUses(cs: seq<DeploymentConfig>, n: nat): (ix: seq<nat>)
    requires n <= |cs|
    ensures forall k :: 0 <= k < |ix| ==> ix[k] < n
    decreases n
  {
    if n == 0 then []
    else FirstUses(cs, n - 1) + if FirstUse(cs, n - 1) then [n - 1] else []
  }

  function PortOf(c: DeploymentConfig): Port {
    Port("p" + Itoa(c.port), ToInt32(c.port), c.protocol)
  }

  function PortsUpTo(cs: seq<DeploymentConfig>, n: nat): seq<Port>
    requires n <= |cs|
  {
    var ix := FirstUses(cs, n);
    seq(|ix|, k requires 0 <= k < |ix| => PortOf(cs[ix[k]]))
  }

  function ServicePorts(cs: seq<DeploymentConfig>): seq<Port> {
    PortsUpTo(cs, |cs|)
  }

  /** The ports of a container: those of the application and the health port. */
  function WithHealthPort(ports: seq<Port>): seq<Port> {
    ports + [Port(HEALTH_PORT_NAME, HEALTH_PORT, "TCP")]
  }

  /** Application `i` of process `p`. */
  function ApplicationOf(p: string, i: nat, c: AppConfig, appName: string): Application {
    var ports := ServicePorts(c.deploymentConfigs);
    Application(AppName(p, i), ports, map[appName := c.siddhiApp], ports != [], c.persistenceEnabled, c.replicas)
  }

  /** The applications of the first `n` answers; `None` when one of them carries no name. */
  function ApplicationsUpTo(p: string, appNames: map<string, string>, cs: seq<AppConfig>, n: nat)
    : (r: Option<seq<Application>>)
    requires n <= |cs|
    ensures r.Some? <==> forall k :: 0 <= k < n ==> cs[k].siddhiApp in appNames
    ensures r.Some? ==> |r.value| == n
    ensures r.Some? ==> forall k :: 0 <= k < n ==> r.value[k].name == AppName(p, k)
    decreases n
  {
    if n == 0 then Some([])
    else
      match ApplicationsUpTo(p, appNames, cs, n - 1)
      case None => None
      case Some(xs) =>
        var c := cs[n - 1];
        if c.siddhiApp in appNames then
          var a := ApplicationOf(p, n - 1, c, appNames[c.siddhiApp]);
          assert forall k :: 0 <= k < n - 1 ==> (xs + [a])[k] == xs[k];
          Some(xs + [a])
        else None
  }

  function Applications(p: string, appNames: map<string, string>, cs: seq<AppConfig>): Option<seq<Application>> {
    ApplicationsUpTo(p, appNames, cs, |cs|)
  }

  /** `FirstUses` lists exactly the first uses and lists them in ascending order. */
  lemma {:induction false} FirstUsesExact(cs: seq<DeploymentConfig>, n: nat)
    requires n <= |cs|
    ensures var ix := FirstUses(cs, n);
            && (forall a, b :: 0 <= a < b < |ix| ==> ix[a] < ix[b])
            && (forall j: nat :: j in ix <==> j < n && FirstUse(cs, j))
    decreases n
  {
    if n > 0 {
      FirstUsesExact(cs, n - 1);
    }
  }

  /** Every port that some entry listens on has a first use. */
  lemma {:induction false} FirstUseExists(cs: seq<DeploymentConfig>, j: nat)
    requires j < |cs| && !cs[j].isPulling
    ensures exists k: nat :: k <= j && FirstUse(cs, k) && cs[k].port == cs[j].port
    decreases j
  {
    if FirstUse(cs, j) {
    } else {
      var k: nat :| k < j && !cs[k].isPulling && cs[k].port == cs[j].port;
      FirstUseExists(cs, k);
    }
  }

  /** A Go `int` as `int32`: the same number where it fits, and the same modulo two to the 32 anyway. */
  lemma ToInt32Exact(n: int)
    ensures -0x8000_0000 <= ToInt32(n) < 0x8000_0000 && (ToInt32(n) - n) % 0x1_0000_0000 == 0
    ensures -0x8000_0000 <= n < 0x8000_0000 ==> ToInt32(n) == n
  {
  }

  /** The port of an entry: name, number and protocol of the entry, as far as the number fits. */
  ghost predicate PortFrom(p: Port, c: DeploymentConfig) {
    && p.name == "p" + Itoa(c.port) && p.protocol == c.protocol
    && (-0x8000_0000 <= c.port < 0x8000_0000 ==> p.number == c.port)
    && -0x8000_0000 <= p.number < 0x8000_0000 && (p.number - c.port) % 0x1_0000_0000 == 0
  }

  lemma PortOfFrom(c: DeploymentConfig)
    ensures PortFrom(PortOf(c), c)
  {
    ToInt32Exact(c.port);
  }

  /** Some service port is that of entry `c`. */
  ghost predicate ServedAs(cs: seq<DeploymentConfig>, c: DeploymentConfig) {
    exists p :: p in ServicePorts(cs) && PortFrom(p, c)
  }

  lemma ServedAt(cs: seq<DeploymentConfig>, a: nat, c: DeploymentConfig)
    requires a < |ServicePorts(cs)| && PortFrom(ServicePorts(cs)[a], c)
    ensures ServedAs(cs, c)
  {
  }

  /** Every port that some entry listens on is served, with the protocol of its first entry. */
  lemma PortServed(cs: seq<DeploymentConfig>, j: nat)
    requires j < |cs| && !cs[j].isPulling
    ensures exists k: nat :: k <= j && FirstUse(cs, k) && cs[k].port == cs[j].port && ServedAs(cs, cs[k])
  {
    FirstUseExists(cs, j);
    var k: nat :| k <= j && FirstUse(cs, k) && cs[k].port == cs[j].port;
    FirstUsesExact(cs, |cs|);
    var ix := FirstUses(cs, |cs|);
    var a :| 0 <= a < |ix| && ix[a] == k;
    PortOfFrom(cs[k]);
    ServedAt(cs, a, cs[k]);
  }

  /** Every service port is the first use of an entry, and later ports come from later entries. */
  lemma PortOrigins(cs: seq<DeploymentConfig>, a: nat, b: nat) returns (j: nat, k: nat)
    requires a <= b < |ServicePorts(cs)|
    ensures j <= k < |cs| && (a < b ==> j < k)
    ensures FirstUse(cs, j) && ServicePorts(cs)[a] == PortOf(cs[j])
    ensures FirstUse(cs, k) && ServicePorts(cs)[b] == PortOf(cs[k])
  {
    FirstUsesExact(cs, |cs|);
    var ix := FirstUses(cs, |cs|);
    assert ix[a] in ix && ix[b] in ix;
    j, k := ix[a], ix[b];
  }

  /** Field by field: one port for each entry that is the first to listen on its port, in the order of the
      entries, with the name, number and protocol of that entry, and no other. */
  lemma PortsExact(cs: seq<DeploymentConfig>) returns (ix: seq<nat>)
    ensures |ix| == |ServicePorts(cs)| && forall a, b :: 0 <= a < b < |ix| ==> ix[a] < ix[b]
    ensures forall j: nat :: j in ix <==>
              j < |cs| && !cs[j].isPulling && forall k :: 0 <= k < j && !cs[k].isPulling ==> cs[k].port != cs[j].port
    ensures forall a :: 0 <= a < |ix| ==> ix[a] < |cs| && PortFrom(ServicePorts(cs)[a], cs[ix[a]])
  {
    FirstUsesExact(cs, |cs|);
    ix := FirstUses(cs, |cs|);
    forall a | 0 <= a < |ix| ensures ix[a] < |cs| && PortFrom(ServicePorts(cs)[a], cs[ix[a]]) {
      PortOfFrom(cs[ix[a]]);
      assert ServicePorts(cs)[a] == PortOf(cs[ix[a]]);
    }
  }

  /** Field by field: application `i` of an answer is made of entry `i`. */
  lemma AnswerExact(p: string, appNames: map<string, string>, cs: seq<AppConfig>)
    ensures Applications(p, appNames, cs).Some? <==> forall i :: 0 <= i < |cs| ==> cs[i].siddhiApp in appNames
    ensures Applications(p, appNames, cs).Some? ==>
              var apps := Applications(p, appNames, cs).value;
              && |apps| == |cs|
              && forall i :: 0 <= i < |cs| ==> BuiltFrom(apps[i], p, i, appNames, cs[i])
  {
    if forall i :: 0 <= i < |cs| ==> cs[i].siddhiApp in appNames {
      var _ := BuiltUpTo(p, appNames, cs);
    }
  }

  ghost predicate BuiltFrom(a: Application, p: string, i: nat, appNames: map<string, string>, c: AppConfig) {
    && a.name == p + "-" + Itoa(i)
    && c.siddhiApp in appNames && a.apps == map[appNames[c.siddhiApp] := c.siddhiApp]
    && a.persistenceEnabled == c.persistenceEnabled && a.replicas == c.replicas
    && a.ports == ServicePorts(c.deploymentConfigs)
    && (a.serviceEnabled <==>
        exists j :: 0 <= j < |c.deploymentConfigs| && !c.deploymentConfigs[j].isPulling)
  }

  ghost predicate AllBuilt(apps: seq<Application>, p: string, appNames: map<string, string>, cs: seq<AppConfig>) {
    |apps| <= |cs| && forall i :: 0 <= i < |apps| ==> BuiltFrom(apps[i], p, i, appNames, cs[i])
  }

  lemma AllBuiltNext(apps: seq<Application>, a: Application, p: string, appNames: map<string, string>,
                     cs: seq<AppConfig>)
    requires AllBuilt(apps, p, appNames, cs) && |apps| < |cs| && BuiltFrom(a, p, |apps|, appNames, cs[|apps|])
    ensures AllBuilt(apps + [a], p, appNames, cs)
  {
    forall i | 0 <= i <= |apps| ensures BuiltFrom((apps + [a])[i], p, i, appNames, cs[i]) {
    }
  }

  lemma BuiltUpTo(p: string, appNames: map<string, string>, cs: seq<AppConfig>) returns (apps: seq<Application>)
    requires forall i :: 0 <= i < |cs| ==> cs[i].siddhiApp in appNames
    ensures Applications(p, appNames, cs) == Some(apps) && |apps| == |cs| && AllBuilt(apps, p, appNames, cs)
  {
    apps := [];
    for n := 0 to |cs|
      invariant ApplicationsUpTo(p, appNames, cs, n) == Some(apps) && |apps| == n
      invariant AllBuilt(apps, p, appNames, cs)
    {
      var a := ApplicationOf(p, n, cs[n], appNames[cs[n].siddhiApp]);
      BuiltOne(p, n, appNames, cs[n]);
      AllBuiltNext(apps, a, p, appNames, cs);
      ApplicationsStep(p, appNames, cs, n, apps);
      apps := apps + [a];
    }
  }

  lemma BuiltOne(p: string, i: nat, appNames: map<string, string>, c: AppConfig)
    requires c.siddhiApp in appNames
    ensures BuiltFrom(ApplicationOf(p, i, c, appNames[c.siddhiApp]), p, i, appNames, c)
  {
    ServiceEnabledIff(c.deploymentConfigs);
  }

  /** A service is enabled exactly when some entry listens. */
  lemma ServiceEnabledIff(cs: seq<DeploymentConfig>)
    ensures ServicePorts(cs) != [] <==> exists j :: 0 <= j < |cs| && !cs[j].isPulling
  {
    if ServicePorts(cs) != [] {
      var j, _ := PortOrigins(cs, 0, 0);
    }
    if exists j :: 0 <= j < |cs| && !cs[j].isPulling {
      var j :| 0 <= j < |cs| && !cs[j].isPulling;
      PortServed(cs, j);
    }
  }

  lemma PortNameInjective(m: int, n: int)
    requires "p" + Itoa(m) == "p" + Itoa(n)
    ensures m == n
  {
    assert Itoa(m) == ("p" + Itoa(m))[1..] && Itoa(n) == ("p" + Itoa(n))[1..];
    ItoaInjective(m, n);
  }

  /** With the health port appended, no container port name repeats; the numbers of valid
      service ports do not repeat either. */
  lemma PortNamesDistinct(cs: seq<DeploymentConfig>, a: nat, b: nat)
    requires a < b <= |ServicePorts(cs)|
    ensures WithHealthPort(ServicePorts(cs))[a].name != WithHealthPort(ServicePorts(cs))[b].name
    ensures b < |ServicePorts(cs)| && (forall k :: 0 <= k < |cs| ==> 0 <= cs[k].port <= 0xFFFF) ==>
              ServicePorts(cs)[a].number != ServicePorts(cs)[b].number
  {
    if b < |ServicePorts(cs)| {
      var j, k := PortOrigins(cs, a, b);
      PortOfDistinct(cs[j], cs[k]);
    } else {
      var j, _ := PortOrigins(cs, a, a);
      assert PortOf(cs[j]).name[0] == 'p' && HEALTH_PORT_NAME[0] == 'h';
    }
  }

  lemma PortNumber(n: int)
    requires 0 <= n <= 0xFFFF
    ensures ToInt32(n) == n
  {
  }

  lemma PortOfDistinct(c: DeploymentConfig, d: DeploymentConfig)
    requires c.port != d.port
    ensures PortOf(c).name != PortOf(d).name
    ensures 0 <= c.port <= 0xFFFF && 0 <= d.port <= 0xFFFF ==> PortOf(c).number != PortOf(d).number
  {
    if PortOf(c).name == PortOf(d).name {
      PortNameInjective(c.port, d.port);
    }
    if 0 <= c.port <= 0xFFFF && 0 <= d.port <= 0xFFFF {
      PortNumber(c.port);
      PortNumber(d.port);
    }
  }

  /** `ContainsInt`. */
  method ContainsInt(slice: seq<int>, value: int) returns (contain: bool)
    ensures contain == (value in slice)
  {
    for i := 0 to |slice|
      invariant value !in slice[..i]
    {
      if slice[i] == value {
        return true;
      }
    }
    assert slice[..|slice|] == slice;
    return false;
  }

  /** `portList` holds the ports of the first `n` entries that listen. */
  ghost predicate Collected(cs: seq<DeploymentConfig>, n: nat, portList: seq<int>)
    requires n <= |cs|
  {
    forall p :: p in portList <==> exists k :: 0 <= k < n && !cs[k].isPulling && cs[k].port == p
  }

  lemma CollectedStep(cs: seq<DeploymentConfig>, n: nat, portList: seq<int>)
    requires n < |cs| && Collected(cs, n, portList)
    ensures FirstUse(cs, n) <==> !cs[n].isPulling && cs[n].port !in portList
    ensures Collected(cs, n + 1, if FirstUse(cs, n) then portList + [cs[n].port] else portList)
  {
  }

  lemma PortsStep(cs: seq<DeploymentConfig>, n: nat)
    requires n < |cs|
    ensures PortsUpTo(cs, n + 1) == PortsUpTo(cs, n) + if FirstUse(cs, n) then [PortOf(cs[n])] else []
  {
  }

  /** Inner loop of `Parse`. */
  method CollectPorts(cs: seq<DeploymentConfig>) returns (ports: seq<Port>, serviceEnabled: bool)
    ensures ports == ServicePorts(cs)
    ensures serviceEnabled == (ports != [])
  {
    ports, serviceEnabled := [], false;
    var portList: seq<int> := [];
    for j := 0 to |cs|
      invariant ports == PortsUpTo(cs, j)
      invariant serviceEnabled == (ports != [])
      invariant Collected(cs, j, portList)
    {
      CollectedStep(cs, j, portList);
      PortsStep(cs, j);
      var contained := ContainsInt(portList, cs[j].port);
      if !cs[j].isPulling && !contained {
        serviceEnabled := true;
        ports := ports + [Port("p" + Itoa(cs[j].port), ToInt32(cs[j].port), cs[j].protocol)];
        portList := portList + [cs[j].port];
      }
    }
    if |ports| > 0 {
      serviceEnabled := true;
    }
  }

  /** Body of the outer loop of `Parse`. */
  method BuildApplication(p: string, i: nat, c: AppConfig, appName: string) returns (a: Application)
    ensures a == ApplicationOf(p, i, c, appName)
  {
    var deploymentName := p + "-" + Itoa(i);
    var ports, serviceEnabled := CollectPorts(c.deploymentConfigs);
    var siddhiApps := map[appName := c.siddhiApp];
    a := Application(deploymentName, ports, siddhiApps, serviceEnabled, c.persistenceEnabled, c.replicas);
  }

  lemma Unnamed(p: string, appNames: map<string, string>, cs: seq<AppConfig>, i: nat)
    requires i < |cs| && cs[i].siddhiApp !in appNames
    ensures Applications(p, appNames, cs).None?
  {
  }

  lemma ApplicationsStep(p: string, appNames: map<string, string>, cs: seq<AppConfig>, i: nat, xs: seq<Application>)
    requires i < |cs| && cs[i].siddhiApp in appNames && ApplicationsUpTo(p, appNames, cs, i) == Some(xs)
    ensures ApplicationsUpTo(p, appNames, cs, i + 1)
            == Some(xs + [ApplicationOf(p, i, cs[i], appNames[cs[i].siddhiApp])])
  {
  }

  /** Outer loop of `Parse`: stops at the first Siddhi application without a name. */
  method BuildApplications(p: string, appNames: map<string, string>, cs: seq<AppConfig>)
    returns (applications: seq<Application>, err: bool)
    ensures err == Applications(p, appNames, cs).None?
    ensures !err ==> applications == Applications(p, appNames, cs).value
  {
    applications, err := [], false;
    for i := 0 to |cs|
      invariant ApplicationsUpTo(p, appNames, cs, i) == Some(applications)
    {
      if cs[i].siddhiApp !in appNames {
        Unnamed(p, appNames, cs, i);
        return applications, true;
      }
      var a := BuildApplication(p, i, cs[i], appNames[cs[i].siddhiApp]);
      ApplicationsStep(p, appNames, cs, i, applications);
      applications := applications + [a];
    }
  }
}
