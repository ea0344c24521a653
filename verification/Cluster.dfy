/** The objects in the watched namespace, the effects that client calls have on them, and the
    client calls themselves, any of which may fail. */
module Cluster {
  import opened SiddhiTypes
  import opened Ingress

  datatype Volume = ConfigVolume(name: string) | ClaimVolume(name: string)

  datatype Template = Template(
    image: string,
    ports: seq<Port>,
    env: seq<EnvVar>,
    pullSecret: string,
    volumes: seq<Volume>)

  /** `owner` is the SiddhiProcess in the controller reference of an object. */
  datatype Deployment = Deployment(owner: string, replicas: int, available: int, template: Template)

  datatype Service = Service(owner: string, selector: string, ports: seq<Port>)

  datatype ConfigMap = ConfigMap(owner: string, data: map<string, string>)

  datatype Claim = Claim(owner: string, spec: ClaimSpec)

  datatype Store = Store(
    deployments: map<string, Deployment>,
    services: map<string, Service>,
    configMaps: map<string, ConfigMap>,
    claims: map<string, Claim>,
    ingress: Option<Ingress>)

  /** What a single write request asks of the API server. */
  datatype Effect =
    | PutConfig(name: string, data: map<string, string>)
    | PutClaim(name: string, spec: ClaimSpec)
    | PutDeployment(name: string, replicas: int, template: Template)
    | PutService(name: string, selector: string, ports: seq<Port>)
    | PutIngress(tls: string, paths: seq<IngressPath>)
    | Scale(name: string, replicas: int)
    | DropDeployment(name: string)
    | DropService(name: string)
    | DropClaim(name: string)
    | DropConfig(name: string)

  predicate Exists(s: Store, eff: Effect) {
    match eff
    case PutConfig(n, _) => n in s.configMaps
    case PutClaim(n, _) => n in s.claims
    case PutDeployment(n, _, _) => n in s.deployments
    case PutService(n, _, _) => n in s.services
    case PutIngress(_, _) => s.ingress.Some?
    case Scale(n, _) => n in s.deployments
    case DropDeployment(n) => n in s.deployments
    case DropService(n) => n in s.services
    case DropClaim(n) => n in s.claims
    case DropConfig(n) => n in s.configMaps
  }

  /** A new object is created with owner `owner`; an existing one keeps its owner and whatever the
      mutate function of its kind does not overwrite. */
  function Perform(s: Store, owner: string, eff: Effect): Store {
    match eff
    case PutConfig(n, data) =>
      s.(configMaps := s.configMaps[n := if n in s.configMaps then s.configMaps[n].(data := data)
                                         else ConfigMap(owner, data)])
    case PutClaim(n, spec) =>
      s.(claims := s.claims[n := if n in s.claims then s.claims[n].(spec := spec) else Claim(owner, spec)])
    case PutDeployment(n, r, t) =>
      s.(deployments := s.deployments[n :=
        if n in s.deployments then s.deployments[n].(template := t) else Deployment(owner, r, 0, t)])
    case PutService(n, sel, ports) =>
      s.(services := s.services[n :=
        if n in s.services then s.services[n].(selector := sel, ports := ports) else Service(owner, sel, ports)])
    case PutIngress(tls, paths) => s.(ingress := Some(CreateOrMerge(s.ingress, tls, paths)))
    case Scale(n, r) =>
      if n in s.deployments then s.(deployments := s.deployments[n := s.deployments[n].(replicas := r)]) else s
    case DropDeployment(n) => s.(deployments := s.deployments - {n})
    case DropService(n) => s.(services := s.services - {n})
    case DropClaim(n) => s.(claims := s.claims - {n})
    case DropConfig(n) => s.(configMaps := s.configMaps - {n})
  }

  /** Deleting a process removes every object that it owns. */
  function CollectGarbage(s: Store, p: string): Store {
    s.(deployments := map n | n in s.deployments && s.deployments[n].owner != p :: s.deployments[n],
       services := map n | n in s.services && s.services[n].owner != p :: s.services[n],
       configMaps := map n | n in s.configMaps && s.configMaps[n].owner != p :: s.configMaps[n],
       claims := map n | n in s.claims && s.claims[n].owner != p :: s.claims[n])
  }

  /** The custom resources, the other objects, every state the other objects have been in before
      the present one, the number of client calls made so far, and the number of status updates
      that have been stored. */
  datatype Kube = Kube(crs: map<string, SiddhiProcess>, store: Store, past: seq<Store>, calls: nat, stored: nat)

  /** No custom resource has been written between `k` and `k'`. */
  predicate SameRecords(k: Kube, k': Kube) {
    k'.crs == k.crs && k'.stored == k.stored
  }

  /** Every state of the objects so far, the present one last. */
  function History(k: Kube): seq<Store> {
    k.past + [k.store]
  }

  /** What the operator does not control.  Calls are numbered over the whole run, and each set
      holds the numbers of the calls of one kind that fail:
      `failedLookups` the Get at the head of a Delete helper, `failedReads` every other Get,
      `failedSyncs` the status update in SyncVersion, `failedUpgrades` the one in UpgradeVersion,
      `failedStatus` every other status update, `failedWrites` every other write.
      `replies` are the answers of the Siddhi parser, `appNames` the names found in Siddhi
      applications, and `badYaml` the runner configurations that are not YAML. */
  datatype Env = Env(
    failedReads: set<nat>,
    failedLookups: set<nat>,
    failedWrites: set<nat>,
    failedStatus: set<nat>,
    failedSyncs: set<nat>,
    failedUpgrades: set<nat>,
    replies: map<nat, seq<AppConfig>>,
    appNames: map<string, string>,
    badYaml: set<string>)

  /** Every call succeeds; the answers of the Siddhi parser are still arbitrary. */
  ghost predicate NoFaults(e: Env) {
    && e.failedReads == {} && e.failedLookups == {} && e.failedWrites == {}
    && e.failedStatus == {} && e.failedSyncs == {} && e.failedUpgrades == {}
  }

  datatype OperationResult = Unchanged | Created | Updated

  datatype Result = Result(kube: Kube, op: OperationResult, err: bool)

  function Tick(k: Kube): Kube {
    k.(calls := k.calls + 1)
  }

  function Write(e: Env, k: Kube, owner: string, eff: Effect, op: OperationResult): Result {
    if k.calls in e.failedWrites then Result(Tick(k), Unchanged, true)
    else Result(Tick(k).(store := Perform(k.store, owner, eff), past := History(k)), op, false)
  }

  /** `controllerutil.CreateOrUpdate`: an update that would change nothing is not sent. */
  function CreateOrUpdate(e: Env, k: Kube, owner: string, eff: Effect): Result {
    if k.calls in e.failedReads then Result(Tick(k), Unchanged, true)
    else if !Exists(k.store, eff) then Write(e, Tick(k), owner, eff, Created)
    else if Perform(k.store, owner, eff) == k.store then Result(Tick(k), Unchanged, false)
    else Write(e, Tick(k), owner, eff, Updated)
  }

  /** The Delete helpers take any failed Get for "not there" and report success. */
  function Delete(e: Env, k: Kube, owner: string, eff: Effect): Result {
    if k.calls in e.failedLookups || !Exists(k.store, eff) then Result(Tick(k), Unchanged, false)
    else Write(e, Tick(k), owner, eff, Updated)
  }

  /** `CreateOrUpdateCM` looks the map up once more and ignores the answer. */
  function CreateOrUpdateCM(e: Env, k: Kube, name: string, data: map<string, string>, owner: string): Result {
    CreateOrUpdate(e, Tick(k), owner, PutConfig(name, data))
  }

  predicate AccessGranted(spec: ClaimSpec) {
    spec.accessModes.None? || "ReadWriteOnce" in spec.accessModes.value || "ReadWriteMany" in spec.accessModes.value
  }

  /** An existing claim is left as it is. */
  function CreateOrUpdatePVC(e: Env, k: Kube, name: string, spec: ClaimSpec, owner: string): Result {
    if k.calls in e.failedReads then Result(Tick(k), Unchanged, true)
    else if name in k.store.claims then Result(Tick(k), Unchanged, false)
    else if !AccessGranted(spec) then Result(Tick(k), Unchanged, true)
    else CreateOrUpdate(e, Tick(k), owner, PutClaim(name, spec))
  }

  /** A Delete helper reports success and leaves the object behind exactly when its lookup failed. */
  lemma DeleteMissesIff(e: Env, k: Kube, owner: string, eff: Effect)
    requires eff.DropDeployment? || eff.DropService? || eff.DropClaim? || eff.DropConfig?
    ensures var r := Delete(e, k, owner, eff);
            !r.err && Exists(r.kube.store, eff) <==> Exists(k.store, eff) && k.calls in e.failedLookups
  {
  }

  /** What the report of a call means: without an error the object is as asked for, "created" says that it was not
      there before, "updated" that it was there and different, and "unchanged" that nothing has been written. */
  lemma ApplyMeans(e: Env, k: Kube, owner: string, eff: Effect)
    ensures var r, t := CreateOrUpdate(e, k, owner, eff), Perform(k.store, owner, eff);
            && (!r.err ==> r.kube.store == t)
            && (!r.err ==> (r.op == Created <==> !Exists(k.store, eff))
                           && (r.op == Updated <==> Exists(k.store, eff) && t != k.store))
            && (r.err || r.op == Unchanged <==> History(r.kube) == History(k))
            && (r.err ==> r.op == Unchanged && r.kube.store == k.store)
            && (r.err <==> k.calls in e.failedReads
                           || (!(Exists(k.store, eff) && t == k.store) && k.calls + 1 in e.failedWrites))
  {
  }

  /** A claim that is there is left alone; a new one is refused when access modes are asked for and none of them
      permits writing. */
  lemma ClaimMeans(e: Env, k: Kube, name: string, spec: ClaimSpec, owner: string)
    requires k.calls !in e.failedReads && k.calls + 1 !in e.failedReads && k.calls + 2 !in e.failedWrites
    ensures var r, modes := CreateOrUpdatePVC(e, k, name, spec, owner), spec.accessModes;
            && (r.err <==> name !in k.store.claims && modes.Some?
                           && forall m | m in modes.value :: m != "ReadWriteOnce" && m != "ReadWriteMany")
            && r.kube.store ==
               (if r.err || name in k.store.claims then k.store
                else k.store.(claims := k.store.claims[name := Claim(owner, spec)]))
  {
  }

  /** The client side of the API server. */
  class KubeClient {
    const env: Env
    var kube: Kube

    constructor (env: Env, kube: Kube)
      ensures this.env == env && this.kube == kube
    {
      this.env := env;
      this.kube := kube;
    }

    /** A call that this model answers elsewhere. */
    method CountCall()
      modifies this
      ensures kube == Tick(old(kube))
    {
      kube := kube.(calls := kube.calls + 1);
    }

    /** A Get of anything; `found` is what the server would answer. */
    method Get(found: bool) returns (ok: bool, notFound: bool)
      modifies this
      ensures kube == Tick(old(kube))
      ensures ok == (old(kube).calls !in env.failedReads && found)
      ensures notFound == (old(kube).calls !in env.failedReads && !found)
    {
      var reached := kube.calls !in env.failedReads;
      kube := kube.(calls := kube.calls + 1);
      ok, notFound := reached && found, reached && !found;
    }

    method Commit(owner: string, eff: Effect) returns (err: bool)
      modifies this
      ensures kube == Write(env, old(kube), owner, eff, Updated).kube
      ensures kube == Write(env, old(kube), owner, eff, Created).kube
      ensures err == (old(kube).calls in env.failedWrites)
    {
      err := kube.calls in env.failedWrites;
      kube := kube.(calls := kube.calls + 1);
      if !err {
        kube := kube.(past := kube.past + [kube.store], store := Perform(kube.store, owner, eff));
      }
    }

    method Apply(owner: string, eff: Effect) returns (op: OperationResult, err: bool)
      modifies this
      ensures Result(kube, op, err) == CreateOrUpdate(env, old(kube), owner, eff)
    {
      var found, notFound := Get(Exists(kube.store, eff));
      if notFound {
        err := Commit(owner, eff);
        op := Created;
      } else if found {
        if Perform(kube.store, owner, eff) == kube.store {
          return Unchanged, false;
        }
        err := Commit(owner, eff);
        op := Updated;
      } else {
        return Unchanged, true;
      }
      if err {
        op := Unchanged;
      }
    }

    method DeleteIfPresent(owner: string, eff: Effect) returns (err: bool)
      modifies this
      ensures kube == Delete(env, old(kube), owner, eff).kube && err == Delete(env, old(kube), owner, eff).err
    {
      var found := kube.calls !in env.failedLookups && Exists(kube.store, eff);
      kube := kube.(calls := kube.calls + 1);
      err := false;
      if found {
        err := Commit(owner, eff);
      }
    }

    method ApplyConfig(name: string, data: map<string, string>, owner: string) returns (err: bool)
      modifies this
      ensures kube == CreateOrUpdateCM(env, old(kube), name, data, owner).kube
      ensures err == CreateOrUpdateCM(env, old(kube), name, data, owner).err
    {
      var _, _ := Get(name in kube.store.configMaps);
      var op;
      op, err := Apply(owner, PutConfig(name, data));
    }

    method ApplyClaim(name: string, spec: ClaimSpec, owner: string) returns (err: bool)
      modifies this
      ensures kube == CreateOrUpdatePVC(env, old(kube), name, spec, owner).kube
      ensures err == CreateOrUpdatePVC(env, old(kube), name, spec, owner).err
    {
      var found, notFound := Get(name in kube.store.claims);
      if notFound {
        if spec.accessModes.Some? {
          var accessGranted := false;
          var modes := spec.accessModes.value;
          for i := 0 to |modes|
            invariant !accessGranted
            invariant "ReadWriteOnce" !in modes[..i] && "ReadWriteMany" !in modes[..i]
          {
            if modes[i] == "ReadWriteOnce" || modes[i] == "ReadWriteMany" {
              accessGranted := true;
              break;
            }
          }
          assert modes[..|modes|] == modes;
          if !accessGranted {
            return true;
          }
        }
        var op;
        op, err := Apply(owner, PutClaim(name, spec));
      } else {
        err := !found;
      }
    }
  }
}
