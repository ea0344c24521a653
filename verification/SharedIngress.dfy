/** The shared ingress over whole runs. */
module SharedIngress {
  import opened SiddhiTypes
  import opened Ingress
  import opened Names
  import opened Cluster
  import opened Deployments
  import opened Controller
  import opened Operator
  import opened Moves
  import opened Passes
  import opened Runs
  import opened Safety

  ghost predicate SlashFree(rs: seq<Request>) {
    forall k :: 0 <= k < |rs| ==> '/' !in rs[k].service
  }

  /** The ingress is what some history of calls for proper service names has left. */
  ghost predicate FromRequests(ing: Option<Ingress>) {
    exists rs :: ing == AfterRequests(rs) && SlashFree(rs)
  }

  lemma RequestAdded(ing: Option<Ingress>, tls: string, service: string, ports: seq<Port>)
    requires FromRequests(ing) && '/' !in service
    ensures FromRequests(Some(CreateOrMerge(ing, tls, PathsOf(service, ports))))
  {
    var rs :| ing == AfterRequests(rs) && SlashFree(rs);
    var more := rs + [Request(service, tls, ports)];
    assert more[..|more| - 1] == rs;
    assert AfterRequests(more) == Some(CreateOrMerge(ing, tls, PathsOf(service, ports)));
    assert SlashFree(more);
  }

  lemma MoveFromRequests(p: string, pass: Pass, s: Store, t: Store)
    requires Move(p, pass, s, t) && '/' !in p && FromRequests(s.ingress)
    ensures FromRequests(t.ingress)
  {
    var eff :| Legal(p, pass, s, eff) && t == Perform(s, p, eff);
    if eff.PutIngress? {
      PutFromRequests(p, pass, s, eff);
    } else {
      assert t.ingress == s.ingress;
    }
  }

  lemma PutFromRequests(p: string, pass: Pass, s: Store, eff: Effect)
    requires Legal(p, pass, s, eff) && eff.PutIngress? && '/' !in p && FromRequests(s.ingress)
    ensures FromRequests(Perform(s, p, eff).ingress)
  {
    var i: nat, ports :| i < pass.n && eff.paths == PathsOf(AppName(p, i), ports);
    assert '/' !in AppName(p, i);
    RequestAdded(s.ingress, eff.tls, AppName(p, i), ports);
  }

  lemma TraceFromRequests(p: string, pass: Pass, k: Kube, k': Kube)
    requires Trace(p, pass, k, k') && '/' !in p && FromRequests(k.store.ingress)
    ensures FromRequests(k'.store.ingress)
  {
    var inv := (s: Store) => FromRequests(s.ingress);
    forall s, t | inv(s) && Move(p, pass, s, t) ensures inv(t) {
      MoveFromRequests(p, pass, s, t);
    }
    TraceInvariant(p, pass, k, k', inv);
  }

  lemma ReconcileFromRequests(e: Env, w: World, request: string, cfg: Config)
    requires Consistent(w) && FromRequests(w.kube.store.ingress) && '/' !in Target(e, w, request)
    ensures FromRequests(Reconcile(e, w, request, cfg).world.kube.store.ingress)
  {
    ReconcileCases(e, w, request, cfg);
    if Reaches(e, w, request) {
      var sp, upgrade, v := Reached(e, w, request), ForConfigMap(e, w, request), Entered(w);
      var parsed, cleaned, n, version := FoundTraced(e, v, cfg, sp, upgrade);
      var oldLen, end := Len(w.apps, sp.name), PassOf(e, w, request, cfg).world.kube;
      TraceFromRequests(sp.name, Parsing, v.kube, parsed);
      TraceFromRequests(sp.name, Cleaning(n, oldLen, sp.status.previous), parsed, cleaned);
      TraceFromRequests(sp.name, Rolling(n, version), cleaned, end);
    }
  }

  /** In every run with process names free of slashes, whatever fails, the ingress comes from a
      history of requests. */
  lemma {:induction false} RunFromRequests(e: Env, steps: seq<Step>)
    requires forall p :: EverCreated(steps, p) ==> '/' !in p
    ensures FromRequests(Run(e, steps).kube.store.ingress)
    decreases |steps|
  {
    if steps == [] {
      assert AfterRequests([]) == None && SlashFree([]);
    } else {
      var init, step := steps[..|steps| - 1], steps[|steps| - 1];
      var w := Run(e, init);
      assert steps == init + [step];
      forall p | EverCreated(init, p) ensures '/' !in p {
        CreatedMonotone(init, step, p);
      }
      RunConsistent(e, init);
      RunFromRequests(e, init);
      if step.ReconcileRequest? {
        ReconcileCases(e, w, step.name, step.cfg);
        if Reaches(e, w, step.name) {
          RunCreated(e, init, Target(e, w, step.name));
          ReconcileFromRequests(e, w, step.name, step.cfg);
        }
      }
    }
  }

  /** The ingress of every run has one rule, for the host `siddhi`, and no path in it leads to two
      different backends. */
  lemma RunIngressConflictFree(e: Env, steps: seq<Step>, ing: Ingress, a: IngressPath, b: IngressPath)
    requires forall p :: EverCreated(steps, p) ==> '/' !in p
    requires Run(e, steps).kube.store.ingress == Some(ing)
    ensures |ing.rules| == 1 && ing.rules[0].host == INGRESS_NAME
    ensures a in ing.rules[0].paths && b in ing.rules[0].paths && a.path == b.path ==> a == b
  {
    RunFromRequests(e, steps);
    var rs :| Some(ing) == AfterRequests(rs) && SlashFree(rs);
    RequestHistory(rs);
    if a in ing.rules[0].paths && b in ing.rules[0].paths && a.path == b.path {
      IngressConflictFree(rs, a, b);
    }
  }

  lemma MoveKeepsServing(p: string, pass: Pass, s: Store, t: Store, paths: seq<IngressPath>)
    requires Move(p, pass, s, t) && s.ingress.Some? && Serves(s.ingress.value, paths)
    ensures t.ingress.Some? && Serves(t.ingress.value, paths)
  {
    var eff :| Legal(p, pass, s, eff) && t == Perform(s, p, eff);
    EffectKeepsServing(p, s, eff, paths);
  }

  lemma EffectKeepsServing(p: string, s: Store, eff: Effect, paths: seq<IngressPath>)
    requires s.ingress.Some? && Serves(s.ingress.value, paths)
    ensures var ing := Perform(s, p, eff).ingress; ing.Some? && Serves(ing.value, paths)
  {
    if eff.PutIngress? {
      MergeKeepsServing(s.ingress.value, eff.tls, eff.paths, paths);
    }
  }

  /** Paths once served are served for ever: no event and no pass takes one away, not even the
      deletion of the process behind it. */
  lemma TraceKeepsServing(p: string, pass: Pass, k: Kube, k': Kube, paths: seq<IngressPath>)
    requires Trace(p, pass, k, k') && k.store.ingress.Some? && Serves(k.store.ingress.value, paths)
    ensures k'.store.ingress.Some? && Serves(k'.store.ingress.value, paths)
  {
    var inv := (s: Store) => s.ingress.Some? && Serves(s.ingress.value, paths);
    forall s, t | inv(s) && Move(p, pass, s, t) ensures inv(t) {
      MoveKeepsServing(p, pass, s, t, paths);
    }
    TraceInvariant(p, pass, k, k', inv);
  }

  lemma NextKeepsServing(e: Env, w: World, step: Step, paths: seq<IngressPath>)
    requires Consistent(w) && w.kube.store.ingress.Some? && Serves(w.kube.store.ingress.value, paths)
    ensures var ing := Next(e, w, step).kube.store.ingress; ing.Some? && Serves(ing.value, paths)
  {
    if step.ReconcileRequest? {
      ReconcileCases(e, w, step.name, step.cfg);
      if Reaches(e, w, step.name) {
        var sp, upgrade, v := Reached(e, w, step.name), ForConfigMap(e, w, step.name), Entered(w);
        var parsed, cleaned, n, version := FoundTraced(e, v, step.cfg, sp, upgrade);
        var oldLen, end := Len(w.apps, sp.name), PassOf(e, w, step.name, step.cfg).world.kube;
        TraceKeepsServing(sp.name, Parsing, v.kube, parsed, paths);
        TraceKeepsServing(sp.name, Cleaning(n, oldLen, sp.status.previous), parsed, cleaned, paths);
        TraceKeepsServing(sp.name, Rolling(n, version), cleaned, end, paths);
      }
    }
  }
}
