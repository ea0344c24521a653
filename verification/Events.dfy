/** What the events do to the state of the operator, spelled out. */
module Events {
  import opened SiddhiTypes
  import opened SpecEquality
  import opened Cluster
  import opened Deployments
  import opened Operator
  import opened Runs

  /** Nothing but the record of process `p` is different. */
  predicate OnlyRecordOf(p: string, w: World, w': World) {
    p in w'.kube.crs && w' == w.(kube := w.kube.(crs := w.kube.crs[p := w'.kube.crs[p]]))
  }

  /** An update raises the version of its process by one exactly when it changes something that the comparison
      looks at, and otherwise turns the next passes into timer passes.  The new spec is stored, with its
      servers in some order, and nothing else changes. */
  lemma UpdateExact(w: World, p: string, spec: Spec)
    requires Consistent(w) && p in w.kube.crs
    ensures var w' := Event(w, UpdateProcess(p, spec));
            && OnlyRecordOf(p, w, w')
            && var sp, sp' := w.kube.crs[p], w'.kube.crs[p];
               && (sp'.status.current == sp.status.current + 1 <==> !LooksAlike(sp.spec, spec))
               && (sp'.status.current == sp.status.current <==> LooksAlike(sp.spec, spec))
               && sp'.status.eventType == (if LooksAlike(sp.spec, spec) then TimerEvent else UpdateEvent)
               && sp'.status == sp.status.(current := sp'.status.current, eventType := sp'.status.eventType)
               && sp'.name == p
               && sp'.spec == spec.(messaging := spec.messaging.(servers := sp'.spec.messaging.servers))
               && multiset(sp'.spec.messaging.servers) == multiset(spec.messaging.servers)
  {
    EqualsIff(w.kube.crs[p].spec, spec);
    ComparedSpec(w.kube.crs[p].spec, spec);
  }

  /** A new process starts at version 0, without a phase and without applications. */
  lemma CreateExact(w: World, p: string, spec: Spec)
    requires Consistent(w) && p !in w.kube.crs
    ensures var w' := Event(w, CreateProcess(p, spec));
            && w' == w.(kube := w.kube.(crs := w'.kube.crs), rollouts := w.rollouts[p := []])
            && w'.kube.crs.Keys == w.kube.crs.Keys + {p}
            && (forall q | q in w.kube.crs :: w'.kube.crs[q] == w.kube.crs[q])
            && w'.kube.crs[p].name == p && w'.kube.crs[p].spec == spec && p !in w'.apps
            && var s := w'.kube.crs[p].status;
               && s.current == 0 && s.previous == 0 && s.phase == Unset && s.eventType == NoEvent
               && s.ready == "" && s.partialApps == []
  {
  }

  /** From `m` to `m'` exactly the objects of `p` have gone, and the others are as they were. */
  ghost predicate OthersLeft<T>(m: map<string, T>, m': map<string, T>, p: string, owner: T -> string) {
    && (forall n :: n in m' <==> n in m && owner(m[n]) != p)
    && forall n | n in m' :: m'[n] == m[n]
  }

  /** With a process go its record, its cached applications and exactly the objects that it owns; the ingress,
      the config maps of users and the listeners stay. */
  lemma DeleteExact(w: World, p: string)
    requires Consistent(w) && p in w.kube.crs
    ensures var w' := Event(w, DeleteProcess(p));
            var s, t := w.kube.store, w'.kube.store;
            && OthersLeft(s.deployments, t.deployments, p, (d: Deployment) => d.owner)
            && OthersLeft(s.services, t.services, p, (v: Service) => v.owner)
            && OthersLeft(s.configMaps, t.configMaps, p, (m: ConfigMap) => m.owner)
            && OthersLeft(s.claims, t.claims, p, (c: Claim) => c.owner)
            && t.ingress == s.ingress
            && w'.kube.crs == w.kube.crs - {p} && w'.apps == w.apps - {p}
            && w'.userConfigs == w.userConfigs && w'.listeners == w.listeners
            && History(w'.kube) == History(w.kube) + [t] && w'.kube.calls == w.kube.calls
  {
  }

  /** The cluster changes the available replicas of one deployment, and nothing else. */
  lemma ObserveExact(w: World, n: string, available: int)
    requires Consistent(w) && n in w.kube.store.deployments
    ensures var w' := Event(w, Observe(n, available));
            var s, t := w.kube.store, w'.kube.store;
            && t.deployments.Keys == s.deployments.Keys && t == s.(deployments := t.deployments)
            && t.deployments[n].available == available
            && t.deployments[n] == s.deployments[n].(available := available)
            && (forall m | m in s.deployments && m != n :: t.deployments[m] == s.deployments[m])
            && w' == w.(kube := w.kube.(store := t, past := w'.kube.past)) && History(w'.kube) == History(w.kube) + [t]
  {
  }

  /** A config map of a user goes, but not who listens to it. */
  lemma DropExact(w: World, c: string)
    ensures var w' := Event(w, DropUserConfig(c));
            && (forall d :: d in w'.userConfigs <==> d in w.userConfigs && d != c)
            && (forall d | d in w'.userConfigs :: w'.userConfigs[d] == w.userConfigs[d])
            && w' == w.(userConfigs := w'.userConfigs)
  {
  }
}
