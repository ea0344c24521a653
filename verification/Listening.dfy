/** Which user config maps a pass listens to, and what a change of one of them leads to. */
module Listening {
  import opened SiddhiTypes
  import opened Cluster
  import opened Deployments
  import opened Controller
  import opened Operator
  import opened StatusFlow
  import opened LostUpdates
  import opened Runs
  import opened Protocol
  import opened Repetitions

  // ---------------------------------------------------------------- reading

  /** The number of config maps named by the first `n` entries, one Get for each. */
  function NamedBefore(refs: seq<AppRef>, n: nat): nat
    requires n <= |refs|
    decreases n
  {
    if n == 0 then 0 else NamedBefore(refs, n - 1) + if refs[n - 1].configMap != "" then 1 else 0
  }

  /** Entry `i` names a config map that is not there or cannot be read. */
  predicate Unreadable(e: Env, userConfigs: map<string, map<string, string>>, k: Kube, refs: seq<AppRef>, i: nat)
    requires i < |refs|
  {
    var c := refs[i].configMap;
    c != "" && (k.calls + NamedBefore(refs, i) in e.failedReads || (c !in userConfigs && c !in k.store.configMaps))
  }

  /** Config map `c` is named by one of the first `n` entries. */
  predicate NamedIn(refs: seq<AppRef>, n: nat, c: string)
    requires n <= |refs|
  {
    c != "" && exists i :: 0 <= i < n && refs[i].configMap == c
  }

  /** From `ls` to `ls'` the config maps named by the first `n` entries are listened to for `p`, as unchanged,
      and nothing else is different. */
  ghost predicate Registered(ls: map<string, Listener>, ls': map<string, Listener>, p: string, refs: seq<AppRef>,
                             n: nat)
    requires n <= |refs|
  {
    forall c :: if NamedIn(refs, n, c) then c in ls' && ls'[c] == Listener(p, false)
                else (c in ls' <==> c in ls) && (c in ls ==> ls'[c] == ls[c])
  }

  /** Whatever fails: reading stops at the first entry that is unreadable, and registers a listener for every
      config map that is named before it, or for all of them when there is no such entry. */
  lemma {:induction false} ReadListeners(e: Env, userConfigs: map<string, map<string, string>>, start: AppsRead,
                                         p: string, refs: seq<AppRef>, n: nat) returns (m: nat)
    requires n <= |refs| && !start.err
    ensures m <= n && (forall i :: 0 <= i < m ==> !Unreadable(e, userConfigs, start.kube, refs, i))
    ensures m < n ==> Unreadable(e, userConfigs, start.kube, refs, m)
    ensures var r := AppsReadUpTo(e, userConfigs, start, p, refs, n);
            && (r.err <==> m < n) && Registered(start.listeners, r.listeners, p, refs, m)
            && r.kube == start.kube.(calls := start.kube.calls + NamedBefore(refs, m) + if m < n then 1 else 0)
    decreases n
  {
    m := 0;
    if n > 0 {
      m := ReadListeners(e, userConfigs, start, p, refs, n - 1);
      var q := AppsReadUpTo(e, userConfigs, start, p, refs, n - 1);
      if m == n - 1 && !Unreadable(e, userConfigs, start.kube, refs, m) {
        RegisteredNext(start.listeners, q.listeners, p, refs, m);
        m := n;
      }
    }
  }

  lemma RegisteredNext(ls: map<string, Listener>, ls': map<string, Listener>, p: string, refs: seq<AppRef>, n: nat)
    requires n < |refs| && Registered(ls, ls', p, refs, n)
    ensures var c := refs[n].configMap;
            Registered(ls, if c == "" then ls' else ls'[c := Listener(p, false)], p, refs, n + 1)
  {
    forall c ensures NamedIn(refs, n + 1, c) <==> NamedIn(refs, n, c) || (c != "" && c == refs[n].configMap) {
    }
  }

  // ---------------------------------------------------------------- after a pass

  /** Changes of config map `c` are requests for process `p`. */
  predicate Listens(w: World, c: string, p: string) {
    c in w.listeners && w.listeners[c].process == p
  }

  /** A pass leaves the listeners as its reading has registered them, whatever its outcome. */
  lemma AdvancedListeners(e: Env, w: World, cfg: Config, sp: SiddhiProcess, upgrade: bool)
    ensures Advanced(e, w, cfg, sp, upgrade).world.listeners == AllAppsRead(e, w, Opened(e, w, sp, upgrade)).listeners
    ensures Advanced(e, w, cfg, sp, upgrade).world.userConfigs == w.userConfigs
  {
    var g, d := AllAppsRead(e, w, Opened(e, w, sp, upgrade)), Prepared(e, w, cfg, sp, upgrade);
    if !g.err {
      ConcludedListeners(e, w, g.listeners, cfg, d);
    }
  }

  lemma ConcludedListeners(e: Env, w: World, listeners: map<string, Listener>, cfg: Config, c: Ctl)
    ensures var r := Concluded(e, w, listeners, cfg, c).world;
            r.listeners == listeners && r.userConfigs == w.userConfigs
  {
    var pop := AppsPopulated(e, cfg, c, w.apps);
    var w1 := CachesPopulated(w, listeners, cfg, c.sp, pop);
    if pop.apps.Some? {
      var r := AppsApplied(e, w1, cfg, pop.ctl, pop.apps.value).world;
      assert r == w1.(kube := r.kube, rollouts := r.rollouts);
    }
  }

  /** The pass is not a timer pass, and all config maps of its spec can be read. */
  ghost predicate ReadsAll(e: Env, w: World, sp: SiddhiProcess, upgrade: bool) {
    && !TimerPass(w, sp)
    && forall i :: 0 <= i < |sp.spec.apps| ==>
         !Unreadable(e, w.userConfigs, Opened(e, w, sp, upgrade).kube, sp.spec.apps, i)
  }

  /** After a pass that reads all its config maps, whatever fails later in it, each of them is listened to for
      its process. */
  lemma PassListens(e: Env, w: World, request: string, cfg: Config, i: nat)
    requires Consistent(w) && Reaches(e, w, request)
    requires ReadsAll(e, Entered(w), Reached(e, w, request), ForConfigMap(e, w, request))
    requires i < |Reached(e, w, request).spec.apps| && Reached(e, w, request).spec.apps[i].configMap != ""
    ensures Listens(Reconcile(e, w, request, cfg).world, Reached(e, w, request).spec.apps[i].configMap,
                    Target(e, w, request))
  {
    var v, sp, upgrade := Entered(w), Reached(e, w, request), ForConfigMap(e, w, request);
    var refs := sp.spec.apps;
    AdvancedListeners(e, v, cfg, sp, upgrade);
    var c := Opened(e, v, sp, upgrade);
    OpenedSpec(e, v, sp, upgrade);
    var m := ReadListeners(e, v.userConfigs, AppsRead(c.kube, v.listeners, false), sp.name, refs, |refs|);
    assert NamedIn(refs, m, refs[i].configMap);
    SettledKeeps(e, w, request, cfg, refs[i].configMap, sp.name);
  }

  lemma OpenedSpec(e: Env, w: World, sp: SiddhiProcess, upgrade: bool)
    ensures var c := Opened(e, w, sp, upgrade); c.sp.spec == sp.spec && c.sp.name == sp.name
  {
  }

  /** Settling the listener of a request does not change whose it is. */
  lemma SettledKeeps(e: Env, w: World, request: string, cfg: Config, c: string, p: string)
    requires Reaches(e, w, request) && Listens(PassOf(e, w, request, cfg).world, c, p)
    ensures Listens(Reconcile(e, w, request, cfg).world, c, p)
  {
  }

  // ---------------------------------------------------------------- until the change

  /** No other process mounts config map `c`. */
  ghost predicate OnlyFor(w: World, c: string, p: string) {
    forall q | q in w.kube.crs && q != p :: !NamedIn(w.kube.crs[q].spec.apps, |w.kube.crs[q].spec.apps|, c)
  }

  lemma PassKeepsListening(e: Env, w: World, cfg: Config, sp: SiddhiProcess, upgrade: bool, c: string, p: string)
    requires Listens(w, c, p) && (sp.name != p ==> !NamedIn(sp.spec.apps, |sp.spec.apps|, c))
    ensures Listens(Found(e, w, cfg, sp, upgrade).world, c, p)
  {
    if !TimerPass(w, sp) {
      AdvancedListeners(e, w, cfg, sp, upgrade);
      var d, refs := Opened(e, w, sp, upgrade), sp.spec.apps;
      OpenedSpec(e, w, sp, upgrade);
      var m := ReadListeners(e, w.userConfigs, AppsRead(d.kube, w.listeners, false), sp.name, refs, |refs|);
      assert NamedIn(refs, m, c) ==> NamedIn(refs, |refs|, c);
    }
  }

  /** A listener stays with its process, in every step and whatever fails, unless another process mounts the
      same config map. */
  lemma NextKeepsListening(e: Env, w: World, step: Step, c: string, p: string)
    requires Consistent(w) && Listens(w, c, p) && OnlyFor(w, c, p)
    ensures Listens(Next(e, w, step), c, p)
  {
    if step.ReconcileRequest? {
      if Reaches(e, w, step.name) {
        PassKeepsListening(e, Entered(w), step.cfg, Reached(e, w, step.name), ForConfigMap(e, w, step.name), c, p);
        SettledKeeps(e, w, step.name, step.cfg, c, p);
      }
    }
  }

  /** The same over any number of steps. */
  lemma {:induction false} RunKeepsListening(e: Env, w: World, steps: seq<Step>, c: string, p: string)
    requires Consistent(w) && Listens(w, c, p)
    requires forall k :: 0 <= k < |steps| ==> OnlyFor(RunFrom(e, w, steps[..k]), c, p)
    ensures Consistent(RunFrom(e, w, steps)) && Listens(RunFrom(e, w, steps), c, p)
    decreases |steps|
  {
    if steps != [] {
      var init := steps[..|steps| - 1];
      forall k | 0 <= k < |init| ensures OnlyFor(RunFrom(e, w, init[..k]), c, p) {
        assert init[..k] == steps[..k];
      }
      RunKeepsListening(e, w, init, c, p);
      NextConsistent(e, RunFrom(e, w, init), steps[|steps| - 1]);
      NextKeepsListening(e, RunFrom(e, w, init), steps[|steps| - 1], c, p);
    }
  }

  // ---------------------------------------------------------------- which process a request is for

  /** A request finds nothing exactly when its process cannot be read: the one of that name, or the one that
      listens when there is a config map of that name.  Then the calls are all that has happened. */
  lemma RequestExact(e: Env, w: World, request: string, cfg: Config)
    ensures var isMap := w.kube.calls !in e.failedReads
                         && (request in w.userConfigs || request in w.kube.store.configMaps);
            var p := if !isMap then request
                     else if request in w.listeners then w.listeners[request].process else "";
            var r := Reconcile(e, w, request, cfg);
            && (r.outcome == NotFound <==> w.kube.calls + 1 in e.failedReads || p !in w.kube.crs)
            && (r.outcome == NotFound ==> r.world == w.(kube := w.kube.(calls := w.kube.calls + 2)))
            && (r.outcome != NotFound ==> Reaches(e, w, request) && Reached(e, w, request) == w.kube.crs[p]
                                          && ForConfigMap(e, w, request) == isMap)
  {
    if Reaches(e, w, request) {
      FoundSomething(e, Entered(w), cfg, w.kube.crs[Target(e, w, request)], ForConfigMap(e, w, request));
    }
  }

  lemma FoundSomething(e: Env, w: World, cfg: Config, sp: SiddhiProcess, upgrade: bool)
    ensures Found(e, w, cfg, sp, upgrade).outcome != NotFound
  {
  }

  // ---------------------------------------------------------------- the change

  /** A change of a config map that is listened to is marked, and leaves it with its process. */
  lemma ChangeMarked(w: World, c: string, data: map<string, string>, p: string)
    requires Listens(w, c, p) && c in w.userConfigs
    ensures var w' := Event(w, PutUserConfig(c, data));
            && Listens(w', c, p) && w'.listeners[c].changed && w'.userConfigs == w.userConfigs[c := data]
            && w' == w.(listeners := w'.listeners, userConfigs := w'.userConfigs)
            && forall d | d != c :: (d in w'.listeners <==> d in w.listeners)
                                    && (d in w.listeners ==> w'.listeners[d] == w.listeners[d])
  {
  }

  /** A request for config map `c` reaches process `p`.  Unless that is being watched, the pass works on its next
      version, rolls that out when it completes, and then has the change settled. */
  ghost predicate WorksOnNext(e: Env, w: World, c: string, cfg: Config, p: string) {
    && p in w.kube.crs && Reaches(e, w, c) && Target(e, w, c) == p && Reached(e, w, c) == w.kube.crs[p]
    && (!TimerPass(w, w.kube.crs[p]) ==>
          var r, version := Reconcile(e, w, c, cfg), w.kube.crs[p].status.current + 1;
          && Opened(e, Entered(w), w.kube.crs[p], true).sp.status.current == version
          && p in w.rollouts && p in r.world.rollouts
          && (r.outcome == Completed ==> r.world.rollouts[p] == w.rollouts[p] + [version])
          && (r.outcome == Completed ==> c in r.world.listeners && r.world.listeners[c] == Listener(p, false)))
  }

  /** The request for a changed config map reaches the process that listens to it. */
  lemma ChangeReaches(e: Env, w: World, c: string, cfg: Config, p: string)
    requires Consistent(w) && Listens(w, c, p) && c in w.userConfigs && p in w.kube.crs
    requires w.kube.calls !in e.failedReads && w.kube.calls + 1 !in e.failedReads
    ensures WorksOnNext(e, w, c, cfg, p)
  {
    assert ForConfigMap(e, w, c);
    if !TimerPass(w, w.kube.crs[p]) {
      OpenedVersions(e, Entered(w), w.kube.crs[p], true);
      ChangeRolledOut(e, w, c, cfg, p, Reconcile(e, w, c, cfg));
      ChangeSettled(e, w, c, cfg, p);
    }
  }

  /** A completed pass has rolled out the next version of `p`. */
  ghost predicate NextRolledOut(w: World, p: string, r: Reconciled)
    requires p in w.kube.crs
  {
    && p in w.rollouts && p in r.world.rollouts
    && (r.outcome == Completed ==> r.world.rollouts[p] == w.rollouts[p] + [w.kube.crs[p].status.current + 1])
  }

  lemma ChangeRolledOut(e: Env, w: World, c: string, cfg: Config, p: string, r: Reconciled)
    requires Consistent(w) && ForConfigMap(e, w, c) && Reaches(e, w, c) && Target(e, w, c) == p
    requires !TimerPass(w, w.kube.crs[p]) && r == Reconcile(e, w, c, cfg)
    ensures NextRolledOut(w, p, r)
  {
    RequestRollouts(e, w, ReconcileRequest(c, cfg), p, r.world);
    if r.outcome == Completed {
      CompletedRollsOut(e, w, c, cfg, p, r);
    }
    MovedToNext(e, w, ReconcileRequest(c, cfg), p, r);
  }

  lemma MovedToNext(e: Env, w: World, step: Step, p: string, r: Reconciled)
    requires p in w.kube.crs && Moved(e, w, step, p, r.world)
    requires r.outcome == Completed ==>
               RollsOut(e, w, step, p) && VersionAt(e, w, step) == w.kube.crs[p].status.current + 1
    ensures NextRolledOut(w, p, r)
  {
  }

  lemma CompletedRollsOut(e: Env, w: World, c: string, cfg: Config, p: string, r: Reconciled)
    requires Consistent(w) && ForConfigMap(e, w, c) && Reaches(e, w, c) && Target(e, w, c) == p
    requires !TimerPass(w, w.kube.crs[p]) && r == Reconcile(e, w, c, cfg)
    requires r.outcome == Completed
    ensures RollsOut(e, w, ReconcileRequest(c, cfg), p)
    ensures VersionAt(e, w, ReconcileRequest(c, cfg)) == w.kube.crs[p].status.current + 1
  {
    GetsThroughIff(e, Entered(w), cfg, w.kube.crs[p], true);
  }

  lemma ChangeSettled(e: Env, w: World, c: string, cfg: Config, p: string)
    requires Consistent(w) && Listens(w, c, p) && ForConfigMap(e, w, c) && Reaches(e, w, c)
    ensures var r := Reconcile(e, w, c, cfg);
            r.outcome == Completed ==> c in r.world.listeners && r.world.listeners[c] == Listener(p, false)
  {
    PassKeepsListening(e, Entered(w), cfg, w.kube.crs[p], true, c, p);
  }

  /** From a pass to the edit: a pass reads config map `c` of process `p`; after any further steps, during which no
      other process mounts `c`, the user changes it.  The change is marked, the request for it reaches `p`, and
      its pass works on the next version and rolls it out when it completes. */
  lemma EditReaches(e: Env, w: World, request: string, cfg: Config, steps: seq<Step>, c: string, p: string,
                    data: map<string, string>, cfg': Config) returns (w1: World, w2: World)
    requires Consistent(w) && Reaches(e, w, request) && p == Target(e, w, request)
    requires ReadsAll(e, Entered(w), Reached(e, w, request), ForConfigMap(e, w, request))
    requires var refs := Reached(e, w, request).spec.apps; NamedIn(refs, |refs|, c)
    requires EditPossible(e, Next(e, w, ReconcileRequest(request, cfg)), steps, c, p)
    ensures w1 == RunFrom(e, Next(e, w, ReconcileRequest(request, cfg)), steps)
    ensures w2 == Event(w1, PutUserConfig(c, data)) && w2.kube == w1.kube
    ensures c in w2.listeners && w2.listeners[c] == Listener(p, true) && WorksOnNext(e, w2, c, cfg', p)
  {
    var refs := Reached(e, w, request).spec.apps;
    var i :| 0 <= i < |refs| && refs[i].configMap == c;
    PassListens(e, w, request, cfg, i);
    NextConsistent(e, w, ReconcileRequest(request, cfg));
    w1, w2 := EditLater(e, Next(e, w, ReconcileRequest(request, cfg)), steps, c, p, data, cfg');
  }

  /** No other process mounts `c` during the steps; afterwards `c` and `p` are there, and the next request can read
      them. */
  ghost predicate EditPossible(e: Env, w: World, steps: seq<Step>, c: string, p: string) {
    && (forall k :: 0 <= k < |steps| ==> OnlyFor(RunFrom(e, w, steps[..k]), c, p))
    && var v := RunFrom(e, w, steps);
       c in v.userConfigs && p in v.kube.crs
       && v.kube.calls !in e.failedReads && v.kube.calls + 1 !in e.failedReads
  }

  lemma EditLater(e: Env, w: World, steps: seq<Step>, c: string, p: string, data: map<string, string>, cfg: Config)
    returns (w1: World, w2: World)
    requires Consistent(w) && Listens(w, c, p) && EditPossible(e, w, steps, c, p)
    ensures w1 == RunFrom(e, w, steps) && w2 == Event(w1, PutUserConfig(c, data)) && w2.kube == w1.kube
    ensures c in w2.listeners && w2.listeners[c] == Listener(p, true) && WorksOnNext(e, w2, c, cfg, p)
  {
    RunKeepsListening(e, w, steps, c, p);
    w1 := RunFrom(e, w, steps);
    w2 := EditMarked(e, w1, c, data, p);
    ChangeReaches(e, w2, c, cfg, p);
  }

  lemma EditMarked(e: Env, w: World, c: string, data: map<string, string>, p: string) returns (w': World)
    requires Consistent(w) && Listens(w, c, p) && c in w.userConfigs
    ensures w' == Event(w, PutUserConfig(c, data)) && w'.kube == w.kube && Consistent(w') && Listens(w', c, p)
    ensures w'.listeners[c] == Listener(p, true) && c in w'.userConfigs
  {
    w' := Event(w, PutUserConfig(c, data));
    ChangeMarked(w, c, data, p);
    NextConsistent(e, w, PutUserConfig(c, data));
  }
}
