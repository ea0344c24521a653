/** One reconcile pass as a whole: parsing, then cleaning, then rolling out, each by the protocol. */
module Passes {
  import opened SiddhiTypes
  import opened Cluster
  import opened Deployments
  import opened Controller
  import opened ParserLifecycle
  import opened Operator
  import opened Moves
  import opened Conformance
  import opened Isolation
  import opened StatusFlow

  /** The three phases of a pass for process `p`, which has `oldLen` cached applications when it
      begins and `newLen` when it ends. */
  ghost predicate PassTrace(p: string, prev: nat, oldLen: nat, newLen: nat, version: nat,
                            start: Kube, parsed: Kube, cleaned: Kube, end: Kube) {
    && Trace(p, Parsing, start, parsed)
    && Trace(p, Cleaning(newLen, oldLen, prev), parsed, cleaned)
    && Trace(p, Rolling(newLen, version), cleaned, end)
  }

  /** Number of applications that the cache holds for `p`. */
  function Len(cache: map<string, seq<Application>>, p: string): nat {
    if p in cache then |cache[p]| else 0
  }

  ghost predicate CacheNamed(cache: map<string, seq<Application>>, p: string) {
    p in cache ==> Named(p, cache[p])
  }

  lemma PreparedKeeps(e: Env, w: World, cfg: Config, sp: SiddhiProcess, upgrade: bool)
    ensures var c, d := Opened(e, w, sp, upgrade), Prepared(e, w, cfg, sp, upgrade);
            && History(c.kube) == History(d.kube) == History(w.kube)
            && c.kube.store == d.kube.store == w.kube.store
            && d.sp == c.sp && c.sp == sp.(status := c.sp.status)
            && c.sp.status.previous == sp.status.previous
            && c.sp.status.current == sp.status.current + (if upgrade then 1 else 0)
    ensures AllAppsRead(e, w, Opened(e, w, sp, upgrade)).kube.store == w.kube.store
    ensures History(AllAppsRead(e, w, Opened(e, w, sp, upgrade)).kube) == History(w.kube)
  {
    var c := Opened(e, w, sp, upgrade);
    AppsReadKeeps(e, w.userConfigs, AppsRead(c.kube, w.listeners, false), c.sp.name, c.sp.spec.apps, |c.sp.spec.apps|);
  }

  lemma PopulatedTraced(e: Env, cfg: Config, c: Ctl, cache: map<string, seq<Application>>)
    returns (parsed: Kube, n: nat)
    requires CacheNamed(cache, c.sp.name) && c.sp.status.previous >= 0
    ensures var pop := AppsPopulated(e, cfg, c, cache);
            && Trace(c.sp.name, Parsing, c.kube, parsed)
            && Trace(c.sp.name, Cleaning(n, Len(cache, c.sp.name), c.sp.status.previous), parsed, pop.ctl.kube)
            && (pop.apps.Some? ==> n == |pop.apps.value| && Named(c.sp.name, pop.apps.value))
            && pop.ctl.sp == c.sp
  {
    var p, oldLen := c.sp.name, Len(cache, c.sp.name);
    if !Modified(c.sp.status) && p in cache {
      parsed, n := c.kube, oldLen;
    } else {
      var r := ProcessParsed(e, cfg, c.kube, c.sp);
      ProcessParsedTraced(e, cfg, c.kube, c.sp);
      parsed, n := r.kube, if r.apps.Some? then |r.apps.value| else oldLen;
      if r.apps.Some? {
        RemovedUpToTraced(e, c.(kube := r.kube), n, oldLen, oldLen);
      }
    }
  }

  lemma ConcludedTraced(e: Env, w: World, listeners: map<string, Listener>, cfg: Config, c: Ctl)
    returns (parsed: Kube, cleaned: Kube, n: nat)
    requires CacheNamed(w.apps, c.sp.name) && c.sp.status.previous >= 0 && c.sp.status.current >= 0
    ensures var r := Concluded(e, w, listeners, cfg, c);
            && PassTrace(c.sp.name, c.sp.status.previous, Len(w.apps, c.sp.name), n, c.sp.status.current,
                         c.kube, parsed, cleaned, r.world.kube)
            && (r.outcome != Completed ==> r.world.kube.store == cleaned.store)
  {
    parsed, n := PopulatedTraced(e, cfg, c, w.apps);
    var pop := AppsPopulated(e, cfg, c, w.apps);
    cleaned := pop.ctl.kube;
    if pop.apps.Some? {
      AppliedTraced(e, CachesPopulated(w, listeners, cfg, c.sp, pop), cfg, pop.ctl, pop.apps.value);
    }
  }

  /** Parsing, cleaning and rolling out in sequence, also when the pass ends early. */
  lemma AdvancedTraced(e: Env, w: World, cfg: Config, sp: SiddhiProcess, upgrade: bool)
    returns (parsed: Kube, cleaned: Kube, n: nat, version: nat)
    requires CacheNamed(w.apps, sp.name) && 0 <= sp.status.previous && 0 <= sp.status.current
    ensures PassTrace(sp.name, sp.status.previous, Len(w.apps, sp.name), n, version,
                      w.kube, parsed, cleaned, Advanced(e, w, cfg, sp, upgrade).world.kube)
    ensures version == sp.status.current + (if upgrade then 1 else 0)
    ensures Advanced(e, w, cfg, sp, upgrade).outcome != Completed ==>
              Advanced(e, w, cfg, sp, upgrade).world.kube.store == cleaned.store
  {
    PreparedKeeps(e, w, cfg, sp, upgrade);
    version := sp.status.current + if upgrade then 1 else 0;
    var g := AllAppsRead(e, w, Opened(e, w, sp, upgrade));
    parsed, cleaned, n := ConcludedTraced(e, w, g.listeners, cfg, Prepared(e, w, cfg, sp, upgrade));
    if g.err {
      parsed, cleaned := w.kube, w.kube;
    }
  }

  lemma AppliedTraced(e: Env, w: World, cfg: Config, c: Ctl, apps: seq<Application>)
    requires Named(c.sp.name, apps) && c.sp.status.current >= 0
    ensures var r := AppsApplied(e, w, cfg, c, apps);
            && Trace(c.sp.name, Rolling(|apps|, c.sp.status.current), c.kube, r.world.kube)
            && r.world.apps == w.apps
  {
    var k := if NeedsMessaging(c.sp.spec, apps) then Tick(c.kube) else c.kube;
    RolloutTraced(e, cfg, c.(kube := k), apps);
  }

  /** Isolation within a pass: every intermediate state of the cluster differs from the first one
      in artifacts of the process only. */
  lemma PassUntouched(p: string, prev: nat, oldLen: nat, newLen: nat, version: nat,
                      start: Kube, parsed: Kube, cleaned: Kube, end: Kube)
    requires PassTrace(p, prev, oldLen, newLen, version, start, parsed, cleaned, end)
    ensures History(start) <= History(end)
    ensures forall i :: |start.past| <= i < |History(end)| ==> Untouched(p, start.store, History(end)[i])
  {
    TraceUntouched(p, Parsing, start, parsed);
    TraceUntouched(p, Cleaning(newLen, oldLen, prev), parsed, cleaned);
    TraceUntouched(p, Rolling(newLen, version), cleaned, end);
    var h1, h2, h := History(parsed), History(cleaned), History(end);
    assert h1 <= h2 <= h;
    UntouchedTransitive(p, start.store, parsed.store, cleaned.store);
    forall i | |start.past| <= i < |h| ensures Untouched(p, start.store, h[i]) {
      if i < |h1| {
        assert h[i] == h1[i];
      } else if i < |h2| {
        assert h[i] == h2[i];
        UntouchedTransitive(p, start.store, parsed.store, h2[i]);
      } else {
        UntouchedTransitive(p, start.store, cleaned.store, h[i]);
      }
    }
  }

  lemma PassOwned(p: string, prev: nat, oldLen: nat, newLen: nat, version: nat,
                  start: Kube, parsed: Kube, cleaned: Kube, end: Kube)
    requires PassTrace(p, prev, oldLen, newLen, version, start, parsed, cleaned, end)
    requires Owned(start.store)
    ensures Owned(end.store)
  {
    TraceOwned(p, Parsing, start, parsed);
    TraceOwned(p, Cleaning(newLen, oldLen, prev), parsed, cleaned);
    TraceOwned(p, Rolling(newLen, version), cleaned, end);
  }

  lemma PopulatedLen(e: Env, w: World, listeners: map<string, Listener>, cfg: Config, c: Ctl)
    ensures var pop := AppsPopulated(e, cfg, c, w.apps);
            var w1 := CachesPopulated(w, listeners, cfg, c.sp, pop);
            if pop.apps.Some? then Len(w1.apps, c.sp.name) == |pop.apps.value| else w1.apps == w.apps
  {
  }
}
