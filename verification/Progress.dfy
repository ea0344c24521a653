/** When a pending version is rolled out. */
module Progress {
  import opened SiddhiTypes
  import opened AppConfigs
  import opened Cluster
  import opened Deployments
  import opened Controller
  import opened ParserLifecycle
  import opened Operator
  import opened StatusFlow
  import opened Passes
  import opened Runs
  import opened StoredVersions
  import opened Locality

  /** Every config map that the spec names is there. */
  predicate AppsReadable(w: World, sp: SiddhiProcess) {
    forall i :: 0 <= i < |sp.spec.apps| ==> Readable(w.userConfigs, w.kube.store, sp.spec.apps[i])
  }

  predicate Readable(userConfigs: map<string, map<string, string>>, s: Store, ref: AppRef) {
    ref.configMap == "" || ref.configMap in userConfigs || ref.configMap in s.configMaps
  }

  /** The answer that the Siddhi parser gives in this pass; `None` when there is none, or when one of the
      Siddhi applications in it has no name. */
  function Answer(e: Env, w: World, cfg: Config, sp: SiddhiProcess, upgrade: bool): Option<seq<Application>> {
    var d := Prepared(e, w, cfg, sp, upgrade);
    var n := ParserDeployed(e, cfg, d.kube, d.sp).calls;
    if n in e.replies then Applications(sp.name, e.appNames, e.replies[n]) else None
  }

  /** The cluster can provide a messaging system, or none is wanted: the spec names no type of messaging, or an
      existing cluster or servers, or no application is stateful. */
  predicate MessagingAvailable(cfg: Config, spec: Spec, apps: seq<Application>) {
    || cfg.natsInstalled
    || spec.messaging.typ == "" || spec.messaging.clusterId != "" || spec.messaging.servers != []
    || forall i :: 0 <= i < |apps| ==> !apps[i].persistenceEnabled
  }

  /** The last update of the process changed nothing visible, and it has applications: it is only watched. */
  predicate Watched(w: World, sp: SiddhiProcess) {
    sp.status.eventType == TimerEvent && sp.name in w.apps && |w.apps[sp.name]| > 0
  }

  lemma {:induction false} ReadableIff(e: Env, userConfigs: map<string, map<string, string>>, start: AppsRead,
                                       p: string, refs: seq<AppRef>, n: nat)
    requires e.failedReads == {} && !start.err && n <= |refs|
    ensures AppsReadUpTo(e, userConfigs, start, p, refs, n).err <==>
            !forall i :: 0 <= i < n ==> Readable(userConfigs, start.kube.store, refs[i])
    decreases n
  {
    if n > 0 {
      ReadableIff(e, userConfigs, start, p, refs, n - 1);
      AppsReadKeeps(e, userConfigs, start, p, refs, n - 1);
    }
  }

  lemma ParsedWithoutFaults(e: Env, cfg: Config, k: Kube, sp: SiddhiProcess)
    requires e.failedWrites == {}
    ensures var n := ParserDeployed(e, cfg, k, sp).calls;
            ProcessParsed(e, cfg, k, sp).apps ==
            if n in e.replies then Applications(sp.name, e.appNames, e.replies[n]) else None
  {
  }

  lemma AppRemovedWithoutFaults(e: Env, c: Ctl, i: nat)
    requires e.failedWrites == {}
    ensures !AppRemoved(e, c, i).err
  {
  }

  lemma {:induction false} CleanedWithoutFaults(e: Env, c: Ctl, lo: nat, n: nat)
    requires e.failedWrites == {}
    ensures !RemovedUpTo(e, c, lo, n).err
    decreases n
  {
    if n > lo {
      CleanedWithoutFaults(e, c, lo, n - 1);
      AppRemovedWithoutFaults(e, RemovedUpTo(e, c, lo, n - 1).ctl, n - 1);
    }
  }

  lemma PopulatedWithoutFaults(e: Env, cfg: Config, c: Ctl, cache: map<string, seq<Application>>)
    requires e.failedWrites == {} && Modified(c.sp.status)
    ensures AppsPopulated(e, cfg, c, cache).apps == ProcessParsed(e, cfg, c.kube, c.sp).apps
  {
    var r := ProcessParsed(e, cfg, c.kube, c.sp);
    if r.apps.Some? {
      CleanedWithoutFaults(e, c.(kube := r.kube), |r.apps.value|, if c.sp.name in cache then |cache[c.sp.name]| else 0);
    }
  }

  lemma FaultlessCompletesIff(e: Env, w: World, cfg: Config, sp: SiddhiProcess, upgrade: bool)
    requires e.failedReads == {} && e.failedWrites == {}
    requires sp.status.current + (if upgrade then 1 else 0) > sp.status.previous
    ensures Advanced(e, w, cfg, sp, upgrade).outcome == Completed <==>
            && AppsReadable(w, sp)
            && Answer(e, w, cfg, sp, upgrade).Some?
            && MessagingAvailable(cfg, sp.spec, Answer(e, w, cfg, sp, upgrade).value)
  {
    var c, d := Opened(e, w, sp, upgrade), Prepared(e, w, cfg, sp, upgrade);
    PreparedKeeps(e, w, cfg, sp, upgrade);
    ReadableIff(e, w.userConfigs, AppsRead(c.kube, w.listeners, false), c.sp.name, c.sp.spec.apps, |c.sp.spec.apps|);
    PopulatedWithoutFaults(e, cfg, d, w.apps);
    ParsedWithoutFaults(e, cfg, d.kube, d.sp);
    var g, pop := AllAppsRead(e, w, c), AppsPopulated(e, cfg, d, w.apps);
    if !g.err {
      ConcludedOutcome(e, w, g.listeners, cfg, d);
    }
  }

  /** The answer of the parser comes before the end of the pass. */
  lemma AnswerComesFirst(e: Env, w: World, cfg: Config, sp: SiddhiProcess, upgrade: bool)
    requires VersionOf(sp, upgrade) > sp.status.previous && !AllAppsRead(e, w, Opened(e, w, sp, upgrade)).err
    ensures var d := Prepared(e, w, cfg, sp, upgrade);
            d.kube.calls <= ParserDeployed(e, cfg, d.kube, d.sp).calls
            < Advanced(e, w, cfg, sp, upgrade).world.kube.calls
  {
    var d, g := Prepared(e, w, cfg, sp, upgrade), AllAppsRead(e, w, Opened(e, w, sp, upgrade));
    PreparedVersions(e, w, cfg, sp, upgrade);
    ParserBeforeEnd(e, w, g.listeners, cfg, d);
  }

  lemma ParserBeforeEnd(e: Env, w: World, listeners: map<string, Listener>, cfg: Config, c: Ctl)
    requires Modified(c.sp.status)
    ensures c.kube.calls <= ParserDeployed(e, cfg, c.kube, c.sp).calls
            < Concluded(e, w, listeners, cfg, c).world.kube.calls
  {
    StartLocal(e, e, 0, cfg, c.kube, c.sp);
    ParserBeforePopulated(e, cfg, c, w.apps);
    var pop := AppsPopulated(e, cfg, c, w.apps);
    if pop.apps.Some? {
      AppliedTicks(e, CachesPopulated(w, listeners, cfg, c.sp, pop), cfg, pop.ctl, pop.apps.value);
    }
  }

  lemma ParserBeforePopulated(e: Env, cfg: Config, c: Ctl, cache: map<string, seq<Application>>)
    requires Modified(c.sp.status)
    ensures ParserDeployed(e, cfg, c.kube, c.sp).calls < AppsPopulated(e, cfg, c, cache).ctl.kube.calls
  {
    var k1, r := ParserDeployed(e, cfg, c.kube, c.sp), ProcessParsed(e, cfg, c.kube, c.sp);
    ParserCleanedLocal(e, e, 0, Tick(k1), c.sp.name);
    if r.apps.Some? {
      var oldLen := if c.sp.name in cache then |cache[c.sp.name]| else 0;
      var d := RemovedUpToLocal(e, e, 0, c.(kube := r.kube), |r.apps.value|, oldLen);
      assert d == ArtifactsCleaned(e, c.(kube := r.kube), oldLen, |r.apps.value|);
    }
  }

  /** Where all config maps are there, the answer depends on the calls of the pass only. */
  lemma AnswerLocal(e: Env, e': Env, hi: nat, w: World, cfg: Config, sp: SiddhiProcess, upgrade: bool)
    requires Agree(e, e', w.kube.calls, hi) && Advanced(e, w, cfg, sp, upgrade).world.kube.calls <= hi
    requires VersionOf(sp, upgrade) > sp.status.previous && !AllAppsRead(e, w, Opened(e, w, sp, upgrade)).err
    ensures Answer(e', w, cfg, sp, upgrade) == Answer(e, w, cfg, sp, upgrade)
  {
    AnswerComesFirst(e, w, cfg, sp, upgrade);
    PreparedLocal(e, e', hi, w, cfg, sp, upgrade);
    var d := Prepared(e, w, cfg, sp, upgrade);
    AgreeLater(e, e', w.kube.calls, d.kube.calls, hi);
    StartLocal(e, e', hi, cfg, d.kube, d.sp);
    AgreeAt(e, e', w.kube.calls, hi, ParserDeployed(e, cfg, d.kube, d.sp).calls);
  }

  /** While the reads and writes of the pass succeed, a pass with a version pending completes exactly when its
      inputs are there. */
  lemma CompletesIff(e: Env, w: World, cfg: Config, sp: SiddhiProcess, upgrade: bool)
    requires Effective(e, w.kube.calls, Advanced(e, w, cfg, sp, upgrade).world.kube.calls)
    requires VersionOf(sp, upgrade) > sp.status.previous
    ensures Advanced(e, w, cfg, sp, upgrade).outcome == Completed <==>
            && AppsReadable(w, sp)
            && Answer(e, w, cfg, sp, upgrade).Some?
            && MessagingAvailable(cfg, sp.spec, Answer(e, w, cfg, sp, upgrade).value)
  {
    var lo, hi := w.kube.calls, Advanced(e, w, cfg, sp, upgrade).world.kube.calls;
    var e' := Only(e, lo, hi);
    OnlyAgrees(e, lo, hi);
    AdvancedLocal(e, e', hi, w, cfg, sp, upgrade);
    FaultlessCompletesIff(e', w, cfg, sp, upgrade);
    FaultlessReadableIff(e', w, cfg, sp, upgrade);
    ReadAlike(e, e', hi, w, cfg, sp, upgrade);
    if AppsReadable(w, sp) {
      AnswerLocal(e, e', hi, w, cfg, sp, upgrade);
    }
  }

  lemma FaultlessReadableIff(e: Env, w: World, cfg: Config, sp: SiddhiProcess, upgrade: bool)
    requires e.failedReads == {}
    ensures AllAppsRead(e, w, Opened(e, w, sp, upgrade)).err <==> !AppsReadable(w, sp)
  {
    var c := Opened(e, w, sp, upgrade);
    PreparedKeeps(e, w, cfg, sp, upgrade);
    ReadableIff(e, w.userConfigs, AppsRead(c.kube, w.listeners, false), c.sp.name, c.sp.spec.apps, |c.sp.spec.apps|);
  }

  lemma ReadAlike(e: Env, e': Env, hi: nat, w: World, cfg: Config, sp: SiddhiProcess, upgrade: bool)
    requires Agree(e, e', w.kube.calls, hi) && Advanced(e, w, cfg, sp, upgrade).world.kube.calls <= hi
    ensures AllAppsRead(e', w, Opened(e', w, sp, upgrade)).err <==> AllAppsRead(e, w, Opened(e, w, sp, upgrade)).err
  {
    var g, d := AllAppsRead(e, w, Opened(e, w, sp, upgrade)), Prepared(e, w, cfg, sp, upgrade);
    PreparedLocal(e, e', hi, w, cfg, sp, upgrade);
    if !g.err {
      ConcludedLocal(e, e, 0, w, g.listeners, cfg, d);
    }
    UnreadLocal(e, e', hi, w, sp, upgrade);
  }

  /** Whatever fails: after a completed pass with a version pending, the cached applications are those of the
      answer that the parser has given in it, and they were parsed for the present spec.  A completed pass
      with nothing pending keeps the cached ones if there are any. */
  lemma CompletedAnswer(e: Env, w: World, cfg: Config, sp: SiddhiProcess, upgrade: bool)
    requires Advanced(e, w, cfg, sp, upgrade).outcome == Completed
    ensures var w', p := Advanced(e, w, cfg, sp, upgrade).world, sp.name;
            if VersionOf(sp, upgrade) > sp.status.previous || p !in w.apps then
              && Answer(e, w, cfg, sp, upgrade).Some?
              && w'.apps == w.apps[p := Answer(e, w, cfg, sp, upgrade).value]
              && w'.parsedSpec == w.parsedSpec[p := sp.spec]
            else w'.apps == w.apps && w'.parsedSpec == w.parsedSpec
  {
    var d, g := Prepared(e, w, cfg, sp, upgrade), AllAppsRead(e, w, Opened(e, w, sp, upgrade));
    PreparedKeeps(e, w, cfg, sp, upgrade);
    PopulatedFromAnswer(e, cfg, d, w.apps);
    if !g.err {
      ConcludedOutcome(e, w, g.listeners, cfg, d);
      ConcludedFromAnswer(e, w, g.listeners, cfg, d);
    }
  }

  lemma PopulatedFromAnswer(e: Env, cfg: Config, c: Ctl, cache: map<string, seq<Application>>)
    ensures var pop, n := AppsPopulated(e, cfg, c, cache), ParserDeployed(e, cfg, c.kube, c.sp).calls;
            if Modified(c.sp.status) || c.sp.name !in cache then
              pop.apps.Some? ==>
                pop.parsed && n in e.replies && pop.apps == Applications(c.sp.name, e.appNames, e.replies[n])
            else !pop.parsed && pop.apps == Some(cache[c.sp.name])
  {
  }

  lemma ConcludedFromAnswer(e: Env, w: World, listeners: map<string, Listener>, cfg: Config, c: Ctl)
    requires AppsPopulated(e, cfg, c, w.apps).apps.Some?
    ensures var pop, r := AppsPopulated(e, cfg, c, w.apps), Concluded(e, w, listeners, cfg, c).world;
            && r.apps == (if pop.parsed then w.apps[c.sp.name := pop.apps.value] else w.apps)
            && r.parsedSpec == (if pop.parsed then w.parsedSpec[c.sp.name := c.sp.spec] else w.parsedSpec)
  {
    var pop := AppsPopulated(e, cfg, c, w.apps);
    PopulatedQuiet(e, cfg, c, w.apps);
    AppliedCaches(e, CachesPopulated(w, listeners, cfg, c.sp, pop), cfg, pop.ctl, pop.apps.value);
  }

  lemma ConcludedOutcome(e: Env, w: World, listeners: map<string, Listener>, cfg: Config, c: Ctl)
    ensures var pop := AppsPopulated(e, cfg, c, w.apps);
            Concluded(e, w, listeners, cfg, c).outcome == Completed <==>
            pop.apps.Some? && !MessagingFails(e, cfg, pop.ctl, pop.apps.value)
    ensures AppsPopulated(e, cfg, c, w.apps).ctl.sp.spec == c.sp.spec
  {
    PopulatedQuiet(e, cfg, c, w.apps);
  }

  /** Whatever fails: a pass for a process with a version pending rolls that version out exactly when it
      is not a timer pass and completes. */
  lemma RolledOutIff(e: Env, w: World, cfg: Config, sp: SiddhiProcess, upgrade: bool)
    requires Consistent(w) && sp.name in w.kube.crs && w.kube.crs[sp.name] == sp
    requires VersionOf(sp, upgrade) > sp.status.previous
    ensures var r, p := Found(e, w, cfg, sp, upgrade), sp.name;
            && p in w.rollouts && p in r.world.rollouts
            && (r.world.rollouts[p] == w.rollouts[p] + [VersionOf(sp, upgrade)] <==>
                  !Watched(w, sp) && Advanced(e, w, cfg, sp, upgrade).outcome == Completed)
  {
    assert |w.rollouts[sp.name] + [VersionOf(sp, upgrade)]| > |w.rollouts[sp.name]|;
    if TimerPass(w, sp) {
      TimerKeeps(e, w, cfg, sp, upgrade);
    } else {
      var _ := AdvancedCaches(e, w, cfg, sp, upgrade);
    }
  }

  /** While the reads and writes of the pass succeed, whatever status updates and lookups fail and whatever
      has failed before: a pending version is rolled out by a pass exactly when the pass is not a timer
      pass, all config maps of the spec are there, the Siddhi parser answers with named applications, and
      the messaging system that these need is available. */
  lemma PendingRolledOutIff(e: Env, w: World, cfg: Config, sp: SiddhiProcess, upgrade: bool)
    requires Effective(e, w.kube.calls, Found(e, w, cfg, sp, upgrade).world.kube.calls)
    requires Consistent(w) && sp.name in w.kube.crs && w.kube.crs[sp.name] == sp
    requires VersionOf(sp, upgrade) > sp.status.previous
    ensures var w', p := Found(e, w, cfg, sp, upgrade).world, sp.name;
            && p in w.rollouts && p in w'.rollouts
            && (w'.rollouts[p] == w.rollouts[p] + [VersionOf(sp, upgrade)] <==>
                  && !Watched(w, sp) && AppsReadable(w, sp)
                  && Answer(e, w, cfg, sp, upgrade).Some?
                  && MessagingAvailable(cfg, sp.spec, Answer(e, w, cfg, sp, upgrade).value))
  {
    RolledOutIff(e, w, cfg, sp, upgrade);
    if !TimerPass(w, sp) {
      CompletesIff(e, w, cfg, sp, upgrade);
    }
  }
}
