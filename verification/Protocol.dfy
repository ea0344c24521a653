/** The version protocol, the application cache and the status of a process over whole runs. */
module Protocol {
  import opened SiddhiTypes
  import opened SpecEquality
  import opened Cluster
  import opened Deployments
  import opened Controller
  import opened Operator
  import opened StatusFlow
  import opened LostUpdates
  import opened StoredVersions
  import opened Runs

  // ---------------------------------------------------------------- versions

  /** While a process exists, neither of its versions ever falls, whatever fails. */
  lemma VersionsNeverFall(e: Env, w: World, step: Step, p: string)
    requires Consistent(w) && p in w.kube.crs && p in Next(e, w, step).kube.crs
    ensures var s, s' := w.kube.crs[p].status, Next(e, w, step).kube.crs[p].status;
            s.current <= s'.current && s.previous <= s'.previous <= s'.current
  {
    if step.ReconcileRequest? {
      ReconcileCases(e, w, step.name, step.cfg);
      if Reaches(e, w, step.name) {
        FoundEvolves(e, Entered(w), step.cfg, Reached(e, w, step.name), ForConfigMap(e, w, step.name));
      }
    } else {
      EventVersions(w, step, p);
    }
  }

  lemma EventVersions(w: World, step: Step, p: string)
    requires Consistent(w) && !step.ReconcileRequest? && p in w.kube.crs && p in Event(w, step).kube.crs
    ensures var s, s' := w.kube.crs[p].status, Event(w, step).kube.crs[p].status;
            s.current <= s'.current && s.previous == s'.previous <= s'.current
  {
  }

  ghost predicate StrictlyIncreasing(s: seq<int>) {
    forall i, j :: 0 <= i < j < |s| ==> s[i] < s[j]
  }

  /** The rollouts of a process so far: ascending, above 0, and none above the previous version. */
  ghost predicate RolloutsOrdered(w: World) {
    forall p | p in w.kube.crs :: p in w.rollouts && StrictlyIncreasing(w.rollouts[p])
      && forall v | v in w.rollouts[p] :: 0 < v <= w.kube.crs[p].status.previous
  }

  lemma RolloutsAfter(w: World, w': World, sp: SiddhiProcess, version: int, outcome: Outcome, parsed: bool)
    requires Consistent(w) && RolloutsOrdered(w) && sp.name in w.kube.crs && w.kube.crs[sp.name] == sp
    requires Evolved(sp.name, w.kube.crs, w'.kube.crs) && CachesAfter(w, w', sp, version, outcome, parsed)
    requires outcome == Completed ==> w'.kube.crs[sp.name].status.previous == version
    ensures RolloutsOrdered(w')
  {
    var p := sp.name;
    if outcome == Completed && version != 0 && version > sp.status.previous {
      Extended(w.rollouts[p], sp.status.previous, version);
    }
  }

  lemma Extended(s: seq<int>, bound: int, version: int)
    requires StrictlyIncreasing(s) && (forall v | v in s :: 0 < v <= bound) && 0 <= bound < version
    ensures StrictlyIncreasing(s + [version]) && forall v | v in s + [version] :: 0 < v <= version
  {
    forall i, j | 0 <= i < j < |s + [version]| ensures (s + [version])[i] < (s + [version])[j] {
      assert s[i] in s;
    }
  }

  lemma PassRolloutsOrdered(e: Env, w: World, cfg: Config, sp: SiddhiProcess, upgrade: bool)
    requires Consistent(w) && RolloutsOrdered(w) && sp.name in w.kube.crs && w.kube.crs[sp.name] == sp
    requires TimerPass(w, sp) || !VersionLost(e, w, cfg, sp, upgrade)
    ensures RolloutsOrdered(Found(e, w, cfg, sp, upgrade).world)
  {
    FoundEvolves(e, w, cfg, sp, upgrade);
    if TimerPass(w, sp) {
      TimerKeeps(e, w, cfg, sp, upgrade);
    } else {
      AdvancedBounds(e, w, cfg, sp, upgrade);
      var parsed := AdvancedCaches(e, w, cfg, sp, upgrade);
      var r := Found(e, w, cfg, sp, upgrade);
      RolloutsAfter(w, r.world, sp, VersionOf(sp, upgrade), r.outcome, parsed);
    }
  }

  lemma SameProtocol(w: World, w': World)
    requires SameState(w, w')
    ensures (RolloutsOrdered(w) <==> RolloutsOrdered(w')) && (CacheFresh(w) <==> CacheFresh(w'))
    ensures Consistent(w) <==> Consistent(w')
  {
  }

  lemma NextRolloutsOrdered(e: Env, w: World, step: Step)
    requires Consistent(w) && RolloutsOrdered(w) && !LosesVersion(e, w, step)
    ensures RolloutsOrdered(Next(e, w, step))
  {
    if step.ReconcileRequest? {
      ReconcileCases(e, w, step.name, step.cfg);
      SameProtocol(w, Entered(w));
      if Reaches(e, w, step.name) {
        PassRolloutsOrdered(e, Entered(w), step.cfg, Reached(e, w, step.name), ForConfigMap(e, w, step.name));
        SameProtocol(PassOf(e, w, step.name, step.cfg).world, Next(e, w, step));
      }
    } else {
      EventRolloutsOrdered(w, step);
    }
  }

  lemma EventRolloutsOrdered(w: World, step: Step)
    requires Consistent(w) && RolloutsOrdered(w) && !step.ReconcileRequest?
    ensures RolloutsOrdered(Event(w, step))
  {
  }

  /** At most once: in every run in which no version gets lost, each version above 0 of a process is
      rolled out at most once, in ascending order. */
  lemma {:induction false} RunRolloutsOrdered(e: Env, steps: seq<Step>)
    requires NoVersionLost(e, steps)
    ensures RolloutsOrdered(Run(e, steps))
    decreases |steps|
  {
    if steps != [] {
      var init := steps[..|steps| - 1];
      RunConsistent(e, init);
      RunRolloutsOrdered(e, init);
      NextRolloutsOrdered(e, Run(e, init), steps[|steps| - 1]);
    }
  }

  /** No version gets lost in a run whose synchronisations, or whose other status updates, are stored. */
  lemma {:induction false} StoredKeepsVersions(e: Env, steps: seq<Step>)
    requires e.failedSyncs == {} || e.failedStatus == {}
    ensures NoVersionLost(e, steps)
    decreases |steps|
  {
    if steps != [] {
      var init, step := steps[..|steps| - 1], steps[|steps| - 1];
      StoredKeepsVersions(e, init);
      RunConsistent(e, init);
      StoredLosesNothing(e, Run(e, init), step);
    }
  }

  lemma RecordsAfter(w: World, w': World, sp: SiddhiProcess, parsed: bool)
    requires Consistent(w) && sp.name in w.kube.crs && w.kube.crs[sp.name] == sp
    requires Evolved(sp.name, w.kube.crs, w'.kube.crs) && w'.kube.crs[sp.name].status.current <= sp.status.current
    requires CachesAfter(w, w', sp, sp.status.current, Completed, parsed)
    ensures Consistent(w')
    ensures w'.rollouts[sp.name] == w.rollouts[sp.name] + (if Modified(sp.status) then [sp.status.current] else [])
    ensures w'.kube.crs[sp.name].status.current == sp.status.current
  {
    ConsistentAfter(w, w', sp, sp.status.current, Completed, parsed);
  }

  lemma CompletedVersions(e: Env, w: World, cfg: Config, sp: SiddhiProcess, w': World)
    requires Consistent(w) && sp.name in w.kube.crs && w.kube.crs[sp.name] == sp
    requires Advanced(e, w, cfg, sp, false) == Reconciled(w', Completed)
    ensures Evolved(sp.name, w.kube.crs, w'.kube.crs) && sp.name in w'.kube.crs
    ensures w'.kube.crs[sp.name].status.current == sp.status.current
    ensures Modified(w'.kube.crs[sp.name].status) <==> VersionLost(e, w, cfg, sp, false)
  {
    AdvancedStatus(e, w, cfg, sp, false);
    AdvancedVersions(e, w, cfg, sp, false);
    GetsThroughIff(e, w, cfg, sp, false);
  }

  /** A completed pass records a rollout exactly when it finds its version ahead. */
  lemma CompletedRecords(e: Env, w: World, cfg: Config, w': World, p: string)
    requires Consistent(w) && p in w.kube.crs && Advanced(e, w, cfg, w.kube.crs[p], false) == Reconciled(w', Completed)
    ensures Consistent(w') && p in w'.kube.crs
    ensures w'.rollouts[p]
            == w.rollouts[p] + (if Modified(w.kube.crs[p].status) then [w.kube.crs[p].status.current] else [])
    ensures w'.kube.crs[p].status.current == w.kube.crs[p].status.current
    ensures Modified(w'.kube.crs[p].status) <==> VersionLost(e, w, cfg, w.kube.crs[p], false)
  {
    CompletedVersions(e, w, cfg, w.kube.crs[p], w');
    var parsed := AdvancedCaches(e, w, cfg, w.kube.crs[p], false);
    RecordsAfter(w, w', w.kube.crs[p], parsed);
  }

  /** After a completed rollout of version `v`, a second completed pass with no event in between
      rolls `v` out again exactly when the first one has lost it. */
  lemma SecondRolloutIff(e: Env, w: World, cfg: Config, w': World, cfg': Config, w'': World, p: string)
    requires Consistent(w) && p in w.kube.crs && Modified(w.kube.crs[p].status)
    requires Advanced(e, w, cfg, w.kube.crs[p], false) == Reconciled(w', Completed)
    requires p in w'.kube.crs && Advanced(e, w', cfg', w'.kube.crs[p], false) == Reconciled(w'', Completed)
    ensures p in w.rollouts && p in w''.rollouts
    ensures var v := w.kube.crs[p].status.current;
            w''.rollouts[p] == w.rollouts[p] + [v, v] <==> VersionLost(e, w, cfg, w.kube.crs[p], false)
  {
    CompletedRecords(e, w, cfg, w', p);
    CompletedRecords(e, w', cfg', w'', p);
    AppendedTwice(w.rollouts[p], w.kube.crs[p].status.current, Modified(w'.kube.crs[p].status));
  }

  lemma AppendedTwice(s: seq<int>, v: int, again: bool)
    ensures (s + [v]) + (if again then [v] else []) == s + [v, v] <==> again
  {
  }

  // ---------------------------------------------------------------- application cache

  /** While no rollout is pending, the cached applications of a process were parsed from a spec
      that `Equals` does not tell from the present one. */
  ghost predicate CacheFresh(w: World) {
    forall p | p in w.kube.crs && p in w.apps && p in w.parsedSpec && !Modified(w.kube.crs[p].status) ::
      Equals(w.parsedSpec[p], w.kube.crs[p].spec)
  }

  lemma FreshAfter(w: World, w': World, sp: SiddhiProcess, version: int, outcome: Outcome, parsed: bool)
    requires Consistent(w) && CacheFresh(w) && sp.name in w.kube.crs && w.kube.crs[sp.name] == sp
    requires Evolved(sp.name, w.kube.crs, w'.kube.crs) && CachesAfter(w, w', sp, version, outcome, parsed)
    requires outcome != Completed ==> w'.kube.crs[sp.name].status.previous == sp.status.previous
    requires version >= sp.status.current
    ensures CacheFresh(w')
  {
  }

  lemma UpdateFresh(w: World, p: string, spec: Spec)
    requires Consistent(w) && CacheFresh(w)
    ensures CacheFresh(Event(w, UpdateProcess(p, spec)))
  {
    if p in w.kube.crs && p in w.parsedSpec {
      var sp, parsed := w.kube.crs[p], w.parsedSpec[p];
      AfterCompareEqual(sp.spec, spec);
      if Equals(sp.spec, spec) && Equals(parsed, sp.spec) {
        EqualsTransitive(parsed, sp.spec, spec);
        EqualsTransitive(parsed, spec, AfterCompare(sp.spec, spec));
      }
    }
  }

  lemma EventFresh(w: World, step: Step)
    requires Consistent(w) && CacheFresh(w) && !step.ReconcileRequest? && !step.UpdateProcess?
    ensures CacheFresh(Event(w, step))
  {
  }

  lemma PassFresh(e: Env, w: World, cfg: Config, sp: SiddhiProcess, upgrade: bool)
    requires Consistent(w) && CacheFresh(w) && sp.name in w.kube.crs && w.kube.crs[sp.name] == sp
    ensures CacheFresh(Found(e, w, cfg, sp, upgrade).world)
  {
    FoundEvolves(e, w, cfg, sp, upgrade);
    if TimerPass(w, sp) {
      TimerKeeps(e, w, cfg, sp, upgrade);
      TimerStatus(e, Ctl(w.kube, sp), w.apps[sp.name]);
    } else {
      AdvancedBounds(e, w, cfg, sp, upgrade);
      var parsed := AdvancedCaches(e, w, cfg, sp, upgrade);
      var r := Found(e, w, cfg, sp, upgrade);
      FreshAfter(w, r.world, sp, VersionOf(sp, upgrade), r.outcome, parsed);
    }
  }

  lemma NextCacheFresh(e: Env, w: World, step: Step)
    requires Consistent(w) && CacheFresh(w)
    ensures CacheFresh(Next(e, w, step))
  {
    if step.ReconcileRequest? {
      ReconcileCases(e, w, step.name, step.cfg);
      SameProtocol(w, Entered(w));
      if Reaches(e, w, step.name) {
        PassFresh(e, Entered(w), step.cfg, Reached(e, w, step.name), ForConfigMap(e, w, step.name));
        SameProtocol(PassOf(e, w, step.name, step.cfg).world, Next(e, w, step));
      }
    } else if step.UpdateProcess? {
      UpdateFresh(w, step.name, step.spec);
    } else {
      EventFresh(w, step);
    }
  }

  /** The cache never misses a change that `Equals` can see, in any run and whatever fails. */
  lemma {:induction false} RunCacheFresh(e: Env, steps: seq<Step>)
    ensures CacheFresh(Run(e, steps))
    decreases |steps|
  {
    if steps != [] {
      var init := steps[..|steps| - 1];
      RunConsistent(e, init);
      RunCacheFresh(e, init);
      NextCacheFresh(e, Run(e, init), steps[|steps| - 1]);
    }
  }

  // ---------------------------------------------------------------- status

  /** The step is a timer pass of `p` whose tally of available replicas says ready. */
  ghost predicate TalliesReady(e: Env, w: World, step: Step, p: string) {
    && step.ReconcileRequest? && Reaches(e, w, step.name) && Target(e, w, step.name) == p
    && TimerPass(Entered(w), Reached(e, w, step.name)) && p in w.apps
    && ReadyByTally(Tallied(e, Entered(w).kube, w.apps[p]))
  }

  /** The step is a pass of `p` that finds a newer version pending. */
  ghost predicate FindsPending(e: Env, w: World, step: Step, p: string) {
    && step.ReconcileRequest? && Reaches(e, w, step.name) && Target(e, w, step.name) == p
    && !TimerPass(Entered(w), Reached(e, w, step.name))
    && EventOf(Reached(e, w, step.name).status) == Updated
  }

  lemma EventPhase(w: World, step: Step, p: string)
    requires Consistent(w) && !step.ReconcileRequest? && p in w.kube.crs && p in Event(w, step).kube.crs
    ensures Event(w, step).kube.crs[p].status.phase == w.kube.crs[p].status.phase
  {
  }

  /** Ready is entered only by an availability check whose tally holds at that step, and the error
      phase is left only that way or by a pass that finds a newer version pending. */
  lemma PhaseProtocol(e: Env, w: World, step: Step, p: string)
    requires Consistent(w) && p in w.kube.crs && p in Next(e, w, step).kube.crs
    ensures var phase, phase' := w.kube.crs[p].status.phase, Next(e, w, step).kube.crs[p].status.phase;
            && (phase != Ready && phase' == Ready ==> TalliesReady(e, w, step, p))
            && (phase == Failed && phase' != Failed ==>
                  if phase' == Ready then TalliesReady(e, w, step, p)
                  else phase' == NotReady && FindsPending(e, w, step, p))
  {
    if step.ReconcileRequest? {
      ReconcileCases(e, w, step.name, step.cfg);
      if Reaches(e, w, step.name) {
        FoundPhase(e, Entered(w), step.cfg, Reached(e, w, step.name), ForConfigMap(e, w, step.name), p);
      }
    } else {
      EventPhase(w, step, p);
    }
  }

  lemma FoundPhase(e: Env, w: World, cfg: Config, sp: SiddhiProcess, upgrade: bool, p: string)
    requires sp.name in w.kube.crs && w.kube.crs[sp.name] == sp && VersionsOrdered(sp.status) && p in w.kube.crs
    ensures var crs' := Found(e, w, cfg, sp, upgrade).world.kube.crs;
            p in crs' && var phase, phase' := w.kube.crs[p].status.phase, crs'[p].status.phase;
              phase' != phase ==>
                && p == sp.name
                && (if TimerPass(w, sp) then
                      if phase' == Ready then ReadyByTally(Tallied(e, w.kube, w.apps[p]))
                      else phase' == NotReady && phase != Failed
                    else phase' != Ready && (phase == Failed ==> phase' == NotReady && EventOf(sp.status) == Updated))
  {
    if TimerPass(w, sp) {
      TimerStatus(e, Ctl(w.kube, sp), w.apps[sp.name]);
    } else {
      AdvancedStatus(e, w, cfg, sp, upgrade);
    }
  }

  // ---------------------------------------------------------------- starvation

  /** The last update of `p` changed nothing that `Equals` can see, and `p` is cached. */
  ghost predicate Watching(w: World, p: string) {
    p in w.kube.crs && w.kube.crs[p].status.eventType == TimerEvent && p in w.apps && w.apps[p] != []
  }

  ghost predicate Stalled(w: World, w': World, p: string)
    requires p in w.kube.crs
  {
    && p in w'.kube.crs && SameVersions(w.kube.crs[p].status, w'.kube.crs[p].status)
    && (p in w.rollouts ==> p in w'.rollouts && w'.rollouts[p] == w.rollouts[p])
  }

  lemma PassStalls(e: Env, w: World, cfg: Config, sp: SiddhiProcess, upgrade: bool, p: string)
    requires Consistent(w) && Watching(w, p) && sp.name in w.kube.crs && w.kube.crs[sp.name] == sp
    ensures var w' := Found(e, w, cfg, sp, upgrade).world; Watching(w', p) && Stalled(w, w', p)
  {
    FoundEvolves(e, w, cfg, sp, upgrade);
    if TimerPass(w, sp) {
      TimerKeeps(e, w, cfg, sp, upgrade);
      TimerStatus(e, Ctl(w.kube, sp), w.apps[sp.name]);
    } else {
      var _ := AdvancedCaches(e, w, cfg, sp, upgrade);
    }
  }

  lemma RequestStalls(e: Env, w: World, step: Step, p: string)
    requires Consistent(w) && Watching(w, p) && step.ReconcileRequest?
    ensures var w' := Next(e, w, step); Consistent(w') && Watching(w', p) && Stalled(w, w', p)
  {
    ReconcileCases(e, w, step.name, step.cfg);
    SameProtocol(w, Entered(w));
    NextConsistent(e, w, step);
    if Reaches(e, w, step.name) {
      PassStalls(e, Entered(w), step.cfg, Reached(e, w, step.name), ForConfigMap(e, w, step.name), p);
    }
  }

  function RunFrom(e: Env, w: World, steps: seq<Step>): World
    decreases |steps|
  {
    if steps == [] then w else Next(e, RunFrom(e, w, steps[..|steps| - 1]), steps[|steps| - 1])
  }

  /** An update that nobody can see starves a rollout that is pending: until the next event of its
      own, no number of passes, for it or for others, rolls the pending version out. */
  lemma {:induction false} UnseenUpdateStarvesRollout(e: Env, w: World, p: string, spec: Spec, requests: seq<Step>)
    requires Consistent(w) && p in w.kube.crs && p in w.apps && w.apps[p] != [] && Equals(w.kube.crs[p].spec, spec)
    requires forall k :: 0 <= k < |requests| ==> requests[k].ReconcileRequest?
    ensures var w1 := Event(w, UpdateProcess(p, spec));
            var w2 := RunFrom(e, w1, requests);
            && Consistent(w2) && Watching(w2, p) && Stalled(w, w2, p)
            && (Modified(w.kube.crs[p].status) ==> Modified(w2.kube.crs[p].status))
    decreases |requests|
  {
    var w1 := Event(w, UpdateProcess(p, spec));
    EventConsistent(w, UpdateProcess(p, spec));
    if requests != [] {
      var init, last := requests[..|requests| - 1], requests[|requests| - 1];
      UnseenUpdateStarvesRollout(e, w, p, spec, init);
      RequestStalls(e, RunFrom(e, w1, init), last, p);
    }
  }
}
