/** Which runs roll a version out twice, or an older one after a newer one. */
module Repetitions {
  import opened SiddhiTypes
  import opened Cluster
  import opened Deployments
  import opened Controller
  import opened Operator
  import opened StatusFlow
  import opened LostUpdates
  import opened StoredVersions
  import opened Runs
  import opened Protocol

  /** The version that the pass of a reconcile request works on. */
  function VersionAt(e: Env, w: World, step: Step): int
    requires step.ReconcileRequest? && Reaches(e, w, step.name)
  {
    VersionOf(Reached(e, w, step.name), ForConfigMap(e, w, step.name))
  }

  /** The step is a pass of `p` that rolls a version out: it is no timer pass, finds a newer version and gets
      as far as its end. */
  predicate RollsOut(e: Env, w: World, step: Step, p: string) {
    && step.ReconcileRequest? && Reaches(e, w, step.name) && Target(e, w, step.name) == p
    && var sp, upgrade := Reached(e, w, step.name), ForConfigMap(e, w, step.name);
       && !TimerPass(Entered(w), sp) && VersionOf(sp, upgrade) > sp.status.previous
       && GetsThrough(e, Entered(w), step.cfg, sp, upgrade)
  }

  /** The versions of `p` that have been rolled out and lost since `p` was created, after one more step. */
  function LostAfter(e: Env, w: World, step: Step, p: string, lost: set<int>): set<int> {
    if step == DeleteProcess(p) then {}
    else if RollsOut(e, w, step, p) && LosesVersion(e, w, step) then lost + {VersionAt(e, w, step)}
    else lost
  }

  function Lost(e: Env, steps: seq<Step>, p: string): set<int>
    decreases |steps|
  {
    if steps == [] then {}
    else
      var init := steps[..|steps| - 1];
      LostAfter(e, Run(e, init), steps[|steps| - 1], p, Lost(e, init, p))
  }

  // ---------------------------------------------------------------- one step

  /** From `w` to `w'` the version of the step is added to the rollouts of `p` if the step rolls it out, and it
      is the previous version then unless it has been lost. */
  ghost predicate Moved(e: Env, w: World, step: Step, p: string, w': World)
    requires p in w.kube.crs
  {
    && p in w'.kube.crs && p in w.rollouts && p in w'.rollouts
    && var previous, previous' := w.kube.crs[p].status.previous, w'.kube.crs[p].status.previous;
       if RollsOut(e, w, step, p) then
         && w'.rollouts[p] == w.rollouts[p] + [VersionAt(e, w, step)] && previous < VersionAt(e, w, step)
         && previous' == (if LosesVersion(e, w, step) then previous else VersionAt(e, w, step))
       else w'.rollouts[p] == w.rollouts[p] && previous <= previous'
  }

  lemma NextRollouts(e: Env, w: World, step: Step, p: string)
    requires Consistent(w) && p in w.kube.crs && step != DeleteProcess(p)
    ensures Moved(e, w, step, p, Next(e, w, step))
  {
    if step.ReconcileRequest? {
      RequestRollouts(e, w, step, p, Next(e, w, step));
    } else {
      EventRollouts(e, w, step, p);
    }
  }

  lemma EventRollouts(e: Env, w: World, step: Step, p: string)
    requires Consistent(w) && p in w.kube.crs && step != DeleteProcess(p) && !step.ReconcileRequest?
    ensures Moved(e, w, step, p, Event(w, step))
  {
    EventKeepsRollouts(w, step, p, Event(w, step));
  }

  lemma EventKeepsRollouts(w: World, step: Step, p: string, w': World)
    requires p in w.kube.crs && p in w.rollouts && !step.ReconcileRequest? && w' == Event(w, step)
    requires step.DeleteProcess? ==> step.name != p
    ensures p in w'.kube.crs && p in w'.rollouts && w'.rollouts[p] == w.rollouts[p]
    ensures w'.kube.crs[p].status.previous == w.kube.crs[p].status.previous
  {
    match step
    case CreateProcess(_, _) =>
    case UpdateProcess(_, _) =>
    case DeleteProcess(n) =>
      assert w' == w || (w'.kube.crs == w.kube.crs - {n} && w'.rollouts == w.rollouts - {n});
    case PutUserConfig(_, _) =>
    case DropUserConfig(_) =>
    case Observe(_, _) =>
      assert w'.kube.crs == w.kube.crs;
  }

  lemma RequestRollouts(e: Env, w: World, step: Step, p: string, w': World)
    requires Consistent(w) && p in w.kube.crs && step.ReconcileRequest?
    requires w' == Reconcile(e, w, step.name, step.cfg).world
    ensures Moved(e, w, step, p, w')
  {
    ReconcileCases(e, w, step.name, step.cfg);
    if Reaches(e, w, step.name) {
      PassRollouts(e, w, step, p);
      MovedAlike(e, w, step, p, PassOf(e, w, step.name, step.cfg).world, w');
    }
  }

  lemma MovedAlike(e: Env, w: World, step: Step, p: string, v: World, v': World)
    requires p in w.kube.crs && Moved(e, w, step, p, v) && SameState(v, v')
    ensures Moved(e, w, step, p, v')
  {
  }

  lemma PassRollouts(e: Env, w: World, step: Step, p: string)
    requires Consistent(w) && p in w.kube.crs && step.ReconcileRequest? && Reaches(e, w, step.name)
    ensures Moved(e, w, step, p, PassOf(e, w, step.name, step.cfg).world)
  {
    var v, sp, upgrade := Entered(w), Reached(e, w, step.name), ForConfigMap(e, w, step.name);
    FoundEvolves(e, v, step.cfg, sp, upgrade);
    if TimerPass(v, sp) {
      TimerKeeps(e, v, step.cfg, sp, upgrade);
    } else {
      AdvancedRollouts(e, v, step.cfg, sp, upgrade);
    }
  }

  lemma AdvancedRollouts(e: Env, w: World, cfg: Config, sp: SiddhiProcess, upgrade: bool)
    requires Consistent(w) && sp.name in w.kube.crs && w.kube.crs[sp.name] == sp
    ensures var w', v := Advanced(e, w, cfg, sp, upgrade).world, VersionOf(sp, upgrade);
            && sp.name in w'.kube.crs && sp.name in w.rollouts
            && (if GetsThrough(e, w, cfg, sp, upgrade) && v > sp.status.previous then
                  && w'.rollouts == w.rollouts[sp.name := w.rollouts[sp.name] + [v]]
                  && w'.kube.crs[sp.name].status.previous ==
                     (if VersionLost(e, w, cfg, sp, upgrade) then sp.status.previous else v)
                else w'.rollouts == w.rollouts)
  {
    GetsThroughIff(e, w, cfg, sp, upgrade);
    AdvancedVersions(e, w, cfg, sp, upgrade);
    var _ := AdvancedCaches(e, w, cfg, sp, upgrade);
  }

  // ---------------------------------------------------------------- what has been rolled out

  /** Whatever has been rolled out of `p` is covered by its previous version or has been lost, and what has
      been lost has been rolled out. */
  ghost predicate Accounted(w: World, p: string, lost: set<int>) {
    if p in w.kube.crs then
      && p in w.rollouts
      && (forall v | v in w.rollouts[p] :: v <= w.kube.crs[p].status.previous || v in lost)
      && (forall v | v in lost :: v in w.rollouts[p])
    else lost == {}
  }

  lemma NextAccounted(e: Env, w: World, step: Step, p: string, lost: set<int>)
    requires Consistent(w) && Accounted(w, p, lost)
    ensures Accounted(Next(e, w, step), p, LostAfter(e, w, step, p, lost))
  {
    if p in w.kube.crs && step != DeleteProcess(p) {
      NextRollouts(e, w, step, p);
      MovedAccounted(e, w, step, p, lost, Next(e, w, step));
    } else if step.ReconcileRequest? {
      StrangerAccounted(e, w, step, p);
    } else {
      EventAccounted(e, w, step, p);
    }
  }

  lemma MovedAccounted(e: Env, w: World, step: Step, p: string, lost: set<int>, w': World)
    requires p in w.kube.crs && step != DeleteProcess(p) && Accounted(w, p, lost) && Moved(e, w, step, p, w')
    ensures Accounted(w', p, LostAfter(e, w, step, p, lost))
  {
  }

  lemma EventAccounted(e: Env, w: World, step: Step, p: string)
    requires (p !in w.kube.crs || step == DeleteProcess(p)) && !step.ReconcileRequest?
    ensures Accounted(Event(w, step), p, {})
  {
  }

  lemma StrangerAccounted(e: Env, w: World, step: Step, p: string)
    requires Consistent(w) && p !in w.kube.crs && step.ReconcileRequest?
    ensures p !in Next(e, w, step).kube.crs && !RollsOut(e, w, step, p)
  {
    ReconcileCases(e, w, step.name, step.cfg);
    if Reaches(e, w, step.name) {
      FoundEvolves(e, Entered(w), step.cfg, Reached(e, w, step.name), ForConfigMap(e, w, step.name));
    }
  }

  lemma {:induction false} RunAccounted(e: Env, steps: seq<Step>, p: string)
    ensures Accounted(Run(e, steps), p, Lost(e, steps, p))
    decreases |steps|
  {
    if steps != [] {
      var init := steps[..|steps| - 1];
      RunAccounted(e, init, p);
      RunConsistent(e, init);
      NextAccounted(e, Run(e, init), steps[|steps| - 1], p, Lost(e, init, p));
    }
  }

  // ---------------------------------------------------------------- at most once

  ghost predicate NoRepetition(s: seq<int>) {
    forall i, j :: 0 <= i < j < |s| ==> s[i] != s[j]
  }

  /** In no state between two steps of the run has a version of `p` been rolled out twice. */
  ghost predicate NeverRepeats(e: Env, steps: seq<Step>, p: string)
    decreases |steps|
  {
    && (p in Run(e, steps).rollouts ==> NoRepetition(Run(e, steps).rollouts[p]))
    && (steps == [] || NeverRepeats(e, steps[..|steps| - 1], p))
  }

  /** No pass of `p` in the run rolls out a version that an earlier one has lost. */
  predicate RedoesNothing(e: Env, steps: seq<Step>, p: string)
    decreases |steps|
  {
    steps == []
    || var init, step := steps[..|steps| - 1], steps[|steps| - 1];
       && RedoesNothing(e, init, p)
       && (RollsOut(e, Run(e, init), step, p) ==> VersionAt(e, Run(e, init), step) !in Lost(e, init, p))
  }

  lemma AppendedOnceIff(s: seq<int>, v: int)
    requires NoRepetition(s)
    ensures NoRepetition(s + [v]) <==> v !in s
  {
    if v in s {
      var i :| 0 <= i < |s| && s[i] == v;
      assert (s + [v])[i] == (s + [v])[|s|];
    }
  }

  lemma NextRepeatsIff(e: Env, w: World, step: Step, p: string, lost: set<int>)
    requires Consistent(w) && Accounted(w, p, lost) && (p in w.rollouts ==> NoRepetition(w.rollouts[p]))
    ensures var w' := Next(e, w, step);
            (p in w'.rollouts ==> NoRepetition(w'.rollouts[p]))
            <==> (RollsOut(e, w, step, p) ==> VersionAt(e, w, step) !in lost)
  {
    if p in w.kube.crs && step != DeleteProcess(p) {
      NextRollouts(e, w, step, p);
      if RollsOut(e, w, step, p) {
        AppendedOnceIff(w.rollouts[p], VersionAt(e, w, step));
      }
    } else if step.ReconcileRequest? {
      StrangerAccounted(e, w, step, p);
      NextConsistent(e, w, step);
    }
  }

  /** At most once, exactly: in a run, whatever fails in it, no version of a process is ever rolled out twice
      exactly when no pass finds a version pending that an earlier pass has rolled out and lost. */
  lemma {:induction false} RunAtMostOnceIff(e: Env, steps: seq<Step>, p: string)
    ensures NeverRepeats(e, steps, p) <==> RedoesNothing(e, steps, p)
    decreases |steps|
  {
    if steps != [] {
      var init := steps[..|steps| - 1];
      RunAtMostOnceIff(e, init, p);
      if NeverRepeats(e, init, p) {
        RunConsistent(e, init);
        RunAccounted(e, init, p);
        NextRepeatsIff(e, Run(e, init), steps[|steps| - 1], p, Lost(e, init, p));
      }
    }
  }

  // ---------------------------------------------------------------- in ascending order

  /** In every state between two steps of the run the rollouts of `p` are in ascending order. */
  ghost predicate AlwaysAscends(e: Env, steps: seq<Step>, p: string)
    decreases |steps|
  {
    && (p in Run(e, steps).rollouts ==> StrictlyIncreasing(Run(e, steps).rollouts[p]))
    && (steps == [] || AlwaysAscends(e, steps[..|steps| - 1], p))
  }

  /** Every pass of `p` in the run rolls out a version above all that earlier ones have lost. */
  ghost predicate OutrunsLosses(e: Env, steps: seq<Step>, p: string)
    decreases |steps|
  {
    steps == []
    || var init, step := steps[..|steps| - 1], steps[|steps| - 1];
       && OutrunsLosses(e, init, p)
       && (RollsOut(e, Run(e, init), step, p) ==>
             forall v | v in Lost(e, init, p) :: v < VersionAt(e, Run(e, init), step))
  }

  lemma AppendedAboveIff(s: seq<int>, v: int)
    requires StrictlyIncreasing(s)
    ensures StrictlyIncreasing(s + [v]) <==> forall x | x in s :: x < v
  {
    forall x | x in s && StrictlyIncreasing(s + [v]) ensures x < v {
      var i :| 0 <= i < |s| && s[i] == x;
      assert (s + [v])[i] < (s + [v])[|s|];
    }
    if forall x | x in s :: x < v {
      forall i, j | 0 <= i < j < |s + [v]| ensures (s + [v])[i] < (s + [v])[j] {
        assert s[i] in s;
      }
    }
  }

  lemma NextAscendsIff(e: Env, w: World, step: Step, p: string, lost: set<int>)
    requires Consistent(w) && Accounted(w, p, lost) && (p in w.rollouts ==> StrictlyIncreasing(w.rollouts[p]))
    ensures var w' := Next(e, w, step);
            (p in w'.rollouts ==> StrictlyIncreasing(w'.rollouts[p]))
            <==> (RollsOut(e, w, step, p) ==> forall v | v in lost :: v < VersionAt(e, w, step))
  {
    if p in w.kube.crs && step != DeleteProcess(p) {
      NextRollouts(e, w, step, p);
      if RollsOut(e, w, step, p) {
        AppendedAboveIff(w.rollouts[p], VersionAt(e, w, step));
      }
    } else if step.ReconcileRequest? {
      StrangerAccounted(e, w, step, p);
      NextConsistent(e, w, step);
    }
  }

  /** The order, exactly: the versions of a process are rolled out in ascending order throughout a run exactly
      when every pass works on a version above all those that earlier passes have lost. */
  lemma {:induction false} RunAscendingIff(e: Env, steps: seq<Step>, p: string)
    ensures AlwaysAscends(e, steps, p) <==> OutrunsLosses(e, steps, p)
    decreases |steps|
  {
    if steps != [] {
      var init := steps[..|steps| - 1];
      RunAscendingIff(e, init, p);
      if AlwaysAscends(e, init, p) {
        RunConsistent(e, init);
        RunAccounted(e, init, p);
        NextAscendsIff(e, Run(e, init), steps[|steps| - 1], p, Lost(e, init, p));
      }
    }
  }
}
