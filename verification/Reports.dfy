/** What the status of a process says after a check or a pass, spelled out. */
module Reports {
  import opened SiddhiTypes
  import opened Decimal
  import opened Ingress
  import opened Names
  import opened Cluster
  import opened Deployments
  import opened Controller
  import opened Operator
  import opened Conformance
  import opened StatusFlow
  import opened StoredVersions
  import opened Passes
  import opened Runs
  import opened Provisioning
  import opened Locality
  import opened Availability
  import opened Contents
  import opened Progress
  import opened Listening

  // ---------------------------------------------------------------- availability

  /** The replicas that the first `n` applications ask for. */
  function Wanted(apps: seq<Application>, n: nat): int
    requires n <= |apps|
    decreases n
  {
    if n == 0 then 0 else Wanted(apps, n - 1) + apps[n - 1].replicas
  }

  /** The available replicas of their deployments, as far as they can be read, one Get for each. */
  function Available(e: Env, k: Kube, apps: seq<Application>, n: nat): int
    requires n <= |apps|
    decreases n
  {
    if n == 0 then 0
    else
      var d := apps[n - 1].name;
      Available(e, k, apps, n - 1)
      + if k.calls + n - 1 !in e.failedReads && d in k.store.deployments then k.store.deployments[d].available else 0
  }

  lemma {:induction false} TallyTotals(e: Env, k: Kube, apps: seq<Application>, n: nat)
    requires n <= |apps|
    ensures var t := TallyUpTo(e, k, apps, n);
            t.need == Wanted(apps, n) && t.available == Available(e, k, apps, n)
    decreases n
  {
    if n > 0 {
      TallyTotals(e, k, apps, n - 1);
    }
  }

  /** The process is there, and the last status update has been stored. */
  predicate Stores(c: Ctl) {
    c.sp.name in c.kube.crs && c.kube.crs[c.sp.name].status == c.sp.status
  }

  /** The whole outcome of an availability check, whatever fails: the ready text, the phase, and whether the
      watch ends. */
  lemma CheckExact(e: Env, c: Ctl, apps: seq<Application>)
    ensures var r, n := AvailabilityChecked(e, c, apps), |apps|;
            var s, s' := c.sp.status, r.ctl.sp.status;
            && s'.ready == Itoa(Available(e, c.kube, apps, n)) + "/" + Itoa(Wanted(apps, n))
            && (r.terminate <==> Available(e, c.kube, apps, n) == Wanted(apps, n))
            && s'.phase == (if ReadyByTally(Tallied(e, c.kube, apps)) then Ready
                            else if s.phase == Failed then Failed else NotReady)
            && s' == s.(ready := s'.ready, phase := s'.phase)
            && r.ctl.sp == c.sp.(status := s') && r.ctl.kube.store == c.kube.store
            && (c.sp.name in c.kube.crs && e.failedStatus == {} ==> Stores(r.ctl))
  {
    TallyTotals(e, c.kube, apps, |apps|);
    JudgedExact(e, c.(kube := c.kube.(calls := c.kube.calls + |apps|)), Tallied(e, c.kube, apps));
  }

  /** The watch ends exactly when every deployment is there with all its replicas. */
  lemma WatchEnds(e: Env, c: Ctl, apps: seq<Application>)
    requires Plausible(e, c.kube, apps)
    ensures AvailabilityChecked(e, c, apps).terminate <==>
            forall i :: 0 <= i < |apps| ==> FullyAvailable(e, c.kube, apps, i)
  {
    TallyMeaning(e, c.kube, apps);
    JudgedExact(e, c.(kube := c.kube.(calls := c.kube.calls + |apps|)), Tallied(e, c.kube, apps));
  }

  lemma JudgedExact(e: Env, c: Ctl, t: Tally)
    ensures var r := Judged(e, c, t);
            var s, s' := c.sp.status, r.ctl.sp.status;
            && s'.ready == Itoa(t.available) + "/" + Itoa(t.need)
            && (r.terminate <==> t.available == t.need)
            && s'.phase == (if ReadyByTally(t) then Ready else if s.phase == Failed then Failed else NotReady)
            && s' == s.(ready := s'.ready, phase := s'.phase)
            && r.ctl.sp == c.sp.(status := s') && r.ctl.kube.store == c.kube.store
            && (c.sp.name in c.kube.crs && e.failedStatus == {} ==> Stores(r.ctl))
  {
    assert ReadyText(t.available, t.need) == Itoa(t.available) + "/" + Itoa(t.need);
  }

  // ---------------------------------------------------------------- missing messaging operators

  /** Whatever fails: the pass sends a warning, one more status update before it populates its applications,
      exactly when the messaging operators are missing and no earlier pass has got as far. */
  lemma WarningExact(e: Env, w: World, cfg: Config, sp: SiddhiProcess, upgrade: bool)
    ensures var g := AllAppsRead(e, w, Opened(e, w, sp, upgrade));
            && Prepared(e, w, cfg, sp, upgrade).kube.calls ==
               g.kube.calls + (if !w.messagingLogged && !cfg.natsInstalled then 1 else 0)
            && (Advanced(e, w, cfg, sp, upgrade).world.messagingLogged <==>
                w.messagingLogged || (!g.err && !cfg.natsInstalled))
  {
    var g, d := AllAppsRead(e, w, Opened(e, w, sp, upgrade)), Prepared(e, w, cfg, sp, upgrade);
    if !g.err {
      ConcludedLogs(e, w, g.listeners, cfg, d);
    }
  }

  lemma ConcludedLogs(e: Env, w: World, listeners: map<string, Listener>, cfg: Config, c: Ctl)
    ensures Concluded(e, w, listeners, cfg, c).world.messagingLogged <==> w.messagingLogged || !cfg.natsInstalled
  {
    var pop := AppsPopulated(e, cfg, c, w.apps);
    var w1 := CachesPopulated(w, listeners, cfg, c.sp, pop);
    if pop.apps.Some? {
      var r := AppsApplied(e, w1, cfg, pop.ctl, pop.apps.value).world;
      assert r == w1.(kube := r.kube, rollouts := r.rollouts);
    }
  }

  /** So the warning is sent in one pass at most: it leaves the operator logged, and no step takes that back. */
  lemma NextLogged(e: Env, w: World, step: Step)
    ensures Next(e, w, step).messagingLogged <==>
            || w.messagingLogged
            || (step.ReconcileRequest? && Reaches(e, w, step.name) && !step.cfg.natsInstalled
                && var v, sp, upgrade := Entered(w), Reached(e, w, step.name), ForConfigMap(e, w, step.name);
                   !TimerPass(v, sp) && !AllAppsRead(e, v, Opened(e, v, sp, upgrade)).err)
  {
    if step.ReconcileRequest? && Reaches(e, w, step.name) {
      WarningExact(e, Entered(w), step.cfg, Reached(e, w, step.name), ForConfigMap(e, w, step.name));
    }
  }

  // ---------------------------------------------------------------- outcomes

  /** Messaging clusters are called for: a type and nothing else is given, and some application is stateful. */
  predicate ClustersWanted(spec: Spec, apps: seq<Application>) {
    && spec.messaging.typ != "" && spec.messaging.clusterId == "" && spec.messaging.servers == []
    && exists i :: 0 <= i < |apps| && apps[i].persistenceEnabled
  }

  /** Whatever fails: how a pass ends.  It goes as far as its end unless a config map cannot be read, there are
      no applications to be had, or the messaging clusters that are called for cannot be created. */
  lemma OutcomeExact(e: Env, w: World, cfg: Config, sp: SiddhiProcess, upgrade: bool)
    ensures var c, refs := Opened(e, w, sp, upgrade), sp.spec.apps;
            var unread := exists i :: 0 <= i < |refs| && Unreadable(e, w.userConfigs, c.kube, refs, i);
            var pop := AppsPopulated(e, cfg, Prepared(e, w, cfg, sp, upgrade), w.apps);
            Advanced(e, w, cfg, sp, upgrade).outcome ==
            if unread then AppReadError
            else if pop.apps.None? then ParserFailed
            else if ClustersWanted(sp.spec, pop.apps.value)
                    && (!cfg.natsInstalled || pop.ctl.kube.calls in e.failedWrites) then MessagingFailed
            else Completed
  {
    var c, d := Opened(e, w, sp, upgrade), Prepared(e, w, cfg, sp, upgrade);
    OpenedSpec(e, w, sp, upgrade);
    var g := AllAppsRead(e, w, c);
    var _ := ReadListeners(e, w.userConfigs, AppsRead(c.kube, w.listeners, false), c.sp.name, sp.spec.apps,
                           |sp.spec.apps|);
    if !g.err {
      PreparedKeeps(e, w, cfg, sp, upgrade);
      ConcludedOutcome(e, w, g.listeners, cfg, d);
    }
  }

  // ---------------------------------------------------------------- errors of a rollout

  /** The service of application `a` or its entries in the ingress cannot be written. */
  predicate ExposeFails(e: Env, cfg: Config, event: OperationResult, c: Ctl, a: Application) {
    var r := CreateOrUpdate(e, c.kube, c.sp.name, ServiceOf(a.name, a.ports));
    || r.err
    || (cfg.autoIngress
        && var c1 := ReportIf(e, c.(kube := r.kube), event, r.op);
           CreateOrUpdate(e, c1.kube, c.sp.name, PutIngress(cfg.tls, PathsOf(a.name, a.ports))).err)
  }

  /** A round of the rollout loop fails: the volumes cannot be provided, or the application cannot be exposed.  A
      deployment that cannot be written does not count. */
  predicate RoundFails(e: Env, cfg: Config, event: OperationResult, c: Ctl, a: Application) {
    var s, d := Stage(e, c.kube, a, c.sp), Deployed(e, cfg, c.kube, a, c.sp);
    || s.err
    || (a.serviceEnabled && ExposeFails(e, cfg, event, ReportIf(e, c.(kube := d.kube), event, d.op), a))
  }

  /** Whatever fails: a round changes the working copy in nothing but the phase, which becomes the error phase
      exactly when the round fails. */
  lemma RoundShows(e: Env, cfg: Config, event: OperationResult, c: Ctl, a: Application)
    ensures RolledOut(e, cfg, event, c, a).sp ==
            if RoundFails(e, cfg, event, c, a) then c.sp.(status := c.sp.status.(phase := Failed)) else c.sp
  {
    var d := Deployed(e, cfg, c.kube, a, c.sp);
    if !d.err && a.serviceEnabled {
      ExposeShows(e, cfg, event, ReportIf(e, c.(kube := d.kube), event, d.op), a);
    }
  }

  lemma ExposeShows(e: Env, cfg: Config, event: OperationResult, c: Ctl, a: Application)
    ensures ExposeApp(e, cfg, event, c, a).sp ==
            if ExposeFails(e, cfg, event, c, a) then c.sp.(status := c.sp.status.(phase := Failed)) else c.sp
  {
  }

  /** Some round below `n` of the loop that starts at `c` fails. */
  ghost predicate SomeRoundFails(e: Env, cfg: Config, event: OperationResult, c: Ctl, apps: seq<Application>, n: nat)
    requires n <= |apps|
  {
    exists i: nat :: i < n && RoundFailsAt(e, cfg, event, c, apps, i)
  }

  predicate RoundFailsAt(e: Env, cfg: Config, event: OperationResult, c: Ctl, apps: seq<Application>, i: nat)
    requires i < |apps|
  {
    RoundFails(e, cfg, event, RolledOutUpTo(e, cfg, event, c, apps, i), apps[i])
  }

  function WithError(sp: SiddhiProcess, failed: bool): SiddhiProcess {
    if failed then sp.(status := sp.status.(phase := Failed)) else sp
  }

  lemma RoundsNext(e: Env, cfg: Config, event: OperationResult, c: Ctl, apps: seq<Application>, n: nat)
    requires n < |apps|
    requires RolledOutUpTo(e, cfg, event, c, apps, n).sp == WithError(c.sp, SomeRoundFails(e, cfg, event, c, apps, n))
    ensures RolledOutUpTo(e, cfg, event, c, apps, n + 1).sp
            == WithError(c.sp, SomeRoundFails(e, cfg, event, c, apps, n + 1))
  {
    RoundShows(e, cfg, event, RolledOutUpTo(e, cfg, event, c, apps, n), apps[n]);
    assert RoundFailsAt(e, cfg, event, c, apps, n)
      <==> RoundFails(e, cfg, event, RolledOutUpTo(e, cfg, event, c, apps, n), apps[n]);
  }

  /** Whatever fails: a rollout ends in the error phase exactly when one of its rounds fails, unless it was in it
      before, and changes nothing else in the working copy. */
  lemma RoundsShow(e: Env, cfg: Config, event: OperationResult, c: Ctl, apps: seq<Application>, n: nat)
    requires n <= |apps|
    ensures RolledOutUpTo(e, cfg, event, c, apps, n).sp == WithError(c.sp, SomeRoundFails(e, cfg, event, c, apps, n))
  {
    for i := 0 to n
      invariant RolledOutUpTo(e, cfg, event, c, apps, i).sp
                == WithError(c.sp, SomeRoundFails(e, cfg, event, c, apps, i))
    {
      RoundsNext(e, cfg, event, c, apps, i);
    }
  }

  // ---------------------------------------------------------------- refused applications

  /** Without failed calls, a round fails exactly when its application is refused, and then it is still not
      accepted after the attempt. */
  lemma RoundRefused(e: Env, cfg: Config, event: OperationResult, c: Ctl, a: Application)
    requires NoFaults(e)
    ensures RoundFails(e, cfg, event, c, a) <==> !Accepted(e, c.sp, a, Attempt(e, cfg, c.sp, a, c.kube.store))
  {
    var s := Stage(e, c.kube, a, c.sp);
    WantsClaimIff(a, c.sp.spec);
    ClaimMounted(e, c.kube, a, c.sp);
    if ClaimRefused(c.sp, a, c.kube.store) || ConfigRefused(e, c.sp, a) {
      assert s.err;
    } else {
      StageIsMount(e, c.kube, a, c.sp);
      ProvisionClaims(cfg, c.sp, a, c.kube.store);
      var d := Deployed(e, cfg, c.kube, a, c.sp);
      ExposeSucceeds(e, cfg, event, ReportIf(e, c.(kube := d.kube), event, d.op), a);
    }
  }

  lemma ExposeSucceeds(e: Env, cfg: Config, event: OperationResult, c: Ctl, a: Application)
    requires NoFaults(e)
    ensures !ExposeFails(e, cfg, event, c, a)
  {
    ApplyIsPerform(e, c.kube, c.sp.name, ServiceOf(a.name, a.ports));
    var r := CreateOrUpdate(e, c.kube, c.sp.name, ServiceOf(a.name, a.ports));
    ApplyIsPerform(e, ReportIf(e, c.(kube := r.kube), event, r.op).kube, c.sp.name,
                   PutIngress(cfg.tls, PathsOf(a.name, a.ports)));
  }

  /** Once application `j` has been attempted, its claim neither comes nor goes. */
  predicate ClaimAlike(s: Store, t: Store, a: Application) {
    ClaimName(a.name) in t.claims <==> ClaimName(a.name) in s.claims
  }

  lemma ClaimsNext(e: Env, cfg: Config, sp: SiddhiProcess, apps: seq<Application>, j: nat, n: nat, s: Store,
                   was: Store)
    requires Named(sp.name, apps) && j < n < |apps| && ClaimAlike(was, AttemptAll(e, cfg, sp, apps, n, s), apps[j])
    ensures ClaimAlike(was, AttemptAll(e, cfg, sp, apps, n + 1, s), apps[j])
  {
    AttemptStep(e, cfg, sp, apps, n + 1, s);
    AttemptClaims(e, cfg, sp, apps[n], AttemptAll(e, cfg, sp, apps, n, s));
    if ClaimName(apps[j].name) == ClaimName(apps[n].name) {
      ClaimNameInjective(apps[j].name, apps[n].name);
      AppNameInjective(sp.name, j, sp.name, n);
    }
  }

  lemma ClaimsSettle(e: Env, cfg: Config, sp: SiddhiProcess, apps: seq<Application>, j: nat, s: Store, was: Store)
    requires Named(sp.name, apps) && j < |apps| && was == AttemptAll(e, cfg, sp, apps, j + 1, s)
    ensures ClaimAlike(was, AttemptAll(e, cfg, sp, apps, |apps|, s), apps[j])
  {
    for i := j + 1 to |apps|
      invariant ClaimAlike(was, AttemptAll(e, cfg, sp, apps, i, s), apps[j])
    {
      ClaimsNext(e, cfg, sp, apps, j, i, s, was);
    }
  }

  /** Some application is not accepted in the end. */
  ghost predicate SomeRefused(e: Env, sp: SiddhiProcess, apps: seq<Application>, s: Store) {
    exists i :: 0 <= i < |apps| && !Accepted(e, sp, apps[i], s)
  }

  lemma RoundRefusedAt(e: Env, cfg: Config, event: OperationResult, c: Ctl, apps: seq<Application>, i: nat)
    requires NoFaults(e) && Named(c.sp.name, apps) && i < |apps|
    ensures RoundFailsAt(e, cfg, event, c, apps, i) <==>
            !Accepted(e, c.sp, apps[i], AttemptAll(e, cfg, Core(c.sp), apps, |apps|, c.kube.store))
  {
    var q := InStep(e, cfg, event, c, apps, i);
    var core, s := Core(c.sp), c.kube.store;
    RoundRefused(e, cfg, event, q, apps[i]);
    CoreAttempt(e, cfg, q.sp, apps[i], q.kube.store);
    AttemptStep(e, cfg, core, apps, i + 1, s);
    var was := AttemptAll(e, cfg, core, apps, i + 1, s);
    ClaimsSettle(e, cfg, core, apps, i, s, was);
    AcceptedAlike(e, q.sp, c.sp, apps[i], was, AttemptAll(e, cfg, core, apps, |apps|, s));
  }

  lemma AcceptedAlike(e: Env, sp: SiddhiProcess, sp': SiddhiProcess, a: Application, s: Store, t: Store)
    requires Core(sp) == Core(sp') && ClaimAlike(s, t, a)
    ensures Accepted(e, sp, a, s) <==> Accepted(e, sp', a, t)
  {
    assert sp.spec == Core(sp).spec && sp'.spec == Core(sp').spec;
  }

  lemma RefusedShows(e: Env, cfg: Config, event: OperationResult, c: Ctl, apps: seq<Application>)
    requires NoFaults(e) && Named(c.sp.name, apps)
    ensures SomeRoundFails(e, cfg, event, c, apps, |apps|) <==>
            SomeRefused(e, c.sp, apps, RolledOutUpTo(e, cfg, event, c, apps, |apps|).kube.store)
  {
    RolloutRefinesAttempts(e, cfg, event, c, apps, |apps|);
    var t := AttemptAll(e, cfg, Core(c.sp), apps, |apps|, c.kube.store);
    forall i: nat | i < |apps|
      ensures RoundFailsAt(e, cfg, event, c, apps, i) <==> !Accepted(e, c.sp, apps[i], t)
    {
      RoundRefusedAt(e, cfg, event, c, apps, i);
    }
    if SomeRoundFails(e, cfg, event, c, apps, |apps|) {
      var i: nat :| i < |apps| && RoundFailsAt(e, cfg, event, c, apps, i);
      assert !Accepted(e, c.sp, apps[i], t);
    }
    if SomeRefused(e, c.sp, apps, t) {
      var i :| 0 <= i < |apps| && !Accepted(e, c.sp, apps[i], t);
      assert RoundFailsAt(e, cfg, event, c, apps, i);
    }
  }

  // ---------------------------------------------------------------- a pass

  /** The phase with which a pass begins: pending for a process that has never had one, not ready while a newer
      version is pending, and otherwise the one it had. */
  function EntryPhase(s: Status): Phase {
    if s.current == 0 && s.phase == Unset then Pending
    else if s.current != 0 && s.current > s.previous then NotReady
    else s.phase
  }

  /** The status lists each application by name with its Siddhi applications. */
  ghost predicate Listed(parts: seq<PartialApp>, apps: seq<Application>) {
    && |parts| == |apps|
    && forall i :: 0 <= i < |apps| ==>
         parts[i].deploymentName == apps[i].name
         && forall text :: text in parts[i].apps <==> exists k :: k in apps[i].apps && apps[i].apps[k] == text
  }

  lemma PartialAppsListed(apps: seq<Application>)
    ensures Listed(PartialApps(apps), apps)
  {
  }

  /** The working copy when a pass is about to populate its applications. */
  lemma PreparedStatus(e: Env, w: World, cfg: Config, sp: SiddhiProcess, upgrade: bool)
    ensures var d := Prepared(e, w, cfg, sp, upgrade);
            d.sp == Opened(e, w, sp, upgrade).sp
            == sp.(status := sp.status.(phase := EntryPhase(sp.status), current := VersionOf(sp, upgrade)))
  {
    PreparedKeeps(e, w, cfg, sp, upgrade);
  }

  lemma RescaledNext(e: Env, c: Ctl, a: Application)
    requires NoFaults(e)
    ensures var r := Rescaled(e, c, a);
            r.sp == c.sp && r.kube.crs == c.kube.crs && r.kube.store.claims == c.kube.store.claims
  {
  }

  lemma {:induction false} RescaledKeepsStatus(e: Env, c: Ctl, apps: seq<Application>, n: nat)
    requires NoFaults(e) && n <= |apps|
    ensures var r := RescaledUpTo(e, c, apps, n);
            r.sp == c.sp && r.kube.crs == c.kube.crs && r.kube.store.claims == c.kube.store.claims
    decreases n
  {
    if n > 0 {
      RescaledKeepsStatus(e, c, apps, n - 1);
      RescaledNext(e, RescaledUpTo(e, c, apps, n - 1), apps[n - 1]);
    }
  }

  /** The working copy after a rollout without failed calls: versions synchronised, the applications listed, none
      of them available yet, and the error phase if one is refused. */
  lemma CreatedStatus(e: Env, cfg: Config, c: Ctl, apps: seq<Application>)
    requires NoFaults(e) && Named(c.sp.name, apps) && c.sp.name in c.kube.crs
    ensures var r, event := ArtifactsCreated(e, cfg, c, apps), EventOf(c.sp.status);
            var s, s' := c.sp.status, r.sp.status;
            && r.sp == c.sp.(status := s') && Stores(r)
            && s' == s.(previous := s.current, partialApps := PartialApps(apps), phase := s'.phase, ready := s'.ready)
            && s'.phase == (if event != Unchanged && SomeRefused(e, c.sp, apps, r.kube.store) then Failed else s.phase)
            && s'.ready == (if event != Unchanged then "0/" + Itoa(|apps|) else s.ready)
  {
    var event, c1 := EventOf(c.sp.status), ReportPartialApps(e, c, apps);
    var c2 := Rollouts(e, cfg, event, c, apps);
    RolloutsQuiet(e, cfg, event, c, apps);
    if event != Unchanged {
      RoundsShow(e, cfg, event, c1, apps, |apps|);
      RefusedShows(e, cfg, event, c1, apps);
      RefusedAlike(e, c1.sp, c.sp, apps, c2.kube.store);
      ReadyZero(|apps|);
    }
  }

  lemma ReadyZero(n: nat)
    ensures ReadyText(0, n) == "0/" + Itoa(n)
  {
    assert Itoa(0) == "0";
  }

  lemma RefusedAlike(e: Env, sp: SiddhiProcess, sp': SiddhiProcess, apps: seq<Application>, s: Store)
    requires Core(sp) == Core(sp')
    ensures SomeRefused(e, sp, apps, s) <==> SomeRefused(e, sp', apps, s)
  {
    assert sp.spec == Core(sp).spec && sp'.spec == Core(sp').spec;
    forall i | 0 <= i < |apps| ensures Accepted(e, sp, apps[i], s) <==> Accepted(e, sp', apps[i], s) {
    }
  }

  /** What the stored status says after a pass that has got as far as its end. */
  ghost predicate ReportsCompletion(e: Env, s: Status, s': Status, sp: SiddhiProcess, version: int,
                                    apps: seq<Application>, t: Store) {
    var rolled := version == 0 || version > s.previous;
    && s'.current == s'.previous == version && s'.eventType == s.eventType
    && Listed(s'.partialApps, apps)
    && s'.ready == (if rolled then "0/" + Itoa(|apps|) else s.ready)
    && s'.phase == (if rolled && SomeRefused(e, sp, apps, t) then Failed else EntryPhase(s))
  }

  lemma AppliedReports(e: Env, w: World, cfg: Config, c: Ctl, apps: seq<Application>, s: Status)
    requires NoFaults(e) && Named(c.sp.name, apps) && c.sp.name in c.kube.crs
    requires c.sp.status == s.(phase := EntryPhase(s), current := c.sp.status.current)
    requires 0 <= s.previous <= c.sp.status.current
    ensures var r, p, version := AppsApplied(e, w, cfg, c, apps), c.sp.name, c.sp.status.current;
            && p in r.world.kube.crs
            && var s' := r.world.kube.crs[p].status;
               if r.outcome == Completed then ReportsCompletion(e, s, s', c.sp, version, apps, r.world.kube.store)
               else s' == s.(phase := Failed, current := version)
  {
    var c0 := Messaged(c, apps);
    if !MessagingFails(e, cfg, c, apps) {
      CreatedStatus(e, cfg, c0, apps);
      var c1 := ArtifactsCreated(e, cfg, c0, apps);
      RescaledKeepsStatus(e, c1, apps, |apps|);
      PartialAppsListed(apps);
      var t, t' := c1.kube.store, AppsApplied(e, w, cfg, c, apps).world.kube.store;
      forall i | 0 <= i < |apps| ensures Accepted(e, c.sp, apps[i], t) <==> Accepted(e, c.sp, apps[i], t') {
      }
    }
  }

  lemma PopulatedSame(e: Env, cfg: Config, c: Ctl, cache: map<string, seq<Application>>)
    requires CacheNamed(cache, c.sp.name) && c.sp.status.previous >= 0 && c.sp.name in c.kube.crs
    ensures var pop := AppsPopulated(e, cfg, c, cache);
            && pop.ctl.sp == c.sp && c.sp.name in pop.ctl.kube.crs
            && (pop.apps.Some? ==> Named(c.sp.name, pop.apps.value))
  {
    var _, _ := PopulatedTraced(e, cfg, c, cache);
    PopulatedQuiet(e, cfg, c, cache);
  }

  lemma ConcludedReports(e: Env, w: World, listeners: map<string, Listener>, cfg: Config, c: Ctl, s: Status)
    requires NoFaults(e) && CacheNamed(w.apps, c.sp.name) && c.sp.name in c.kube.crs
    requires c.sp.status == s.(phase := EntryPhase(s), current := c.sp.status.current)
    requires 0 <= s.previous <= c.sp.status.current
    ensures var r, p, version := Concluded(e, w, listeners, cfg, c), c.sp.name, c.sp.status.current;
            && p in r.world.kube.crs
            && var s' := r.world.kube.crs[p].status;
               if r.outcome == Completed then
                 p in r.world.apps && ReportsCompletion(e, s, s', c.sp, version, r.world.apps[p], r.world.kube.store)
               else s' == s.(phase := Failed, current := version)
  {
    var pop := AppsPopulated(e, cfg, c, w.apps);
    PopulatedSame(e, cfg, c, w.apps);
    if pop.apps.Some? {
      var w1 := CachesPopulated(w, listeners, cfg, c.sp, pop);
      AppliedReports(e, w1, cfg, pop.ctl, pop.apps.value, s);
      AppliedCaches(e, w1, cfg, pop.ctl, pop.apps.value);
      PopulatedCache(w, listeners, cfg, c.sp, pop);
    }
  }

  lemma PopulatedCache(w: World, listeners: map<string, Listener>, cfg: Config, sp: SiddhiProcess, pop: Populated)
    requires pop.apps.Some? && (!pop.parsed ==> sp.name in w.apps && pop.apps.value == w.apps[sp.name])
    ensures var w1 := CachesPopulated(w, listeners, cfg, sp, pop);
            sp.name in w1.apps && w1.apps[sp.name] == pop.apps.value
  {
  }

  lemma AdvancedReports(e: Env, w: World, cfg: Config, sp: SiddhiProcess, upgrade: bool)
    requires NoFaults(e) && Consistent(w) && sp.name in w.kube.crs && w.kube.crs[sp.name] == sp
    ensures var r, p, version := Advanced(e, w, cfg, sp, upgrade), sp.name, VersionOf(sp, upgrade);
            && p in r.world.kube.crs
            && var s' := r.world.kube.crs[p].status;
               if r.outcome == Completed then
                 p in r.world.apps
                 && ReportsCompletion(e, sp.status, s', sp, version, r.world.apps[p], r.world.kube.store)
               else s' == sp.status.(phase := Failed, current := version)
  {
    var c, d := Opened(e, w, sp, upgrade), Prepared(e, w, cfg, sp, upgrade);
    var g := AllAppsRead(e, w, c);
    PreparedStatus(e, w, cfg, sp, upgrade);
    PreparedQuiet(e, w, cfg, sp, upgrade);
    OpenedTracksName(e, w, sp, upgrade);
    if g.err {
      assert Advanced(e, w, cfg, sp, upgrade).world.kube == ReportError(e, c.(kube := g.kube)).kube;
    } else {
      ConcludedReports(e, w, g.listeners, cfg, d, sp.status);
      ReportsAlike(e, w, g.listeners, cfg, d, sp);
    }
  }

  /** Only the spec matters for what is refused. */
  lemma ReportsAlike(e: Env, w: World, listeners: map<string, Listener>, cfg: Config, c: Ctl, sp: SiddhiProcess)
    requires c.sp == sp.(status := c.sp.status)
    ensures forall apps, t :: SomeRefused(e, c.sp, apps, t) <==> SomeRefused(e, sp, apps, t)
  {
    forall apps: seq<Application>, t, i | 0 <= i < |apps|
      ensures Accepted(e, c.sp, apps[i], t) <==> Accepted(e, sp, apps[i], t)
    {
    }
  }

  /** The stored status after a pass in which no call fails, whatever has failed before.  When the pass ends early,
      because a config map, an answer of the parser or the messaging system is missing, it shows the error phase.
      When it gets as far as its end, it names the version as rolled out, lists the applications, counts none of
      them as available yet after a rollout, and shows the error phase exactly when a rollout has refused an
      application; otherwise the phase with which the pass has begun. */
  lemma PassReports(e: Env, w: World, request: string, cfg: Config)
    requires Calm(e, w.kube.calls, Reconcile(e, w, request, cfg).world.kube.calls)
    requires Consistent(w) && Reaches(e, w, request) && !TimerPass(Entered(w), Reached(e, w, request))
    ensures var r, p, sp := Reconcile(e, w, request, cfg), Target(e, w, request), Reached(e, w, request);
            var version := VersionOf(sp, ForConfigMap(e, w, request));
            && p in r.world.kube.crs
            && var s' := r.world.kube.crs[p].status;
               if r.outcome == Completed then
                 p in r.world.apps
                 && ReportsCompletion(e, sp.status, s', sp, version, r.world.apps[p], r.world.kube.store)
               else s' == sp.status.(phase := Failed, current := version)
  {
    var lo, hi := w.kube.calls, Reconcile(e, w, request, cfg).world.kube.calls;
    var e' := Only(e, lo, hi);
    OnlyAgrees(e, lo, hi);
    ReconcileLocal(e, e', hi, w, request, cfg);
    ReachLocal(e, e', hi, w, request);
    ReconcileCases(e', w, request, cfg);
    AdvancedReports(e', Entered(w), cfg, Reached(e', w, request), ForConfigMap(e', w, request));
    RefusalsAlike(e, e');
  }

  lemma RefusalsAlike(e: Env, e': Env)
    requires e.badYaml == e'.badYaml
    ensures forall sp, apps, t :: SomeRefused(e, sp, apps, t) <==> SomeRefused(e', sp, apps, t)
  {
    forall sp, apps: seq<Application>, t, i | 0 <= i < |apps|
      ensures Accepted(e, sp, apps[i], t) <==> Accepted(e', sp, apps[i], t)
    {
    }
  }
}
