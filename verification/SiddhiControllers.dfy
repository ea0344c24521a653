/** The controller of one SiddhiProcess as an object that updates its working copy and the cluster
    step by step. */
module SiddhiControllers {
  import opened SiddhiTypes
  import opened Ingress
  import opened Decimal
  import opened Names
  import opened Cluster
  import opened Deployments
  import opened Controller

  class SiddhiController {
    const client: KubeClient
    const config: Config
    var process: SiddhiProcess

    constructor (client: KubeClient, config: Config, process: SiddhiProcess)
      ensures this.client == client && this.config == config && this.process == process
    {
      this.client, this.config, this.process := client, config, process;
    }

    /** The state that the specification functions work on. */
    function State(): Ctl
      reads this, client
    {
      Ctl(client.kube, process)
    }

    method UpdateStatus(failed: set<nat>)
      modifies client
      ensures State() == SaveStatus(failed, old(State()))
    {
      var k := client.kube;
      var ok := k.calls !in failed && process.name in k.crs;
      client.CountCall();
      if ok {
        client.kube := client.kube.(crs := k.crs[process.name := k.crs[process.name].(status := process.status)],
                                    stored := k.stored + 1);
      }
    }

    method SetPhase(phase: Phase)
      modifies this, client
      ensures State() == EnterPhase(client.env, old(State()), phase)
    {
      process := process.(status := process.status.(phase := phase));
      UpdateStatus(client.env.failedStatus);
    }

    method UpdateErrorStatus()
      modifies this, client
      ensures State() == ReportError(client.env, old(State()))
    {
      SetPhase(Failed);
    }

    method UpdateRunningStatus()
      modifies client
      ensures State() == Report(client.env, old(State()))
    {
      UpdateStatus(client.env.failedStatus);
    }

    method UpdateReadyDeployments(available: int, need: int)
      modifies this, client
      ensures State() == ReportReady(client.env, old(State()), available, need)
    {
      process := process.(status := process.status.(ready := Itoa(available) + "/" + Itoa(need)));
      UpdateStatus(client.env.failedStatus);
    }

    method UpdatePartialAppStatus(applications: seq<Application>)
      modifies this, client
      ensures State() == ReportPartialApps(client.env, old(State()), applications)
    {
      var partialApps: seq<PartialApp> := [];
      for i := 0 to |applications|
        invariant partialApps == PartialApps(applications[..i])
      {
        assert applications[..i + 1] == applications[..i] + [applications[i]];
        partialApps := partialApps + [PartialApp(applications[i].name, applications[i].apps.Values)];
      }
      assert applications[..|applications|] == applications;
      process := process.(status := process.status.(partialApps := partialApps));
      UpdateStatus(client.env.failedStatus);
    }

    method SyncVersion()
      modifies this, client
      ensures State() == Synced(client.env, old(State()))
    {
      process := process.(status := process.status.(previous := process.status.current));
      UpdateStatus(client.env.failedSyncs);
    }

    method UpgradeVersion()
      modifies this, client
      ensures State() == Upgraded(client.env, old(State()))
    {
      process := process.(status := process.status.(current := process.status.current + 1));
      UpdateStatus(client.env.failedUpgrades);
    }

    method SetDefaultPendingState()
      modifies this, client
      ensures State() == DefaultPending(client.env, old(State()))
    {
      if EventOf(process.status) == Created && process.status.phase == Unset {
        SetPhase(Pending);
      }
    }

    method SetNotReadyState()
      modifies this, client
      ensures State() == NotReadyWhenUpdated(client.env, old(State()))
    {
      if EventOf(process.status) == Updated {
        SetPhase(NotReady);
      }
    }

    method ReportSuccess(event: OperationResult, op: OperationResult)
      modifies client
      ensures State() == ReportIf(client.env, old(State()), event, op)
    {
      if event == Created && op == Created {
        UpdateRunningStatus();
      } else if event == Updated && op == Updated {
        UpdateRunningStatus();
      }
    }

    method Expose(event: OperationResult, application: Application)
      modifies this, client
      ensures State() == ExposeApp(client.env, config, event, old(State()), application)
    {
      var op, err := client.Apply(process.name, ServiceOf(application.name, application.ports));
      if err {
        UpdateErrorStatus();
        return;
      }
      ReportSuccess(event, op);
      if config.autoIngress {
        op, err := client.Apply(process.name, PutIngress(config.tls, PathsOf(application.name, application.ports)));
        if err {
          UpdateErrorStatus();
          return;
        }
      }
    }

    /** One pass of the loop in `CreateArtifacts`. */
    method RollOut(event: OperationResult, application: Application)
      modifies this, client
      ensures State() == RolledOut(client.env, config, event, old(State()), application)
    {
      var deployManager := new DeployManager(application, client, config, process);
      var op, err := deployManager.Deploy();
      if err {
        UpdateErrorStatus();
        return;
      }
      ReportSuccess(event, op);
      if application.serviceEnabled {
        Expose(event, application);
      }
    }

    method CreateArtifacts(applications: seq<Application>)
      modifies this, client
      ensures State() == ArtifactsCreated(client.env, config, old(State()), applications)
    {
      var needDep := 0;
      var event := EventOf(process.status);
      UpdatePartialAppStatus(applications);
      ghost var c1 := State();
      for i := 0 to |applications|
        invariant event == Unchanged ==> State() == c1
        invariant event != Unchanged ==> needDep == i
        invariant event != Unchanged ==> State() == RolledOutUpTo(client.env, config, event, c1, applications, i)
      {
        if event == Created || event == Updated {
          needDep := needDep + 1;
          RollOut(event, applications[i]);
        }
      }
      SyncVersion();
      if event == Created || event == Updated {
        UpdateReadyDeployments(0, needDep);
      }
    }

    method StopApp(artifactName: string, i: nat) returns (err: bool)
      requires artifactName == AppName(process.name, i)
      modifies client
      ensures State() == AppStopped(client.env, old(State()), i).ctl
              && err == AppStopped(client.env, old(State()), i).err
    {
      err := client.DeleteIfPresent(process.name, DropDeployment(artifactName));
      if err {
        return;
      }
      UpdateRunningStatus();
      err := client.DeleteIfPresent(process.name, DropService(artifactName));
      if err {
        return;
      }
      UpdateRunningStatus();
    }

    method ReleaseApp(artifactName: string, i: nat) returns (err: bool)
      requires artifactName == AppName(process.name, i)
      modifies client
      ensures State() == AppReleased(client.env, old(State()), i).ctl
              && err == AppReleased(client.env, old(State()), i).err
    {
      var pvcName := artifactName + PVC_EXTENSION;
      err := client.DeleteIfPresent(process.name, DropClaim(pvcName));
      if err {
        return;
      }
      var cmName := artifactName + Itoa(process.status.previous);
      err := client.DeleteIfPresent(process.name, DropConfig(cmName));
    }

    method RemoveApp(artifactName: string, i: nat) returns (err: bool)
      requires artifactName == AppName(process.name, i)
      modifies client
      ensures var r := AppRemoved(client.env, old(State()), i); State() == r.ctl && err == r.err
    {
      err := StopApp(artifactName, i);
      if !err {
        err := ReleaseApp(artifactName, i);
      }
    }

    method CleanArtifacts(oldApps: seq<Application>, newApps: seq<Application>) returns (err: bool)
      modifies client
      ensures var r := ArtifactsCleaned(client.env, old(State()), |oldApps|, |newApps|);
              State() == r.ctl && err == r.err
    {
      err := false;
      ghost var start, lo := State(), |newApps|;
      if |newApps| < |oldApps| {
        for i := |newApps| to |oldApps|
          invariant RemovedUpTo(client.env, start, lo, i) == Cleaned(State(), false)
        {
          ghost var before := State();
          var artifactName := process.name + "-" + Itoa(i);
          err := RemoveApp(artifactName, i);
          ghost var after := Cleaned(State(), err);
          assert after == AppRemoved(client.env, before, i);
          RemovedUpToNext(client.env, start, lo, i, |oldApps|, before, after);
          if err {
            return;
          }
        }
      }
    }

    method CheckDeployments(applications: seq<Application>)
      modifies this, client
      ensures State() == DeploymentsChecked(client.env, old(State()), applications)
    {
      for i := 0 to |applications|
        invariant State() == RescaledUpTo(client.env, old(State()), applications, i)
      {
        var a := applications[i];
        var found, _ := client.Get(a.name in client.kube.store.deployments);
        if found && client.kube.store.deployments[a.name].replicas != a.replicas {
          var err := client.Commit(process.name, Scale(a.name, a.replicas));
          if err {
            UpdateErrorStatus();
            continue;
          }
        }
      }
    }

    /** The loop of `CheckAvailableDeployments`: one Get for each application. */
    method TallyDeployments(applications: seq<Application>) returns (t: Tally)
      modifies client
      ensures t == Tallied(client.env, old(client.kube), applications)
      ensures client.kube == old(client.kube).(calls := old(client.kube).calls + |applications|)
    {
      var available, need, statelessReady := 0, 0, true;
      var needStateful, availableStateful, needStateless, availableStateless := 0, 0, 0, 0;
      ghost var k := client.kube;
      for i := 0 to |applications|
        invariant client.kube == k.(calls := k.calls + i)
        invariant TallyUpTo(client.env, k, applications, i) ==
                  Tally(need, available, needStateful, availableStateful, needStateless, availableStateless,
                        statelessReady)
      {
        var a := applications[i];
        var found, _ := client.Get(a.name in client.kube.store.deployments);
        var n := if found then client.kube.store.deployments[a.name].available else 0;
        need := need + a.replicas;
        available := available + n;
        if a.persistenceEnabled {
          needStateful := needStateful + a.replicas;
          availableStateful := availableStateful + n;
        } else {
          needStateless := needStateless + a.replicas;
          if found {
            availableStateless := availableStateless + n;
            if n == 0 {
              statelessReady := false;
            }
          }
        }
      }
      t := Tally(need, available, needStateful, availableStateful, needStateless, availableStateless, statelessReady);
    }

    method CheckAvailableDeployments(applications: seq<Application>) returns (terminate: bool)
      modifies this, client
      ensures var r := AvailabilityChecked(client.env, old(State()), applications);
              State() == r.ctl && terminate == r.terminate
    {
      var t := TallyDeployments(applications);
      assert State() == old(State()).(kube := old(client.kube).(calls := old(client.kube).calls + |applications|));
      UpdateReadyDeployments(t.available, t.need);
      Decide(t);
      terminate := t.need == t.available;
    }

    /** The status that follows from the counters. */
    method Decide(t: Tally)
      modifies this, client
      ensures State() == if ReadyByTally(t) then EnterPhase(client.env, old(State()), Ready)
                         else if old(process).status.phase != Failed then EnterPhase(client.env, old(State()), NotReady)
                         else old(State())
    {
      if t.need == t.available {
        SetPhase(Ready);
      } else if t.statelessReady && t.needStateful == t.availableStateful {
        SetPhase(Ready);
      } else if process.status.phase != Failed {
        SetPhase(NotReady);
      }
    }
  }

  /** A removal that has stopped with an error goes no further. */
  lemma {:induction false} RemovedUpToStops(e: Env, c: Ctl, lo: nat, m: nat, n: nat)
    requires m <= n && RemovedUpTo(e, c, lo, m).err
    ensures RemovedUpTo(e, c, lo, n) == RemovedUpTo(e, c, lo, m)
    decreases n
  {
    if m < n {
      RemovedUpToStops(e, c, lo, m, n - 1);
    }
  }

  /** One step of the removal; when it fails, the whole removal ends with its outcome. */
  lemma RemovedUpToNext(e: Env, c: Ctl, lo: nat, i: nat, n: nat, before: Ctl, after: Cleaned)
    requires lo <= i < n && RemovedUpTo(e, c, lo, i) == Cleaned(before, false) && after == AppRemoved(e, before, i)
    ensures RemovedUpTo(e, c, lo, i + 1) == after
    ensures after.err ==> RemovedUpTo(e, c, lo, n) == after
  {
    if after.err {
      RemovedUpToStops(e, c, lo, i + 1, n);
    }
  }
}
