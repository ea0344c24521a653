/** What the availability tally of a process says about its deployments. */
module Availability {
  import opened SiddhiTypes
  import opened Cluster
  import opened Controller

  /** What the tally sees of application `i`: one Get for each, in order. */
  function Seen(e: Env, k: Kube, apps: seq<Application>, i: nat): Option<int>
    requires i < |apps|
  {
    Observed(e, k.(calls := k.calls + i), apps[i])
  }

  /** Replica counts are natural and no deployment reports more available replicas than wanted. */
  ghost predicate Plausible(e: Env, k: Kube, apps: seq<Application>) {
    forall i :: 0 <= i < |apps| ==>
      0 <= apps[i].replicas && (Seen(e, k, apps, i).Some? ==> 0 <= Seen(e, k, apps, i).value <= apps[i].replicas)
  }

  /** The deployment of application `i` is there with all its replicas, or none are wanted. */
  ghost predicate FullyAvailable(e: Env, k: Kube, apps: seq<Application>, i: nat)
    requires i < |apps|
  {
    apps[i].replicas == 0 || Seen(e, k, apps, i) == Some(apps[i].replicas)
  }

  /** Totals split into their stateful and stateless parts, whatever is reported. */
  lemma {:induction false} TallySplits(e: Env, k: Kube, apps: seq<Application>, n: nat)
    requires n <= |apps|
    ensures var t := TallyUpTo(e, k, apps, n);
            && t.need == t.needStateful + t.needStateless
            && t.available == t.availableStateful + t.availableStateless
    decreases n
  {
    if n > 0 {
      TallySplits(e, k, apps, n - 1);
    }
  }

  lemma {:induction false} TallyExact(e: Env, k: Kube, apps: seq<Application>, n: nat)
    requires n <= |apps| && Plausible(e, k, apps)
    ensures var t := TallyUpTo(e, k, apps, n);
            && t.availableStateful <= t.needStateful && t.availableStateless <= t.needStateless
            && (t.availableStateful == t.needStateful <==>
                  forall i :: 0 <= i < n && apps[i].persistenceEnabled ==> FullyAvailable(e, k, apps, i))
            && (t.availableStateless == t.needStateless <==>
                  forall i :: 0 <= i < n && !apps[i].persistenceEnabled ==> FullyAvailable(e, k, apps, i))
            && (t.statelessReady <==>
                forall i :: 0 <= i < n && !apps[i].persistenceEnabled ==> Seen(e, k, apps, i) != Some(0))
    decreases n
  {
    if n > 0 {
      TallyExact(e, k, apps, n - 1);
      var m := n - 1;
      assert apps[m].replicas >= 0;
      var seen := Seen(e, k, apps, m);
      assert TallyUpTo(e, k, apps, n) == Count(TallyUpTo(e, k, apps, m), apps[m], seen);
      assert FullyAvailable(e, k, apps, m) <==> apps[m].replicas == if seen.Some? then seen.value else 0;
    }
  }

  /** The check ends the watch exactly when every deployment is there with all its replicas.  The
      process counts as ready already when that holds for the stateful ones and no stateless
      deployment that could be read is without a replica; one that could not be read does not matter. */
  lemma TallyMeaning(e: Env, k: Kube, apps: seq<Application>)
    requires Plausible(e, k, apps)
    ensures var t := Tallied(e, k, apps);
            && (AllAvailable(t) <==> forall i :: 0 <= i < |apps| ==> FullyAvailable(e, k, apps, i))
            && (ReadyByTally(t) <==>
                  || (forall i :: 0 <= i < |apps| ==> FullyAvailable(e, k, apps, i))
                  || ((forall i :: 0 <= i < |apps| && apps[i].persistenceEnabled ==> FullyAvailable(e, k, apps, i))
                      && (forall i :: 0 <= i < |apps| && !apps[i].persistenceEnabled ==>
                            Seen(e, k, apps, i) != Some(0))))
  {
    TallySplits(e, k, apps, |apps|);
    TallyExact(e, k, apps, |apps|);
  }

  /** A stateless application whose deployment is missing does not keep a process from being ready. */
  lemma MissingStatelessIsReady(e: Env, k: Kube, a: Application)
    requires !a.persistenceEnabled && a.name !in k.store.deployments
    ensures ReadyByTally(TallyUpTo(e, k, [a], 1))
  {
  }
}
