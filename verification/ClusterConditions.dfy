/** The bounded condition history in the status of a NATS cluster. */
module ClusterConditions {
  import opened Decimal

  const LIMIT := 10

  datatype Kind = Ready | ScalingUp | ScalingDown | Upgrading

  datatype Condition = Condition(kind: Kind, reason: string, time: string)

  /** A call on the cluster status, with the time it reads from the clock. */
  datatype Call =
    | AppendScalingUp(from: int, to: int, now: string)
    | AppendScalingDown(from: int, to: int, now: string)
    | AppendUpgrading(fromVersion: string, toVersion: string, now: string)
    | SetReady(now: string)

  function ScalingReason(from: int, to: int): string {
    "scaling cluster from " + Itoa(from) + " to " + Itoa(to) + " peers"
  }

  function ConditionOf(c: Call): Condition {
    match c
    case AppendScalingUp(from, to, now) => Condition(ScalingUp, ScalingReason(from, to), now)
    case AppendScalingDown(from, to, now) => Condition(ScalingDown, ScalingReason(from, to), now)
    case AppendUpgrading(from, to, now) =>
      Condition(Upgrading, "upgrading cluster version from " + from + " to " + to, now)
    case SetReady(now) => Condition(Ready, "current state matches desired state", now)
  }

  /** A ready condition directly after a ready condition is not recorded. */
  predicate Redundant(conditions: seq<Condition>, c: Call) {
    c.SetReady? && conditions != [] && conditions[|conditions| - 1].kind == Ready
  }

  /** The history without any bound. */
  function FullHistory(calls: seq<Call>): seq<Condition> {
    if calls == [] then []
    else
      var before, c := FullHistory(calls[..|calls| - 1]), calls[|calls| - 1];
      if Redundant(before, c) then before else before + [ConditionOf(c)]
  }

  function Trimmed(conditions: seq<Condition>): seq<Condition> {
    if |conditions| > LIMIT then conditions[1..] else conditions
  }

  /** Effect of one call on the stored list. */
  function Stored(conditions: seq<Condition>, c: Call): seq<Condition> {
    if Redundant(conditions, c) then conditions else Trimmed(conditions + [ConditionOf(c)])
  }

  function StoredAfter(calls: seq<Call>): seq<Condition> {
    if calls == [] then [] else Stored(StoredAfter(calls[..|calls| - 1]), calls[|calls| - 1])
  }

  function MostRecent(history: seq<Condition>): seq<Condition> {
    if |history| <= 10 then history else history[|history| - 10..]
  }

  lemma TrimmedMostRecent(h: seq<Condition>, d: Condition)
    ensures Trimmed(MostRecent(h) + [d]) == MostRecent(h + [d])
  {
  }

  lemma RedundantByMostRecent(h: seq<Condition>, c: Call)
    ensures Redundant(MostRecent(h), c) <==> Redundant(h, c)
  {
  }

  /** The stored list is always the ten most recent conditions of the unbounded history. */
  lemma {:induction false} KeepsTenMostRecent(calls: seq<Call>)
    ensures StoredAfter(calls) == MostRecent(FullHistory(calls))
  {
    if calls != [] {
      var init, c := calls[..|calls| - 1], calls[|calls| - 1];
      KeepsTenMostRecent(init);
      RedundantByMostRecent(FullHistory(init), c);
      TrimmedMostRecent(FullHistory(init), ConditionOf(c));
    }
  }

  /** Unless it is a ready condition after a ready one, the newest condition in store is that of the last call:
      its kind, its reason and the time of the call. */
  lemma NewestCondition(calls: seq<Call>)
    requires calls != []
    ensures var before, after, c := StoredAfter(calls[..|calls| - 1]), StoredAfter(calls), calls[|calls| - 1];
            if c.SetReady? && before != [] && before[|before| - 1].kind == Ready then after == before
            else
              && after != [] && after[|after| - 1].time == c.now && |after| <= 10
              && var d := after[|after| - 1];
                 match c
                 case AppendScalingUp(from, to, _) =>
                   d.kind == ScalingUp
                   && d.reason == "scaling cluster from " + Itoa(from) + " to " + Itoa(to) + " peers"
                 case AppendScalingDown(from, to, _) =>
                   d.kind == ScalingDown
                   && d.reason == "scaling cluster from " + Itoa(from) + " to " + Itoa(to) + " peers"
                 case AppendUpgrading(from, to, _) =>
                   d.kind == Upgrading && d.reason == "upgrading cluster version from " + from + " to " + to
                 case SetReady(_) => d.kind == Ready && d.reason == "current state matches desired state"
  {
    KeepsTenMostRecent(calls);
  }

  /** No two neighbours in the history, and hence in the stored list, are both ready. */
  lemma {:induction false} NoRepeatedReady(calls: seq<Call>)
    ensures forall k {:trigger FullHistory(calls)[k]} :: 0 < k < |FullHistory(calls)| ==>
              !(FullHistory(calls)[k - 1].kind == Ready && FullHistory(calls)[k].kind == Ready)
    ensures forall k {:trigger StoredAfter(calls)[k]} :: 0 < k < |StoredAfter(calls)| ==>
              !(StoredAfter(calls)[k - 1].kind == Ready && StoredAfter(calls)[k].kind == Ready)
  {
    if calls != [] {
      NoRepeatedReady(calls[..|calls| - 1]);
    }
    KeepsTenMostRecent(calls);
  }

  class ClusterStatus {
    var conditions: seq<Condition>

    constructor ()
      ensures conditions == []
    {
      conditions := [];
    }

    method AppendScalingUpCondition(from: int, to: int, now: string)
      modifies this
      ensures conditions == Stored(old(conditions), AppendScalingUp(from, to, now))
    {
      AppendCondition(Condition(ScalingUp, ScalingReason(from, to), now));
    }

    method AppendScalingDownCondition(from: int, to: int, now: string)
      modifies this
      ensures conditions == Stored(old(conditions), AppendScalingDown(from, to, now))
    {
      AppendCondition(Condition(ScalingDown, ScalingReason(from, to), now));
    }

    method AppendUpgradingCondition(from: string, to: string, now: string)
      modifies this
      ensures conditions == Stored(old(conditions), AppendUpgrading(from, to, now))
    {
      AppendCondition(Condition(Upgrading, "upgrading cluster version from " + from + " to " + to, now));
    }

    method SetReadyCondition(now: string)
      modifies this
      ensures conditions == Stored(old(conditions), SetReady(now))
    {
      var c := Condition(Ready, "current state matches desired state", now);
      if |conditions| == 0 {
        AppendCondition(c);
        return;
      }
      var last := conditions[|conditions| - 1];
      if last.kind == Ready {
        return;
      }
      AppendCondition(c);
    }

    method AppendCondition(c: Condition)
      modifies this
      ensures conditions == Trimmed(old(conditions) + [c])
    {
      conditions := conditions + [c];
      if |conditions| > 10 {
        conditions := conditions[1..];
      }
    }

    /** A run of calls on a fresh status, as the theorems above see it. */
    method Perform(calls: seq<Call>)
      requires conditions == []
      modifies this
      ensures conditions == StoredAfter(calls)
    {
      for k := 0 to |calls|
        invariant conditions == StoredAfter(calls[..k])
      {
        assert calls[..k + 1][..k] == calls[..k];
        match calls[k]
        case AppendScalingUp(from, to, now) => AppendScalingUpCondition(from, to, now);
        case AppendScalingDown(from, to, now) => AppendScalingDownCondition(from, to, now);
        case AppendUpgrading(from, to, now) => AppendUpgradingCondition(from, to, now);
        case SetReady(now) => SetReadyCondition(now);
      }
      assert calls[..|calls|] == calls;
    }
  }
}
