/**
  Properties of every complete attempt trace of the provisioning loop
  (`IsRunOf`), whatever the cloud provider answers: the budget bound, the
  stopping rule, zone rotation, name stability across failures, and the
  agreement between the success log and the created count.
 */
module RunProperties {
  import opened Naming
  import opened Zones
  import opened Provisioning

  /** The success count of a non-empty trace, split at its last record. */
  lemma SplitLast(t: seq<AttemptRecord>)
    requires |t| > 0
    ensures SuccessCount(t) == SuccessCount(t[..|t| - 1]) + (if t[|t| - 1].outcome.Created? then 1 else 0)
  {
  }

  lemma PrefixSnoc(t: seq<AttemptRecord>, k: nat)
    requires k < |t|
    ensures t[..k + 1] == t[..k] + [t[k]]
  {
  }

  /** The prefix one longer than `t[..k]` adds exactly record `k`. */
  lemma CountStep(t: seq<AttemptRecord>, k: nat)
    requires k < |t|
    ensures SuccessCount(t[..k + 1]) == SuccessCount(t[..k]) + (if t[k].outcome.Created? then 1 else 0)
  {
    assert t[..k + 1] == t[..k] + [t[k]];
    AppendRecord(t[..k], t[k]);
  }

  /** With at least one zone the budget allows at least one attempt per instance requested. */
  lemma {:induction false} BudgetCoversGoal(goal: nat, zoneCount: nat)
    requires zoneCount > 0
    ensures Budget(goal, zoneCount) >= goal
  {
    if goal > 0 {
      BudgetCoversGoal(goal - 1, zoneCount);
    }
  }

  /** The loop never makes more attempts than the budget allows, and never creates more than asked. */
  lemma RunWithinBudget(cfg: Config, goal: nat, oracle: Oracle, t: seq<AttemptRecord>)
    requires |cfg.zones| > 0 && IsRunOf(cfg, goal, oracle, t)
    ensures |t| <= Budget(goal, |cfg.zones|)
    ensures SuccessCount(t) <= goal
  {
    if |t| > 0 {
      GuardHeld(cfg, goal, oracle, t, |t| - 1);
      SplitLast(t);
    }
  }

  /**
    The run falls short of the goal only when the whole budget was spent;
    otherwise it created exactly the goal.
   */
  lemma ShortfallSpendsBudget(cfg: Config, goal: nat, oracle: Oracle, t: seq<AttemptRecord>)
    requires |cfg.zones| > 0 && IsRunOf(cfg, goal, oracle, t)
    ensures SuccessCount(t) < goal ==> |t| == Budget(goal, |cfg.zones|)
    ensures SuccessCount(t) >= goal ==> SuccessCount(t) == goal
  {
    RunWithinBudget(cfg, goal, oracle, t);
  }

  /**
    Attempt `k + 1` targets `zones[k mod |zones|]` and is named after the
    successes before it, whatever the provider answered earlier.
   */
  lemma AttemptShape(cfg: Config, goal: nat, oracle: Oracle, t: seq<AttemptRecord>, k: nat)
    requires |cfg.zones| > 0 && IsRunOf(cfg, goal, oracle, t) && k < |t|
    ensures t[k].number == k + 1
    ensures t[k].request.zone == cfg.zones[k % |cfg.zones|]
    ensures t[k].request.name == InstanceName(cfg.machineType, SuccessCount(t[..k]))
    ensures t[k].outcome == oracle(k + 1, t[k].request)
  {
    assert AttemptFollows(cfg, goal, oracle, t, k);
  }

  /**
    A failed attempt leaves the next request's name unchanged; a success
    moves it to the next slot.
   */
  lemma NameAdvancesOnlyOnSuccess(cfg: Config, goal: nat, oracle: Oracle, t: seq<AttemptRecord>, k: nat)
    requires |cfg.zones| > 0 && IsRunOf(cfg, goal, oracle, t) && k + 1 < |t|
    ensures t[k + 1].request.name == t[k].request.name <==> !t[k].outcome.Created?
    ensures t[k].outcome.Created? ==>
              t[k + 1].request.name == InstanceName(cfg.machineType, SuccessCount(t[..k]) + 1)
  {
    assert AttemptFollows(cfg, goal, oracle, t, k);
    assert AttemptFollows(cfg, goal, oracle, t, k + 1);
    CountStep(t, k);
    InstanceNameInjective(cfg.machineType, SuccessCount(t[..k]), SuccessCount(t[..k + 1]));
  }

  /** Record `i` of the success log comes from some successful attempt `k` that was the `i`-th success. */
  lemma {:induction false} LogLineSource(t: seq<AttemptRecord>, i: nat) returns (k: nat)
    requires i < |SuccessLines(t)|
    ensures k < |t| && t[k].outcome.Created?
    ensures SuccessCount(t[..k]) == i
    ensures SuccessLines(t)[i] == SuccessLine(t[k].request.name, t[k].request.zone)
  {
    var p := t[..|t| - 1];
    SplitLast(t);
    assert t == p + [t[|t| - 1]];
    AppendLine(p, t[|t| - 1]);
    assert |SuccessLines(p)| == SuccessCount(p);
    if i < |SuccessLines(p)| {
      k := LogLineSource(p, i);
      assert p[..k] == t[..k];
    } else {
      k := |t| - 1;
      assert t[..k] == p;
    }
  }

  /**
    The success log of a run has one line per created instance, and line `i`
    reports the instance named `...-pool-i`, in the zone of its attempt.
   */
  lemma LogMatchesCreations(cfg: Config, goal: nat, oracle: Oracle, t: seq<AttemptRecord>, i: nat)
    returns (k: nat)
    requires |cfg.zones| > 0 && IsRunOf(cfg, goal, oracle, t) && i < SuccessCount(t)
    ensures |SuccessLines(t)| == SuccessCount(t)
    ensures k < |t| && t[k].outcome.Created?
    ensures SuccessCount(t[..k]) == i
    ensures SuccessLines(t)[i] == SuccessLine(InstanceName(cfg.machineType, i), ZoneAt(cfg.zones, k + 1))
  {
    k := LogLineSource(t, i);
    assert AttemptFollows(cfg, goal, oracle, t, k);
  }

  /**
    When every attempt succeeds, the run makes exactly `goal` attempts and
    creates `goal` instances; attempt `k + 1` fills slot `k` in the `k`-th
    zone of the rotation.
   */
  lemma AllSucceed(cfg: Config, goal: nat, oracle: Oracle, t: seq<AttemptRecord>)
    requires |cfg.zones| > 0 && IsRunOf(cfg, goal, oracle, t)
    requires forall n, req :: oracle(n, req).Created?
    ensures |t| == goal && SuccessCount(t) == goal
    ensures forall k :: 0 <= k < |t| ==> t[k].request == Request(cfg, k, k + 1)
  {
    forall k | 0 <= k < |t|
      ensures t[k].outcome.Created?
    {
      AttemptShape(cfg, goal, oracle, t, k);
    }
    forall k | 0 <= k < |t|
      ensures t[k].request == Request(cfg, k, k + 1)
    {
      assert AttemptFollows(cfg, goal, oracle, t, k);
      assert forall i :: 0 <= i < k ==> t[..k][i].outcome.Created?;
      SuccessCountExtremes(t[..k]);
    }
    SuccessCountExtremes(t);
    RunWithinBudget(cfg, goal, oracle, t);
    BudgetCoversGoal(goal, |cfg.zones|);
  }

  /** When every attempt fails, the run spends the whole budget and creates nothing. */
  lemma AllFail(cfg: Config, goal: nat, oracle: Oracle, t: seq<AttemptRecord>)
    requires |cfg.zones| > 0 && goal > 0 && IsRunOf(cfg, goal, oracle, t)
    requires forall n, req :: !oracle(n, req).Created?
    ensures |t| == Budget(goal, |cfg.zones|) && SuccessCount(t) == 0
  {
    forall k | 0 <= k < |t|
      ensures !t[k].outcome.Created?
    {
      AttemptShape(cfg, goal, oracle, t, k);
    }
    SuccessCountExtremes(t);
    RunWithinBudget(cfg, goal, oracle, t);
  }

  /** Every attempt of a run was allowed by the loop guard when it started. */
  lemma GuardHeld(cfg: Config, goal: nat, oracle: Oracle, t: seq<AttemptRecord>, k: nat)
    requires |cfg.zones| > 0 && IsRunOf(cfg, goal, oracle, t) && k < |t|
    ensures SuccessCount(t[..k]) < goal && k < Budget(goal, |cfg.zones|)
  {
    assert AttemptFollows(cfg, goal, oracle, t, k);
  }

  /** An attempt is determined by the attempts before it. */
  lemma AttemptDetermined(cfg: Config, goal: nat, oracle: Oracle,
                          t1: seq<AttemptRecord>, t2: seq<AttemptRecord>, k: nat)
    requires |cfg.zones| > 0 && IsRunOf(cfg, goal, oracle, t1) && IsRunOf(cfg, goal, oracle, t2)
    requires k < |t1| && k < |t2| && t1[..k] == t2[..k]
    ensures t1[k] == t2[k]
  {
    assert AttemptFollows(cfg, goal, oracle, t1, k);
    assert AttemptFollows(cfg, goal, oracle, t2, k);
  }

  /** Two complete runs against the same provider agree on every attempt before either ends. */
  lemma {:induction false} RunsAgreeOnPrefix(cfg: Config, goal: nat, oracle: Oracle,
                                               t1: seq<AttemptRecord>, t2: seq<AttemptRecord>, j: nat)
    requires |cfg.zones| > 0 && IsRunOf(cfg, goal, oracle, t1) && IsRunOf(cfg, goal, oracle, t2)
    requires j <= |t1| && j <= |t2|
    ensures t1[..j] == t2[..j]
  {
    if j > 0 {
      RunsAgreeOnPrefix(cfg, goal, oracle, t1, t2, j - 1);
      AttemptDetermined(cfg, goal, oracle, t1, t2, j - 1);
      PrefixSnoc(t1, j - 1);
      PrefixSnoc(t2, j - 1);
    }
  }

  /** The provider's answers determine the run: there is exactly one complete trace. */
  lemma RunDeterministic(cfg: Config, goal: nat, oracle: Oracle, t1: seq<AttemptRecord>, t2: seq<AttemptRecord>)
    requires |cfg.zones| > 0 && IsRunOf(cfg, goal, oracle, t1) && IsRunOf(cfg, goal, oracle, t2)
    ensures t1 == t2
  {
    if |t1| < |t2| {
      RunsAgreeOnPrefix(cfg, goal, oracle, t1, t2, |t1|);
      assert t2[..|t1|] == t1;
      GuardHeld(cfg, goal, oracle, t2, |t1|);
      assert false;
    } else if |t2| < |t1| {
      RunsAgreeOnPrefix(cfg, goal, oracle, t1, t2, |t2|);
      assert t1[..|t2|] == t2;
      GuardHeld(cfg, goal, oracle, t1, |t2|);
      assert false;
    } else {
      RunsAgreeOnPrefix(cfg, goal, oracle, t1, t2, |t1|);
      assert t1 == t1[..|t1|] && t2 == t2[..|t2|];
    }
  }
}
