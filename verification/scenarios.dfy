/**
  End-to-end runs of the provisioning loop on small zone lists, and the
  shipped default configuration.
 */
module Scenarios {
  import opened Naming
  import opened Zones
  import opened Provisioning
  import opened RunProperties

  /** With the eleven default zones, the budget is 33 attempts per instance requested. */
  lemma DefaultBudget(goal: nat)
    ensures |DefaultZones| == 11
    ensures Budget(goal, |DefaultZones|) == 33 * goal
  {
    BudgetFormula(goal, |DefaultZones|);
  }

  /**
    Three zones, three instances, every attempt succeeds: three attempts,
    in the zones' list order, named `-pool-0`, `-pool-1`, `-pool-2`.
   */
  lemma ScenarioAllSucceed(cfg: Config, oracle: Oracle, t: seq<AttemptRecord>)
    requires cfg.zones == ["z1", "z2", "z3"] && IsRunOf(cfg, 3, oracle, t)
    requires forall n, req :: oracle(n, req).Created?
    ensures |t| == 3 && SuccessCount(t) == 3
    ensures t[0].request.zone == "z1" && t[1].request.zone == "z2" && t[2].request.zone == "z3"
    ensures t[0].request.name == InstanceName(cfg.machineType, 0)
    ensures t[1].request.name == InstanceName(cfg.machineType, 1)
    ensures t[2].request.name == InstanceName(cfg.machineType, 2)
  {
    AllSucceed(cfg, 3, oracle, t);
    assert t[0].request == Request(cfg, 0, 1);
    assert t[1].request == Request(cfg, 1, 2);
    assert t[2].request == Request(cfg, 2, 3);
  }

  /** One zone that always fails, two instances asked: the budget of six attempts is spent, nothing is created. */
  lemma ScenarioZoneDown(cfg: Config, oracle: Oracle, t: seq<AttemptRecord>)
    requires cfg.zones == ["z1"] && IsRunOf(cfg, 2, oracle, t)
    requires forall n, req :: !oracle(n, req).Created?
    ensures |t| == 6 && SuccessCount(t) == 0
  {
    assert Budget(2, 1) == 6;
    AllFail(cfg, 2, oracle, t);
  }

  /**
    Two zones, two instances; the first attempt fails and every later one
    succeeds. The rotation does not retry the failing zone's turn: the zones
    tried are z1, z2, z1.
   */
  lemma ScenarioFirstAttemptFails(cfg: Config, oracle: Oracle, t: seq<AttemptRecord>)
    requires cfg.zones == ["z1", "z2"] && IsRunOf(cfg, 2, oracle, t)
    requires forall req :: !oracle(1, req).Created?
    requires forall n, req :: n > 1 ==> oracle(n, req).Created?
    ensures |t| == 3
    ensures t[0].request.zone == "z1" && t[1].request.zone == "z2" && t[2].request.zone == "z1"
    ensures !t[0].outcome.Created? && t[1].outcome.Created? && t[2].outcome.Created?
  {
    ScenarioFirstAttemptFailsCount(cfg, oracle, t);
    AttemptShape(cfg, 2, oracle, t, 0);
    AttemptShape(cfg, 2, oracle, t, 1);
    AttemptShape(cfg, 2, oracle, t, 2);
  }

  /** In the same run the failed first attempt's name is reused by the second, and the third fills slot 1. */
  lemma ScenarioFirstAttemptFailsNames(cfg: Config, oracle: Oracle, t: seq<AttemptRecord>)
    requires cfg.zones == ["z1", "z2"] && IsRunOf(cfg, 2, oracle, t)
    requires forall req :: !oracle(1, req).Created?
    requires forall n, req :: n > 1 ==> oracle(n, req).Created?
    ensures |t| == 3
    ensures t[0].request.name == InstanceName(cfg.machineType, 0)
    ensures t[1].request.name == InstanceName(cfg.machineType, 0)
    ensures t[2].request.name == InstanceName(cfg.machineType, 1)
  {
    ScenarioFirstAttemptFails(cfg, oracle, t);
    AttemptShape(cfg, 2, oracle, t, 0);
    assert t[..0] == [];
    NameAdvancesOnlyOnSuccess(cfg, 2, oracle, t, 0);
    NameAdvancesOnlyOnSuccess(cfg, 2, oracle, t, 1);
    CountStep(t, 0);
  }

  /** The same run makes three attempts and creates both instances. */
  lemma ScenarioFirstAttemptFailsCount(cfg: Config, oracle: Oracle, t: seq<AttemptRecord>)
    requires cfg.zones == ["z1", "z2"] && IsRunOf(cfg, 2, oracle, t)
    requires forall req :: !oracle(1, req).Created?
    requires forall n, req :: n > 1 ==> oracle(n, req).Created?
    ensures |t| == 3 && SuccessCount(t) == 2
  {
    RunWithinBudget(cfg, 2, oracle, t);
    assert Budget(2, 2) == 12;
    assert t[..0] == [];
    if |t| == 0 {
      assert false;
    }
    AttemptShape(cfg, 2, oracle, t, 0);
    CountStep(t, 0);
    if |t| == 1 {
      assert false;
    }
    AttemptShape(cfg, 2, oracle, t, 1);
    CountStep(t, 1);
    if |t| == 2 {
      assert false;
    }
    AttemptShape(cfg, 2, oracle, t, 2);
    CountStep(t, 2);
    if |t| > 3 {
      GuardHeld(cfg, 2, oracle, t, 3);
      assert false;
    }
  }
}
