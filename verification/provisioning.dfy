/**
  The provisioning endpoint: request validation, the attempt loop that
  spreads instance creations over a rotating list of zones under an attempt
  budget, and the assembly of the final response.

  The cloud create-and-wait call is an oracle: given the attempt number and
  the request, it reports whether the instance was created, the provider
  reported an error, or something unexpected went wrong.
 */
module Provisioning {
  import opened Naming
  import opened Zones

  /** An optional value: an environment variable that may be unset, a check that may reject. */
  datatype Option<T> = None | Some(value: T)

  /** Process-wide configuration, read once at start-up. */
  datatype Config = Config(project: Option<string>, machineType: string, zones: seq<string>)

  const DefaultMachineType: string := "g2-standard-8"

  const DefaultZones: seq<string> := [
    "europe-west1-b", "europe-west1-c", "europe-west2-a", "europe-west2-b",
    "europe-west3-a", "europe-west3-b", "europe-west4-a", "europe-west4-b",
    "europe-west4-c", "europe-west6-b", "europe-west6-c"
  ]

  /** The request for one attempt; the rest of the instance resource is fixed. */
  datatype InstanceRequest = InstanceRequest(name: string, zone: string)

  /** What one create-and-wait call reports. */
  datatype Outcome =
    | Created
    | ProviderError(message: string)   // a recognised cloud API error: warning, short pause
    | UnexpectedError(message: string) // any other exception: error, longer pause

  /** The cloud provider: attempt number and request in, outcome out. */
  type Oracle = (nat, InstanceRequest) -> Outcome

  /** One loop iteration, as kept for observability. */
  datatype AttemptRecord = AttemptRecord(number: nat, request: InstanceRequest, outcome: Outcome)

  datatype Body =
    | ErrorBody(error: string)
    | MessageBody(message: string)
    | ReportBody(message: string, totalRequested: int, totalCreated: nat, log: seq<string>)

  datatype Response = Response(status: int, body: Body)

  const ProjectMissingError: string := "GCP_PROJECT environment variable not set."
  const InvalidCountError: string := "Instance count must be a positive integer."
  const EmptyZonesMessage: string := "Zone list is empty. No instances to create."
  const AllCreatedMessage: string := "Successfully created all requested instances."

  function ShortfallMessage(budget: nat): string
  {
    "Process finished after " + NatToString(budget)
    + " attempts. Failed to create the full count of instances."
  }

  /** The budget can be read back from the shortfall message, as the decimal between its fixed opening and ending. */
  lemma ShortfallMessageReportsBudget(budget: nat)
    ensures var m := ShortfallMessage(budget);
            && |m| == 23 + |NatToString(budget)| + 56
            && m[..23] == "Process finished after "
            && m[23..|m| - 56] == NatToString(budget)
            && ParseDecimal(m[23..|m| - 56]) == budget
  {
    var m := ShortfallMessage(budget);
    assert m[23..|m| - 56] == NatToString(budget);
    ParseNatToString(budget);
  }

  /** Python treats both an unset and an empty project variable as missing. */
  predicate ProjectMissing(cfg: Config) {
    cfg.project.None? || cfg.project.value == ""
  }

  /**
    The checks made before any attempt, in their fixed order: the project,
    then the count, then the zone list. `None` means provisioning goes ahead.
   */
  function Validate(cfg: Config, count: int): (r: Option<Response>)
    ensures r.None? <==> !ProjectMissing(cfg) && count > 0 && |cfg.zones| > 0
    ensures ProjectMissing(cfg) ==> r == Some(Response(500, ErrorBody(ProjectMissingError)))
    ensures !ProjectMissing(cfg) && count <= 0 ==> r == Some(Response(400, ErrorBody(InvalidCountError)))
    ensures !ProjectMissing(cfg) && count > 0 && |cfg.zones| == 0
            ==> r == Some(Response(200, MessageBody(EmptyZonesMessage)))
  {
    if ProjectMissing(cfg) then Some(Response(500, ErrorBody(ProjectMissingError)))
    else if count <= 0 then Some(Response(400, ErrorBody(InvalidCountError)))
    else if |cfg.zones| == 0 then Some(Response(200, MessageBody(EmptyZonesMessage)))
    else None
  }

  /**
    The attempt budget: three tries per zone for each instance requested,
    summed one instance at a time (`BudgetFormula` gives the product).
   */
  function Budget(goal: nat, zoneCount: nat): nat
  {
    if goal == 0 then 0 else Budget(goal - 1, zoneCount) + 3 * zoneCount
  }

  /** The budget is `goal * zoneCount * 3`. */
  lemma {:induction false} BudgetFormula(goal: nat, zoneCount: nat)
    ensures Budget(goal, zoneCount) == goal * zoneCount * 3
  {
    if goal > 0 {
      BudgetFormula(goal - 1, zoneCount);
      assert goal * zoneCount * 3 == (goal - 1) * zoneCount * 3 + 3 * zoneCount;
    }
  }

  /** The request of attempt `attempt`, made when `created` instances exist. */
  function Request(cfg: Config, created: nat, attempt: nat): InstanceRequest
    requires |cfg.zones| > 0 && attempt >= 1
  {
    InstanceRequest(InstanceName(cfg.machineType, created), ZoneAt(cfg.zones, attempt))
  }

  /** The number of successful attempts in a trace. */
  function SuccessCount(t: seq<AttemptRecord>): (n: nat)
    ensures n <= |t|
  {
    if t == [] then 0
    else SuccessCount(t[..|t| - 1]) + (if t[|t| - 1].outcome.Created? then 1 else 0)
  }

  /** A trace without successes counts none; a trace of successes only counts all. */
  lemma {:induction false} SuccessCountExtremes(t: seq<AttemptRecord>)
    ensures SuccessCount(t) == 0 <== forall k :: 0 <= k < |t| ==> !t[k].outcome.Created?
    ensures SuccessCount(t) == |t| <== forall k :: 0 <= k < |t| ==> t[k].outcome.Created?
  {
    if t != [] {
      SuccessCountExtremes(t[..|t| - 1]);
    }
  }

  /** The success lines of a trace, in the order the successes happened. */
  function SuccessLines(t: seq<AttemptRecord>): (log: seq<string>)
    ensures |log| == SuccessCount(t)
  {
    if t == [] then []
    else
      var last := t[|t| - 1];
      SuccessLines(t[..|t| - 1])
      + (if last.outcome.Created? then [SuccessLine(last.request.name, last.request.zone)] else [])
  }

  /**
    Attempt `k` (0-based position in the trace) is the one the loop makes:
    it carries number `k + 1`, targets the zone of the rotation, is named
    after the successes before it, records what the oracle said, and was
    allowed by the loop guard.
   */
  ghost predicate AttemptFollows(cfg: Config, goal: nat, oracle: Oracle, t: seq<AttemptRecord>, k: nat)
    requires |cfg.zones| > 0 && k < |t|
  {
    var req := Request(cfg, SuccessCount(t[..k]), k + 1);
    && t[k] == AttemptRecord(k + 1, req, oracle(k + 1, req))
    && SuccessCount(t[..k]) < goal
    && k < Budget(goal, |cfg.zones|)
  }

  /** `t` is the complete attempt trace of a run towards `goal`: every attempt follows, and the loop guard fails at the end. */
  ghost predicate IsRunOf(cfg: Config, goal: nat, oracle: Oracle, t: seq<AttemptRecord>)
    requires |cfg.zones| > 0
  {
    && (forall k {:trigger t[k]} :: 0 <= k < |t| ==> AttemptFollows(cfg, goal, oracle, t, k))
    && !(SuccessCount(t) < goal && |t| < Budget(goal, |cfg.zones|))
  }

  /** Appending one record raises the success count by one exactly when the record is a success. */
  lemma AppendRecord(t: seq<AttemptRecord>, r: AttemptRecord)
    ensures SuccessCount(t + [r]) == SuccessCount(t) + (if r.outcome.Created? then 1 else 0)
  {
    assert (t + [r])[..|t|] == t;
  }

  /** Appending one record adds its line to the success lines exactly when it is a success. */
  lemma AppendLine(t: seq<AttemptRecord>, r: AttemptRecord)
    ensures SuccessLines(t + [r]) == SuccessLines(t)
              + (if r.outcome.Created? then [SuccessLine(r.request.name, r.request.zone)] else [])
  {
    assert (t + [r])[..|t|] == t;
  }

  /** Appending the attempt the loop makes next keeps every attempt of the trace following. */
  lemma AppendFollows(cfg: Config, goal: nat, oracle: Oracle, t: seq<AttemptRecord>, r: AttemptRecord)
    requires |cfg.zones| > 0
    requires forall k :: 0 <= k < |t| ==> AttemptFollows(cfg, goal, oracle, t, k)
    requires SuccessCount(t) < goal && |t| < Budget(goal, |cfg.zones|)
    requires r.number == |t| + 1 && r.request == Request(cfg, SuccessCount(t), |t| + 1)
    requires r.outcome == oracle(r.number, r.request)
    ensures forall k :: 0 <= k < |t| + 1 ==> AttemptFollows(cfg, goal, oracle, t + [r], k)
  {
    forall k | 0 <= k < |t| + 1
      ensures AttemptFollows(cfg, goal, oracle, t + [r], k)
    {
      if k < |t| {
        FollowsAfterAppend(cfg, goal, oracle, t, r, k);
      } else {
        assert (t + [r])[..k] == t;
      }
    }
  }

  /** An attempt that follows keeps following when a later record is appended. */
  lemma FollowsAfterAppend(cfg: Config, goal: nat, oracle: Oracle, t: seq<AttemptRecord>, r: AttemptRecord, k: nat)
    requires |cfg.zones| > 0 && k < |t|
    requires AttemptFollows(cfg, goal, oracle, t, k)
    ensures AttemptFollows(cfg, goal, oracle, t + [r], k)
  {
    assert (t + [r])[..k] == t[..k];
    assert (t + [r])[k] == t[k];
  }

  /**
    Handles one provisioning request for `count` instances. Returns the
    response and the trace of attempts made (empty when validation rejects
    the request).
   */
  method CreateInstances(cfg: Config, count: int, oracle: Oracle)
    returns (resp: Response, trace: seq<AttemptRecord>)
    // Validation happens in a fixed order and before any attempt.
    ensures ProjectMissing(cfg) ==> resp == Response(500, ErrorBody(ProjectMissingError)) && trace == []
    ensures !ProjectMissing(cfg) && count <= 0 ==> resp == Response(400, ErrorBody(InvalidCountError)) && trace == []
    ensures !ProjectMissing(cfg) && count > 0 && |cfg.zones| == 0
            ==> resp == Response(200, MessageBody(EmptyZonesMessage)) && trace == []
    // Otherwise the loop runs to completion and the report is always a 200.
    ensures !ProjectMissing(cfg) && count > 0 && |cfg.zones| > 0 ==>
              && IsRunOf(cfg, count, oracle, trace)
              && |trace| <= Budget(count, |cfg.zones|)
              && SuccessCount(trace) <= count
              && (SuccessCount(trace) < count ==> |trace| == Budget(count, |cfg.zones|))
              && resp.status == 200
              && resp.body == ReportBody(
                   if SuccessCount(trace) < count then ShortfallMessage(Budget(count, |cfg.zones|))
                   else AllCreatedMessage,
                   count, SuccessCount(trace), SuccessLines(trace))
  {
    var rejected := Validate(cfg, count);
    if rejected.Some? {
      return rejected.value, [];
    }
    var goal: nat := count;
    var created: nat := 0;
    var attempts: nat := 0;
    var budget := Budget(goal, |cfg.zones|);
    var cycler := Start(cfg.zones);
    var log: seq<string> := [];
    trace := [];
    while created < goal && attempts < budget
      invariant attempts == |trace| <= budget
      invariant created == SuccessCount(trace) <= goal
      invariant log == SuccessLines(trace)
      invariant cycler == Drawn(cfg.zones, attempts)
      invariant forall k :: 0 <= k < |trace| ==> AttemptFollows(cfg, goal, oracle, trace, k)
      decreases budget - attempts
    {
      attempts := attempts + 1;
      var drawn := Next(cycler);
      var zone := drawn.0;
      cycler := drawn.1;
      CyclerMatchesZoneAt(cfg.zones, attempts);
      var name := InstanceName(cfg.machineType, created);
      var request := InstanceRequest(name, zone);
      var outcome := oracle(attempts, request);
      if outcome.Created? {
        created := created + 1;
        log := log + [SuccessLine(name, zone)];
      }
      // Provider and unexpected errors differ only in log severity and pause length.
      var record := AttemptRecord(attempts, request, outcome);
      AppendRecord(trace, record);
      AppendLine(trace, record);
      AppendFollows(cfg, goal, oracle, trace, record);
      trace := trace + [record];
    }
    var message := if created < goal then ShortfallMessage(budget) else AllCreatedMessage;
    resp := Response(200, ReportBody(message, count, created, log));
  }
}
