# gce-create provisioning loop, modelled in Dafny

The service exposes `POST /create/<instance_count>`. It creates that many
Compute Engine instances spread over a fixed, ordered list of zones. It
retries failed creations in the next zone of the rotation until the goal is
met or an attempt budget of `instance_count * |zones| * 3` is spent.

This project models the handler `create_instances` in `main.py`:

- **Validation**, in the code's order. A missing (or empty) project gives 500.
  A count of 0 or less gives 400. An empty zone list gives a 200 message-only
  response. No attempt is made in any of the three cases.
- **The attempt loop.** Zones come from a round-robin cycler (`itertools.cycle`).
  Each request is named `<machine type with _ replaced by ->-pool-<created>`.
  The create-and-wait call is an oracle that answers `Created`,
  `ProviderError` or `UnexpectedError`. The loop stops when the goal is met or
  the budget is spent.
- **The response.** Once the loop has started, it is always 200. It carries
  the final message, the requested and created counts, and the success lines
  in order.

Files:

- `naming.dfy`: underscore replacement, decimal rendering of the counter and
  its inverse, instance names, success lines.
- `zones.dfy`: the zone formula `ZoneAt` and the cycler model (`Start`,
  `Next`, `Drawn`), and the proof that they agree.
- `provisioning.dfy`: `Option`, configuration, outcomes, attempt records, responses,
  `Validate`, and the loop `CreateInstances`. It also holds `IsRunOf`, which
  says what a complete attempt trace is, independently of the loop.
- `run_properties.dfy`: properties of every complete trace.
- `scenarios.dfy`: small end-to-end runs and the default configuration.

`CreateInstances` returns the response and the trace of attempts it made.
Its contract says the trace satisfies `IsRunOf`. The lemmas in
`run_properties.dfy` then apply to what the method returns.
`RunDeterministic` shows that the provider's answers fix the trace uniquely.

Details of the code the model keeps:

- The code checks the project first, then the count, then the zone list.
- An empty zone list returns a body holding only a message, with no counts.
- With two zones, when the first attempt fails and every later one succeeds,
  the zones tried are z1, z2, z1. The cycler moves on after a failure and never
  retries the same turn (`ScenarioFirstAttemptFails`).

## Model

| member | source | states |
|---|---|---|
| Naming.ReplaceUnderscoresSpec | main.py:66 | The name prefix has the machine type's length. Every `_` becomes `-`, every other character is kept, and no `_` remains. |
| Naming.ReplaceUnderscoresIdempotent | main.py:66 | Normalising an already-normalised machine type changes nothing. |
| Naming.ReplaceUnderscoresKeepsPlainNames | main.py:66 | A machine type with no `_`, such as the default `g2-standard-8`, is used in names unchanged. |
| Naming.NatToString | main.py:66 | The counter in a name is rendered in decimal: non-empty, digits only, no leading zero. |
| Naming.ParseNatToString | main.py:66 | Reading the rendered counter back as decimal gives the counter (round trip). |
| Naming.NatToStringInjective | main.py:66 | Different counters render differently. |
| Naming.InstanceName | main.py:66 | No instance name contains `_`, whatever the machine type, and every name ends with its slot number in decimal. `InstanceNameInjective` shows the slot is recoverable from the name. |
| Naming.InstanceNameInjective | main.py:66 | Two requests share a name exactly when they fill the same slot (same created count). |
| Naming.SuccessLine | main.py:100 | The success line names the instance right after the fixed opening `Successfully created ` and the zone right before the closing period. |
| Naming.SuccessLineInjective | main.py:100 | Among names of one length, two success lines are equal exactly when they report the same instance in the same zone. |
| Zones.ZoneAt | main.py:56-63 | The zone of attempt k (1-indexed) is a member of the zone list. |
| Zones.ZoneAtFirstPass | main.py:56-63 | The first pass visits the zones in list order, starting from the first. |
| Zones.ZoneAtPeriodic | main.py:56-63 | The rotation repeats with period equal to the number of zones. |
| Zones.Start | main.py:56 | `cycle(zones)` starts over the whole zone list at a valid position. `DrawnPosition` gives its position as 0 after no draws. |
| Zones.Next | main.py:63 | One `next` hands out a zone of the list and keeps the cycler valid over the same list. `CyclerMatchesZoneAt` says which zone it is. |
| Zones.Drawn | main.py:56-63 | The cycler after k draws stays valid over the same list. `DrawnPosition` pins its position to k mod Z. |
| Zones.DrawnPosition | main.py:56-63 | After k `next` calls on `cycle(zones)`, the cycler stands at index k mod the number of zones. |
| Zones.CyclerMatchesZoneAt | main.py:56-63 | The k-th `next` on a fresh cycler yields `zones[(k-1) mod Z]`. |
| Provisioning.ProjectMissing | main.py:38 | `not GCP_PROJECT`: the project is unset or empty. `Validate` states that this alone decides the 500 response. |
| Provisioning.Validate | main.py:38-48 | The request goes ahead only when the project is set and non-empty, the count is positive and zones exist. Otherwise the response is 500, then 400, then 200 with a message only, in that order of precedence. |
| Provisioning.Budget | main.py:54 | Three tries per zone for each requested instance. `BudgetFormula` proves it is `instance_count * Z * 3`. |
| Provisioning.BudgetFormula | main.py:54 | The budget, accumulated as three tries per zone for each requested instance, equals `instance_count * Z * 3`. |
| Provisioning.SuccessCountExtremes | main.py:95-109 | A trace with no successful attempt counts no created instance. A trace of successes only counts one per attempt. |
| Provisioning.ShortfallMessage | main.py:112 | The shortfall message. `ShortfallMessageReportsBudget` states its content. |
| Provisioning.ShortfallMessageReportsBudget | main.py:112 | The shortfall message opens with `Process finished after ` and carries the attempt budget in decimal, which reads back as the budget. |
| Provisioning.SuccessLines | main.py:100-102 | The success log has exactly one line per successful attempt. |
| Provisioning.AppendRecord | main.py:95-109 | One attempt raises the created count by one on success and leaves it unchanged on a provider or unexpected error. |
| Provisioning.AppendLine | main.py:99-102 | One attempt appends its success line to the log on success and nothing on either error. |
| Provisioning.AttemptFollows | main.py:61-109 | Attempt k is the one the loop makes at that point: guard held, the rotation's zone, the name from the successes so far, and the provider's answer. `AttemptShape` and `GuardHeld` unfold it. |
| Provisioning.IsRunOf | main.py:61-109 | A complete trace: every attempt follows, and the loop guard fails at the end. `CreateInstances` produces one, and `RunDeterministic` shows there is only one. |
| Provisioning.CreateInstances | main.py:32-123 | Rejections return their status with no attempts. Otherwise the trace is a complete run: within budget, created at most the goal, a shortfall only when the budget is spent. The response is 200 with the matching message, the requested count, the created count and the success log. |
| RunProperties.GuardHeld | main.py:61 | Every attempt started while the created count was below the goal and the attempt count below the budget. |
| RunProperties.RunWithinBudget | main.py:54-62 | A run never exceeds `count * Z * 3` attempts and never creates more than requested. |
| RunProperties.ShortfallSpendsBudget | main.py:111-115 | Fewer instances than requested implies the full budget was used. Otherwise exactly the goal was created. |
| RunProperties.AttemptShape | main.py:62-66 | Attempt k+1 carries number k+1 and targets `zones[k mod Z]`. It is named after the successes before it and records what the provider answered. |
| RunProperties.NameAdvancesOnlyOnSuccess | main.py:66-99 | The next request keeps the same name exactly when the current attempt failed. After a success it moves to the next slot. |
| RunProperties.LogLineSource | main.py:99-102 | Line i of the success log comes from the successful attempt that was the i-th success. |
| RunProperties.LogMatchesCreations | main.py:99-122 | The log has one line per created instance. Line i comes from the attempt that was the i-th success, and reports the instance named `...-pool-i` in that attempt's zone. |
| RunProperties.AllSucceed | main.py:61-99 | If every attempt succeeds, there are exactly `count` attempts and `count` instances. Attempt k+1 fills slot k in the k-th zone of the rotation. |
| RunProperties.AllFail | main.py:54-62 | If every attempt fails, the run spends the whole budget and creates nothing. |
| RunProperties.AttemptDetermined | main.py:61-109 | Two runs with the same provider answers that agree on earlier attempts also agree on the next one. |
| RunProperties.RunsAgreeOnPrefix | main.py:61-109 | Two runs with the same provider answers agree on every attempt before either ends. |
| RunProperties.RunDeterministic | main.py:61-109 | The provider's answers determine the whole attempt trace. |
| Scenarios.DefaultBudget | main.py:29-54 | The eleven default zones give a budget of 33 attempts per requested instance. |
| Scenarios.ScenarioAllSucceed | main.py:52-102 | Three zones, three instances, all succeed: three attempts in z1, z2, z3, named `-pool-0`, `-pool-1` and `-pool-2`. |
| Scenarios.ScenarioZoneDown | main.py:52-109 | One zone that always fails and two instances asked: six attempts, nothing created. |
| Scenarios.ScenarioFirstAttemptFails | main.py:52-109 | Two zones, two instances, first attempt fails then all succeed: three attempts in z1, z2, z1. |
| Scenarios.ScenarioFirstAttemptFailsCount | main.py:52-109 | In the same run exactly three attempts are made and both instances are created. |
| Scenarios.ScenarioFirstAttemptFailsNames | main.py:66-99 | In the same run the failed first attempt and the second attempt share the name `-pool-0`, and the third is `-pool-1`. |

## Left out

- Flask routing and app start-up (main.py:10, 31, 126-127). The count is an `int` parameter and the result is a `Response` datatype holding a status code. Flask's `int` converter only routes non-negative path values; the model accepts any integer.
- Reading environment variables (main.py:23-26). The project (optional), the machine type and the zone list are fields of `Config`. The defaults are the constants `DefaultMachineType` and `DefaultZones`.
- `log_structured`, `print` and `json.dumps` (main.py:13-20). They are an observability sink. Assuming they do not raise (see below), they do not change the result.
- The `compute_v1` insert and wait calls, the 300-second timeout and the instance resource beyond name and zone (main.py:50-51, 68-93). These are cloud SDK calls. They become the `Oracle` parameter, which maps the attempt number and request to an `Outcome`. How the provider classifies an error is the oracle's choice. For example, an empty `errors` list makes the code raise `IndexError`, which is then handled as an unexpected error.
- `time.sleep(0.5)` and `time.sleep(1)` (main.py:106, 109). The pauses do not change any state, so the provider-error and unexpected-error paths differ only in log severity.
- The error detail of each failure is kept in the `Outcome` but never reaches the response, as in the code.
- CreateInstances: assumes that building the two `compute_v1` clients (main.py:50-51) does not raise. Those calls sit outside the `try`. If they fail, for example without default credentials, the exception leaves the handler after validation and Flask answers 500 with no attempt made. The model's `status == 200` holds only once the loop has started.
- CreateInstances: assumes that `log_structured` never raises. A raise at main.py:101 would come after the increment at main.py:99 and before the append at main.py:102. The `except` at main.py:107 would catch it, and the created count would end one ahead of the log. The model keeps the log and the created count equal.
