# CyberK red-team simulator: the simulation state machine in Dafny

The simulator plays a scripted "AI red-team" attack against three fictitious
network targets. The attack moves through five phases: reconnaissance,
exploitation, privilege escalation, lateral movement and persistence. This
project models the part of the program that has real logic:

- the **state store** (`Context`, `simulation_context.dfy`). It holds the
  entity types, the seed state and the reducer. The reducer is a pure
  function over seven action kinds.
- the **decision and step engine** (`Engine`, `simulation_engine.dfy`):
  - the rule table that picks the next action from the current phase;
  - the specification function `StepOutcome`, the state after one step;
  - the class `SimulationEngine`, which holds the store's state and the
    auto-mode switch. Its `ExecuteSimulationStep` issues the same sequence of
    dispatches as the original and reads the pre-step snapshot, as the
    original does.
- the **threat report** (`Report`, `threat_report.dfy`): the counts, the
  phase buckets, the download summary, the phase status, the risk level and
  the success rate.
- two helper modules. `Seqs` (`seqs.dfy`) has filter, find and indexOf.
  `Numerals` (`numerals.dfy`) renders numbers in decimal and parses them back.

The original's random draws and clock are parameters:

- `pick` is the random index into the phase's pool of targets. `ValidPick`
  says the index lies below the pool's size whenever the pool is non-empty.
- `success` is the outcome draw.
- `mitreNumber` is the random MITRE number, in [1000, 9999].
- `clock` is `Date.now()`, used for the step id.
- `timestamp` is the step's creation time.

`currentPhase` and a step's `phase` are strings, as in the original. The
reducer accepts any phase string without checking it. A successful step from
an unknown phase goes back to `reconnaissance`, because the index lookup
returns -1 for it.

Three facts about the code shape what the model proves:

- The code never checks that `currentPhase` is one of the five phases. The
  model proves it for the states the engine reaches from the seed, with
  steps, START_SIMULATION and STOP_SIMULATION (`Engine.Consistent`).
- UPDATE_TARGET_STATUS updates every target whose id matches, so a
  successful exploitation compromises exactly one target only when target
  ids are distinct. The model proves "exactly one" under that condition. The
  seed satisfies it and no action breaks it.
- The five phase buckets of the report cover the log only when every logged
  phase tag is one of the five. A fallback decision from an unknown phase
  logs that unknown phase. The model proves the general partition, including
  the entries with no known phase, and proves that the buckets cover the log
  for consistent states.

## Model

| member | source | states |
|---|---|---|
| `Context.SeedTargets` | src/context/SimulationContext.tsx:56-116 | The seed has 3 targets with distinct ids, and all of them are online. |
| `Context.SeedTargetsVulnerable` | src/context/SimulationContext.tsx:56-116 | Each seed target has a high or critical vulnerability. |
| `Context.SeedState` | src/context/SimulationContext.tsx:118-125 | A session starts on the seed targets. The phase is reconnaissance, the simulation is not running, and the log and the compromised list are empty. |
| `Context.SetStatus` | src/context/SimulationContext.tsx:138-142 | The status update keeps the length of the target list. Position i gets the new status exactly when its id matches; every other target is unchanged. |
| `Context.Reduce` | src/context/SimulationContext.tsx:127-156 | No action adds, removes, reorders or renames targets, and only UPDATE_TARGET_STATUS changes them. The log and the compromised list only grow, each only by its own action. The running flag, the decision text and the phase are each written by their own action only. |
| `Context.StartStopOnlyFlag` | src/context/SimulationContext.tsx:129-132 | START_SIMULATION sets the running flag and STOP_SIMULATION clears it; every other field is unchanged. |
| `Context.AddAttackStepAppends` | src/context/SimulationContext.tsx:133-134 | The log grows by exactly one. The old log is a prefix and the new step is last; nothing else changes. |
| `Context.UpdateTargetStatusEffect` | src/context/SimulationContext.tsx:135-143 | Length and order of the targets are kept. Targets with the id get the new status and keep all other fields. All other targets and fields are unchanged. |
| `Context.UpdateUnknownTargetIsNoOp` | src/context/SimulationContext.tsx:138-142 | With an id that no target has, the state comes back unchanged. |
| `Context.SettersReplace` | src/context/SimulationContext.tsx:144-147 | SET_AI_DECISION replaces the decision text and SET_CURRENT_PHASE replaces the phase. Nothing else changes. A phase outside the five is stored as given. |
| `Context.CompromiseTargetAppends` | src/context/SimulationContext.tsx:148-152 | The id is appended without deduplication. An id already listed is counted once more. |
| `Context.ReduceKeepsUniqueIds` | src/context/SimulationContext.tsx:127-156 | If target ids are distinct before any action, they are distinct after it. |
| `Engine.Choose` | src/components/SimulationEngine.tsx:16-68 | For each case, an iff with the phase and the targets. Reconnaissance scans an online target when one exists. Exploitation attacks a vulnerable online target when one exists, naming its first high or critical vulnerability. Privilege escalation targets a compromised target when one exists. Lateral movement and persistence have fixed actions. Otherwise the fallback is used. The chosen target is the pool entry at the random index. |
| `Engine.GenerateAIDecision` | src/components/SimulationEngine.tsx:11-69 | In every branch the decision's phase tag is the current phase. Lateral movement and persistence give fixed texts whatever the targets are. An unknown phase gives the fallback decision. |
| `Engine.NextPhase` | src/components/SimulationEngine.tsx:101-108 | Each of the first four phases moves to the next one. Persistence stays. An unknown phase goes to reconnaissance. The result is always one of the five. |
| `Engine.SimulationEngine.constructor` | src/components/SimulationEngine.tsx:5-8 | The engine starts on the seed state with auto mode off. |
| `Engine.SimulationEngine.Dispatch` | src/context/SimulationContext.tsx:163-171 | The store's new state is the reducer applied to the old state and the action. |
| `Engine.SimulationEngine.ExecuteSimulationStep` | src/components/SimulationEngine.tsx:71-109 | The five dispatches, each reading the pre-step snapshot, leave exactly the state `StepOutcome` gives. |
| `Engine.SimulationEngine.LogStep` | src/components/SimulationEngine.tsx:72-90 | SET_AI_DECISION then ADD_ATTACK_STEP replace the decision text and append the step; nothing else changes. |
| `Engine.SimulationEngine.CompromiseFirstOnline` | src/components/SimulationEngine.tsx:94-98 | UPDATE_TARGET_STATUS then COMPROMISE_TARGET, for the first online target of the pre-step list, leave the state `Hit` describes; with no online target nothing changes. |
| `Engine.HitIsTwoDispatches` | src/components/SimulationEngine.tsx:94-98 | With an online target at index k first, the hit equals the two reducer actions on that target's id. |
| `Engine.SimulationEngine.AdvancePhase` | src/components/SimulationEngine.tsx:102-108 | The phase becomes `NextPhase` of the pre-step phase: the dispatch is skipped only at persistence, which `NextPhase` keeps. |
| `Engine.SimulationEngine.ExecuteSingleStep` | src/components/SimulationEngine.tsx:189-191 | While the simulation is running, the manual step does nothing. Otherwise it performs one step. |
| `Engine.SimulationEngine.StartSimulation` | src/components/SimulationEngine.tsx:111-114 | Sets the running flag and auto mode; nothing else changes. No step is logged. |
| `Engine.SimulationEngine.StopSimulation` | src/components/SimulationEngine.tsx:116-119 | Clears the running flag and auto mode; nothing else changes. No step is logged. |
| `Engine.StepLogsOneEntry` | src/components/SimulationEngine.tsx:73-90 | A step appends exactly one entry, last, and keeps the old log as a prefix. The entry's target is "Simulated Target". Its result is success iff the draw succeeded, and never partial. Its phase and action are the decision's. Its MITRE id is "T" followed by four digits that read back to the drawn number. The decision text becomes the reasoning, and the running flag is unchanged. |
| `Engine.StepCompromisesFirstOnline` | src/components/SimulationEngine.tsx:93-99 | On a successful exploitation step, the first online target of the pre-step list becomes compromised and its id is appended. With unique ids no other target changes, and the number of compromised targets grows by exactly one. |
| `Engine.StepLeavesTargetsAlone` | src/components/SimulationEngine.tsx:93-99 | When the step is not a successful exploitation, or no target is online, the targets and the compromised list are unchanged. |
| `Engine.StepPhase` | src/components/SimulationEngine.tsx:101-108 | A failed step keeps the phase. A successful step moves it by `NextPhase`. |
| `Engine.InitialStateConsistent` | src/context/SimulationContext.tsx:56-125 | The seed has unique ids, a valid phase and a log whose phases are all valid. |
| `Engine.StepKeepsConsistent` | src/components/SimulationEngine.tsx:71-109 | A step keeps ids unique, the phase among the five, and every logged phase among the five. |
| `Engine.StartStopKeepConsistent` | src/context/SimulationContext.tsx:129-132 | START_SIMULATION and STOP_SIMULATION keep ids unique, the phase among the five and every logged phase among the five. |
| `Engine.ReconnaissanceSuccess` | src/components/SimulationEngine.tsx:71-109 | A successful reconnaissance step on an empty log logs one successful reconnaissance entry. The phase moves to exploitation and nothing is compromised. |
| `Engine.SeedFirstStep` | src/components/SimulationEngine.tsx:71-109 | From the seed, any pick index below 3 is valid. One successful step logs one reconnaissance entry, moves to exploitation and leaves all targets as they were. |
| `Numerals.DecimalRoundTrip` | src/components/SimulationEngine.tsx:87 | Reading back the decimal text of a number gives the number. |
| `Seqs.FilterMultiset` | src/components/ThreatReport.tsx:9-11 | `filter` keeps each selected element exactly as often as it occurs and drops every other element. |
| `Seqs.FilterCount` | src/components/ThreatReport.tsx:9-11 | The length of a filtered list is the number of elements that satisfy the predicate. |
| `Report.SeverityCountsBounded` | src/components/ThreatReport.tsx:26-32 | The critical count plus the high count is at most the total number of vulnerabilities. |
| `Report.SeverityCountPositive` | src/components/ThreatReport.tsx:27-32 | A severity count is positive iff some target has a vulnerability of that severity. |
| `Report.GenerateReport` | src/components/ThreatReport.tsx:8-34 | The successful and failed lists hold exactly the log's successful and failed entries, and their sizes add up to at most the log length. The compromised list holds exactly the targets whose status is compromised. Critical plus high is at most the total. |
| `Report.ReportCounts` | src/components/ThreatReport.tsx:8-34 | The successful and failed lists hold each log entry of their result exactly as often as the log does. Their sizes are the numbers of successful and failed steps. The compromised list has one entry per target with status compromised. |
| `Report.BucketIsFilter` | src/components/ThreatReport.tsx:13-19 | The report's bucket of a phase is the log filtered on that phase tag. |
| `Report.BucketsByPhase` | src/components/ThreatReport.tsx:13-19 | Each bucket holds exactly the log entries of its phase, and two different buckets share no entry. |
| `Report.BucketsPartitionLog` | src/components/ThreatReport.tsx:13-19 | The five bucket sizes plus the number of entries with no known phase equal the log length. |
| `Report.ConsistentBucketsCoverLog` | src/components/ThreatReport.tsx:13-19 | In every consistent state the five bucket sizes sum to the log length. |
| `Report.StatusOfPhaseEntries` | src/components/ThreatReport.tsx:69-75 | For a bucket holding exactly the log entries of a phase, each badge holds iff the matching condition on the log. |
| `Report.PhaseStatusOfLog` | src/components/ThreatReport.tsx:69-75 | For each status, an iff over the log. not-started iff the phase has no entries. success iff one of its entries succeeded. partial iff one was partial and none succeeded. failed iff it has entries and all of them failed. |
| `Report.RiskLevelOfState` | src/components/ThreatReport.tsx:107-111 | HIGH iff more than one target is compromised or any critical vulnerability exists. Otherwise MEDIUM iff exactly one target is compromised or any high vulnerability exists. LOW iff no target is compromised and there is no critical or high vulnerability. |
| `Report.DownloadData` | src/components/ThreatReport.tsx:38-58 | The summary's target and step totals are the lengths of the two lists. Its compromised count is the number of targets with status compromised, and its success and failure counts are the numbers of successful and failed steps. Its vulnerability count is the sum over all targets. The timeline is the whole log, the assets are exactly the compromised targets, and there are five recommendations. |
| `Report.CompromisedCountIgnoresIdList` | src/components/ThreatReport.tsx:41-50 | The summary's compromised count is the number of targets with status compromised. COMPROMISE_TARGET lengthens the id list and leaves that count unchanged. |
| `Report.RoundedPercent` | src/components/ThreatReport.tsx:212 | The result r is 100·n/d rounded half up: 2·d·r ≤ 200·n + d < 2·d·(r+1) (`IsRoundedPercent`). |
| `Report.PercentAtMost100` | src/components/ThreatReport.tsx:212 | The rounded percentage of a part of a whole never exceeds 100. |
| `Report.SuccessRate` | src/components/ThreatReport.tsx:211-214 | 0 for an empty log, with no division. Otherwise it is the number of successful steps over the log length, in percent, rounded half up. Always at most 100. |
| `Report.EmptyLogReport` | src/components/ThreatReport.tsx:209-214 | With an empty log, the summary shows 0 successes and 0 failures, and the rate is 0%. |

## Left out

- Timer-driven auto-stepping is not modelled. This is the effect that starts and clears an interval, and the step-delay slider. Its subject is scheduling in the browser, which has no counterpart here. Only the running flag and the auto-mode switch that gate it are modelled.
- Reset through a page reload is not modelled. It is a browser side effect; its outcome is the seed state, which the constructor gives.
- `Math.random`, `Date.now()` and `new Date()` are parameters. The 0.3 float threshold of the success draw is not modelled, only its boolean outcome.
- The report file is not modelled: the Blob, the object URL, the anchor element, the JSON serialisation, and the ISO-dated file name and timestamp. These are browser APIs and date formatting.
- The React context wiring is not modelled. This covers the provider, `useReducer` and the error `useSimulation` raises outside a provider. It is framework plumbing; `Dispatch` stands for the store.
- All rendering is not modelled, including the colour and icon lookups in Dashboard, NetworkTopology, AttackTimeline, ThreatReport and the App tabs. These are display tables.
- The timeline's grouping and sorting by date are not modelled, because they depend on date parsing and formatting.
- The topology view's substring matching of steps to targets is not modelled. It is display only, and step targets are always the placeholder "Simulated Target".
- The dashboard's stat counts are not modelled, because they repeat the report's counts.
- Report.SuccessRate: the original divides in floating point and then rounds. The model uses exact integer round-half-up, so at an exact .5 boundary the float result can differ.
- Engine.SimulationEngine.ExecuteSingleStep: the disabled button becomes a guard that returns `executed == false` and changes nothing. A disabled button cannot be clicked at all.
- Engine.StepLogsOneEntry: the step id is "step-" followed by the clock in decimal. Two steps in the same millisecond would share an id. The model does not claim ids are unique.
- Seqs.Filter: the contract states membership. Multiplicity is stated by `Seqs.FilterMultiset` and length by `Seqs.FilterCount`. Order is not stated; the body keeps the original order.
