/** The threat report: counts and classifications derived from a simulation
    state, the summary object offered for download, the per-phase status,
    the overall risk level and the success rate. */
module Report {
  import opened Seqs
  import opened Context
  import Engine

  datatype AttackPhases = AttackPhases(
    reconnaissance: seq<AttackStep>,
    exploitation: seq<AttackStep>,
    privilegeEscalation: seq<AttackStep>,
    lateralMovement: seq<AttackStep>,
    persistence: seq<AttackStep>)

  datatype Report = Report(
    successfulSteps: seq<AttackStep>,
    failedSteps: seq<AttackStep>,
    compromisedTargets: seq<Target>,
    attackPhases: AttackPhases,
    totalVulnerabilities: nat,
    criticalVulns: nat,
    highVulns: nat)

  datatype Summary = Summary(
    totalTargets: nat,
    compromisedTargets: nat,
    totalAttackSteps: nat,
    successfulAttacks: nat,
    failedAttacks: nat,
    vulnerabilities: nat)

  /** The downloadable report, without its generation time. */
  datatype ReportData = ReportData(
    summary: Summary,
    attackTimeline: seq<AttackStep>,
    compromisedAssets: seq<Target>,
    recommendations: seq<string>)

  datatype PhaseStatus = NotStarted | Succeeded | PartiallySucceeded | Failed

  datatype RiskLevel = LowRisk | MediumRisk | HighRisk

  predicate IsSuccess(s: AttackStep) {
    s.result == Success
  }

  predicate IsFailure(s: AttackStep) {
    s.result == Failure
  }

  function InPhase(phase: string): AttackStep -> bool {
    (s: AttackStep) => s.phase == phase
  }

  /** A log entry whose phase tag is none of the five. */
  predicate IsUnphased(s: AttackStep) {
    s.phase !in PhaseOrder
  }

  function HasSeverity(severity: Severity): Vulnerability -> bool {
    (v: Vulnerability) => v.severity == severity
  }

  /** The number of vulnerabilities summed over all targets. */
  function TotalVulnerabilities(ts: seq<Target>): nat {
    if ts == [] then 0 else |ts[0].vulnerabilities| + TotalVulnerabilities(ts[1..])
  }

  /** The number of vulnerabilities of one severity, summed over all targets. */
  function SeverityCount(ts: seq<Target>, severity: Severity): nat {
    if ts == [] then 0
    else |Filter(ts[0].vulnerabilities, HasSeverity(severity))| + SeverityCount(ts[1..], severity)
  }

  /** Critical and high vulnerabilities are counted among all vulnerabilities, never twice. */
  lemma {:induction false} SeverityCountsBounded(ts: seq<Target>)
    ensures SeverityCount(ts, Critical) + SeverityCount(ts, High) <= TotalVulnerabilities(ts)
  {
    if ts != [] {
      FilterDisjoint(ts[0].vulnerabilities, HasSeverity(Critical), HasSeverity(High));
      SeverityCountsBounded(ts[1..]);
    }
  }

  /** The severity count is positive exactly when some target has a
      vulnerability of that severity. */
  lemma {:induction false} SeverityCountPositive(ts: seq<Target>, severity: Severity)
    ensures SeverityCount(ts, severity) > 0 <==>
      exists t, v :: t in ts && v in t.vulnerabilities && v.severity == severity
  {
    if ts != [] {
      SeverityCountPositive(ts[1..], severity);
      var here := Filter(ts[0].vulnerabilities, HasSeverity(severity));
      if here != [] {
        assert here[0] in here;
        assert ts[0] in ts;
      }
      if exists t, v :: t in ts && v in t.vulnerabilities && v.severity == severity {
        var t, v :| t in ts && v in t.vulnerabilities && v.severity == severity;
        if t != ts[0] {
          assert t in ts[1..];
        } else {
          assert v in here;
        }
      }
    }
  }

  /** `generateReport`: the successful and failed steps, the compromised
      targets, the five phase buckets and the vulnerability counts. */
  function GenerateReport(state: SimulationState): (r: Report)
    ensures |r.successfulSteps| + |r.failedSteps| <= |state.attackSteps|
    ensures forall s :: s in r.successfulSteps <==> s in state.attackSteps && s.result == Success
    ensures forall s :: s in r.failedSteps <==> s in state.attackSteps && s.result == Failure
    ensures forall t :: t in r.compromisedTargets <==> t in state.targets && t.status == Compromised
    ensures r.criticalVulns + r.highVulns <= r.totalVulnerabilities
  {
    FilterDisjoint(state.attackSteps, IsSuccess, IsFailure);
    SeverityCountsBounded(state.targets);
    var steps := state.attackSteps;
    Report(
      Filter(steps, IsSuccess),
      Filter(steps, IsFailure),
      Filter(state.targets, IsCompromised),
      AttackPhases(
        Filter(steps, InPhase(Reconnaissance)),
        Filter(steps, InPhase(Exploitation)),
        Filter(steps, InPhase(PrivilegeEscalation)),
        Filter(steps, InPhase(LateralMovement)),
        Filter(steps, InPhase(Persistence))),
      TotalVulnerabilities(state.targets),
      SeverityCount(state.targets, Critical),
      SeverityCount(state.targets, High))
  }

  /** The successful and failed lists hold each log entry of their result as
      often as the log does, so their sizes are the numbers of successful and
      failed steps; the compromised list has one entry per compromised target. */
  lemma ReportCounts(state: SimulationState)
    ensures var r := GenerateReport(state);
      && |r.successfulSteps| == Count(state.attackSteps, IsSuccess)
      && |r.failedSteps| == Count(state.attackSteps, IsFailure)
      && |r.compromisedTargets| == Count(state.targets, IsCompromised)
      && (forall s :: s in state.attackSteps ==>
            multiset(r.successfulSteps)[s] == if s.result == Success then multiset(state.attackSteps)[s] else 0)
      && (forall s :: s in state.attackSteps ==>
            multiset(r.failedSteps)[s] == if s.result == Failure then multiset(state.attackSteps)[s] else 0)
  {
    FilterCount(state.attackSteps, IsSuccess);
    FilterCount(state.attackSteps, IsFailure);
    FilterCount(state.targets, IsCompromised);
    FilterMultiset(state.attackSteps, IsSuccess);
    FilterMultiset(state.attackSteps, IsFailure);
  }

  /** The bucket of the report that belongs to one of the five phases. */
  function Bucket(phases: AttackPhases, phase: string): seq<AttackStep>
    requires phase in PhaseOrder
  {
    if phase == Reconnaissance then phases.reconnaissance
    else if phase == Exploitation then phases.exploitation
    else if phase == PrivilegeEscalation then phases.privilegeEscalation
    else if phase == LateralMovement then phases.lateralMovement
    else phases.persistence
  }

  /** The bucket of a phase is the log filtered on that phase tag. */
  lemma BucketIsFilter(state: SimulationState, phase: string)
    requires phase in PhaseOrder
    ensures Bucket(GenerateReport(state).attackPhases, phase) == Filter(state.attackSteps, InPhase(phase))
  {
    var steps := state.attackSteps;
    var phases := GenerateReport(state).attackPhases;
    assert phases == AttackPhases(
      Filter(steps, InPhase(Reconnaissance)), Filter(steps, InPhase(Exploitation)),
      Filter(steps, InPhase(PrivilegeEscalation)), Filter(steps, InPhase(LateralMovement)),
      Filter(steps, InPhase(Persistence)));
  }

  /** Each bucket holds exactly the log entries of its phase, so two
      different buckets share no entry. */
  lemma BucketsByPhase(state: SimulationState, phase: string, other: string)
    requires phase in PhaseOrder && other in PhaseOrder && phase != other
    ensures var phases := GenerateReport(state).attackPhases;
      && (forall s :: s in Bucket(phases, phase) <==> s in state.attackSteps && s.phase == phase)
      && (forall s :: s in Bucket(phases, phase) ==> s !in Bucket(phases, other))
  {
    BucketIsFilter(state, phase);
    BucketIsFilter(state, other);
    var mine := Filter(state.attackSteps, InPhase(phase));
    var theirs := Filter(state.attackSteps, InPhase(other));
    assert forall s :: s in mine <==> s in state.attackSteps && s.phase == phase;
    assert forall s :: s in theirs ==> s.phase == other;
  }

  /** The five buckets and the entries tagged with no known phase split the log. */
  lemma {:induction false} BucketsPartitionLog(steps: seq<AttackStep>)
    ensures |Filter(steps, InPhase(Reconnaissance))| + |Filter(steps, InPhase(Exploitation))|
      + |Filter(steps, InPhase(PrivilegeEscalation))| + |Filter(steps, InPhase(LateralMovement))|
      + |Filter(steps, InPhase(Persistence))| + |Filter(steps, IsUnphased)| == |steps|
  {
    if steps != [] {
      BucketsPartitionLog(steps[1..]);
    }
  }

  /** In every state the engine reaches from the seed, the five bucket sizes
      add up to the number of log entries. */
  lemma ConsistentBucketsCoverLog(state: SimulationState)
    requires Engine.Consistent(state)
    ensures var phases := GenerateReport(state).attackPhases;
      |phases.reconnaissance| + |phases.exploitation| + |phases.privilegeEscalation|
        + |phases.lateralMovement| + |phases.persistence| == |state.attackSteps|
  {
    BucketsPartitionLog(state.attackSteps);
    FilterNone(state.attackSteps, IsUnphased);
  }

  /** `getPhaseStatus`: the status badge of one phase. */
  function GetPhaseStatus(report: Report, phase: string): PhaseStatus
    requires phase in PhaseOrder
  {
    StatusOf(Bucket(report.attackPhases, phase))
  }

  /** The badge for the entries of one bucket. */
  function StatusOf(steps: seq<AttackStep>): PhaseStatus {
    if |steps| == 0 then NotStarted
    else if exists s :: s in steps && s.result == Success then Succeeded
    else if exists s :: s in steps && s.result == Partial then PartiallySucceeded
    else Failed
  }

  /** The badge of a bucket that holds exactly the log entries of `phase`. */
  lemma StatusOfPhaseEntries(steps: seq<AttackStep>, log: seq<AttackStep>, phase: string)
    requires forall s :: s in steps <==> s in log && s.phase == phase
    ensures var status := StatusOf(steps);
      && (status == NotStarted <==> forall s :: s in log ==> s.phase != phase)
      && (status == Succeeded <==> exists s :: s in log && s.phase == phase && s.result == Success)
      && (status == PartiallySucceeded <==>
            (exists s :: s in log && s.phase == phase && s.result == Partial)
            && forall s :: s in log && s.phase == phase ==> s.result != Success)
      && (status == Failed <==>
            (exists s :: s in log && s.phase == phase)
            && forall s :: s in log && s.phase == phase ==> s.result == Failure)
  {
    if steps != [] {
      assert steps[0] in steps;
    }
  }

  /** The status of a phase, read off the log: not started when no entry has
      that phase; succeeded when one of them succeeded; partial when none
      succeeded and one was partial; failed when all of them failed. */
  lemma PhaseStatusOfLog(state: SimulationState, phase: string)
    requires phase in PhaseOrder
    ensures var status := GetPhaseStatus(GenerateReport(state), phase);
      var log := state.attackSteps;
      && (status == NotStarted <==> forall s :: s in log ==> s.phase != phase)
      && (status == Succeeded <==> exists s :: s in log && s.phase == phase && s.result == Success)
      && (status == PartiallySucceeded <==>
            (exists s :: s in log && s.phase == phase && s.result == Partial)
            && forall s :: s in log && s.phase == phase ==> s.result != Success)
      && (status == Failed <==>
            (exists s :: s in log && s.phase == phase)
            && forall s :: s in log && s.phase == phase ==> s.result == Failure)
  {
    BucketIsFilter(state, phase);
    var steps := Filter(state.attackSteps, InPhase(phase));
    assert forall s :: s in steps <==> s in state.attackSteps && s.phase == phase;
    StatusOfPhaseEntries(steps, state.attackSteps, phase);
  }

  /** `getRiskLevel`: the overall risk badge. */
  function GetRiskLevel(report: Report): RiskLevel {
    if |report.compromisedTargets| > 1 || report.criticalVulns > 0 then HighRisk
    else if |report.compromisedTargets| == 1 || report.highVulns > 0 then MediumRisk
    else LowRisk
  }

  /** The risk level, read off the state: high when more than one target is
      compromised or any critical vulnerability exists; otherwise medium when
      one target is compromised or any high vulnerability exists; else low. */
  lemma RiskLevelOfState(state: SimulationState)
    ensures var risk := GetRiskLevel(GenerateReport(state));
      var compromised := |Filter(state.targets, IsCompromised)|;
      var anyCritical := exists t, v :: t in state.targets && v in t.vulnerabilities && v.severity == Critical;
      var anyHigh := exists t, v :: t in state.targets && v in t.vulnerabilities && v.severity == High;
      && (risk == HighRisk <==> compromised > 1 || anyCritical)
      && (risk == MediumRisk <==> !(compromised > 1 || anyCritical) && (compromised == 1 || anyHigh))
      && (risk == LowRisk <==> compromised == 0 && !anyCritical && !anyHigh)
  {
    SeverityCountPositive(state.targets, Critical);
    SeverityCountPositive(state.targets, High);
  }

  const Recommendations: seq<string> := [
    "Implement network segmentation to limit lateral movement",
    "Patch critical and high severity vulnerabilities immediately",
    "Deploy endpoint detection and response (EDR) solutions",
    "Enhance monitoring and logging capabilities",
    "Conduct regular security assessments and penetration testing"
  ]

  /** The report object `downloadReport` serialises, without its timestamp. */
  function DownloadData(state: SimulationState): (d: ReportData)
    ensures d.summary.totalTargets == |state.targets| && d.summary.totalAttackSteps == |state.attackSteps|
    ensures d.summary.compromisedTargets == Count(state.targets, IsCompromised)
    ensures d.summary.successfulAttacks == Count(state.attackSteps, IsSuccess)
    ensures d.summary.failedAttacks == Count(state.attackSteps, IsFailure)
    ensures d.summary.vulnerabilities == TotalVulnerabilities(state.targets)
    ensures d.summary.compromisedTargets <= d.summary.totalTargets
    ensures d.summary.successfulAttacks + d.summary.failedAttacks <= d.summary.totalAttackSteps
    ensures forall t :: t in d.compromisedAssets <==> t in state.targets && t.status == Compromised
    ensures d.attackTimeline == state.attackSteps
    ensures |d.recommendations| == 5
  {
    var report := GenerateReport(state);
    ReportCounts(state);
    ReportData(
      Summary(|state.targets|, |report.compromisedTargets|, |state.attackSteps|,
        |report.successfulSteps|, |report.failedSteps|, report.totalVulnerabilities),
      state.attackSteps,
      report.compromisedTargets,
      Recommendations)
  }

  /** The summary counts targets whose status is compromised, not entries of
      the compromised-id list: COMPROMISE_TARGET lengthens the list and leaves
      the reported count as it was. */
  lemma CompromisedCountIgnoresIdList(state: SimulationState, id: string)
    ensures var after := Reduce(state, CompromiseTarget(id));
      && |after.compromisedTargets| == |state.compromisedTargets| + 1
      && DownloadData(state).summary.compromisedTargets == Count(state.targets, IsCompromised)
      && DownloadData(after).summary.compromisedTargets == DownloadData(state).summary.compromisedTargets
  {
  }

  /** `r` is the percentage n/d rounded to the nearest integer, halves rounded up. */
  predicate IsRoundedPercent(n: nat, d: nat, r: nat) {
    0 < d && 2 * d * r <= 200 * n + d < 2 * d * (r + 1)
  }

  function RoundedPercent(n: nat, d: nat): (r: nat)
    requires 0 < d
    ensures IsRoundedPercent(n, d, r)
  {
    var q := (200 * n + d) / (2 * d);
    assert 200 * n + d == 2 * d * q + (200 * n + d) % (2 * d);
    q
  }

  /** The rounded percentage of a part of a whole is at most 100. */
  lemma PercentAtMost100(n: nat, d: nat, r: nat)
    requires n <= d && IsRoundedPercent(n, d, r)
    ensures r <= 100
  {
    assert 2 * d * r < (2 * d) * 101;
    CancelFactor(2 * d, r, 101);
  }

  /** A positive factor can be cancelled from both sides of a strict inequality. */
  lemma CancelFactor(a: nat, b: nat, c: nat)
    requires 0 < a && a * b < a * c
    ensures b < c
  {
  }

  /** The success rate shown in the report, in percent: 0 for an empty log
      (no division), otherwise successful steps over all steps, rounded. */
  function SuccessRate(state: SimulationState): (r: nat)
    ensures |state.attackSteps| == 0 ==> r == 0
    ensures r <= 100
    ensures |state.attackSteps| > 0 ==>
      IsRoundedPercent(Count(state.attackSteps, IsSuccess), |state.attackSteps|, r)
  {
    var total := |state.attackSteps|;
    var successful := |GenerateReport(state).successfulSteps|;
    ReportCounts(state);
    if total > 0 then
      var r := RoundedPercent(successful, total);
      PercentAtMost100(successful, total, r);
      r
    else 0
  }

  /** A report of an empty log shows no successes, no failures and a 0% rate. */
  lemma EmptyLogReport(state: SimulationState)
    requires state.attackSteps == []
    ensures var d := DownloadData(state);
      d.summary.successfulAttacks == 0 && d.summary.failedAttacks == 0 && SuccessRate(state) == 0
  {
  }
}
