/** The simulation state store: the entities of the simulated network, the
    attack log, the seed configuration and the reducer that applies one
    action to a state. The reducer is a pure function: it builds a new state
    and never changes the old one. */
module Context {
  import opened Seqs

  datatype TargetStatus = Online | Compromised | Offline

  datatype ServiceStatus = Open | Closed | Filtered

  datatype Service = Service(port: int, name: string, version: string, status: ServiceStatus)

  datatype Severity = Low | Medium | High | Critical

  datatype Vulnerability = Vulnerability(id: string, cve: string, severity: Severity, description: string)

  datatype Target = Target(
    id: string,
    name: string,
    ip: string,
    os: string,
    services: seq<Service>,
    status: TargetStatus,
    vulnerabilities: seq<Vulnerability>)

  datatype StepResult = Success | Failure | Partial

  /** One entry of the attack log. `timestamp` is the creation time in
      milliseconds; `phase` is whatever phase tag the decision carried. */
  datatype AttackStep = AttackStep(
    id: string,
    timestamp: nat,
    phase: string,
    action: string,
    target: string,
    result: StepResult,
    details: string,
    mitreId: Option<string>)

  datatype SimulationState = SimulationState(
    targets: seq<Target>,
    attackSteps: seq<AttackStep>,
    currentPhase: string,
    isRunning: bool,
    aiDecision: string,
    compromisedTargets: seq<string>)

  datatype SimulationAction =
    | StartSimulation
    | StopSimulation
    | AddAttackStep(step: AttackStep)
    | UpdateTargetStatus(targetId: string, newStatus: TargetStatus)
    | SetAIDecision(reasoning: string)
    | SetCurrentPhase(phase: string)
    | CompromiseTarget(compromisedId: string)

  // The five attack phases, in the order the engine walks through them.
  const Reconnaissance: string := "reconnaissance"
  const Exploitation: string := "exploitation"
  const PrivilegeEscalation: string := "privilege_escalation"
  const LateralMovement: string := "lateral_movement"
  const Persistence: string := "persistence"
  const PhaseOrder: seq<string> := [Reconnaissance, Exploitation, PrivilegeEscalation, LateralMovement, Persistence]

  predicate IsSevere(v: Vulnerability) {
    v.severity == High || v.severity == Critical
  }

  predicate IsOnline(t: Target) {
    t.status == Online
  }

  predicate IsCompromised(t: Target) {
    t.status == Compromised
  }

  /** No two targets share an id. */
  ghost predicate UniqueIds(ts: seq<Target>) {
    forall i, j :: 0 <= i < j < |ts| ==> ts[i].id != ts[j].id
  }

  function InitialTargets(): seq<Target> {
    [ Target("target-1", "Web Server (DMZ)", "192.168.1.10", "Ubuntu 20.04",
        [ Service(80, "HTTP", "Apache 2.4.41", Open),
          Service(443, "HTTPS", "Apache 2.4.41", Open),
          Service(22, "SSH", "OpenSSH 8.2", Open) ],
        Online,
        [ Vulnerability("vuln-1", "CVE-2023-1234", High,
            "Simulated Apache vulnerability for educational purposes") ]),
      Target("target-2", "Database Server", "192.168.1.20", "CentOS 7",
        [ Service(3306, "MySQL", "5.7.32", Open),
          Service(22, "SSH", "OpenSSH 7.4", Open) ],
        Online,
        [ Vulnerability("vuln-2", "CVE-2023-5678", Critical,
            "Simulated MySQL privilege escalation vulnerability") ]),
      Target("target-3", "Domain Controller", "192.168.1.5", "Windows Server 2019",
        [ Service(389, "LDAP", "Active Directory", Open),
          Service(3389, "RDP", "Terminal Services", Open),
          Service(445, "SMB", "SMB 3.1.1", Open) ],
        Online,
        [ Vulnerability("vuln-3", "CVE-2023-9999", High,
            "Simulated Active Directory vulnerability") ]) ]
  }

  /** The seed configuration every session starts from. */
  function InitialState(): SimulationState {
    SimulationState(InitialTargets(), [], Reconnaissance, false, "Initializing AI simulation engine...", [])
  }

  /** The three seed targets have distinct ids and are all online. */
  lemma SeedTargets()
    ensures var ts := InitialTargets();
      && |ts| == 3 && UniqueIds(ts)
      && forall t :: t in ts ==> t.status == Online
  {
  }

  /** Each seed target carries a high or critical vulnerability. */
  lemma SeedTargetsVulnerable()
    ensures forall t :: t in InitialTargets() ==> exists v :: v in t.vulnerabilities && IsSevere(v)
  {
    var ts := InitialTargets();
    forall t | t in ts ensures exists v :: v in t.vulnerabilities && IsSevere(v) {
      assert t == ts[0] || t == ts[1] || t == ts[2];
      assert t.vulnerabilities[0] in t.vulnerabilities;
    }
  }

  /** A session starts on the seed targets, in reconnaissance, not running,
      with an empty log and nothing compromised. */
  lemma SeedState()
    ensures var s := InitialState();
      && |s.targets| == 3 && UniqueIds(s.targets)
      && (forall t :: t in s.targets ==> t.status == Online)
      && (forall t :: t in s.targets ==> exists v :: v in t.vulnerabilities && IsSevere(v))
      && s.currentPhase == Reconnaissance && !s.isRunning
      && s.attackSteps == [] && s.compromisedTargets == []
  {
    SeedTargets();
    SeedTargetsVulnerable();
  }

  /** The target list with every target whose id matches given the new status
      (a map over the list, so order and length stay). */
  function SetStatus(ts: seq<Target>, id: string, status: TargetStatus): (r: seq<Target>)
    ensures |r| == |ts|
    ensures forall i :: 0 <= i < |ts| ==>
      r[i] == if ts[i].id == id then ts[i].(status := status) else ts[i]
  {
    if ts == [] then []
    else [if ts[0].id == id then ts[0].(status := status) else ts[0]] + SetStatus(ts[1..], id, status)
  }

  /** The reducer. Every action is applied as a fresh state; the contract
      states, field by field, which actions may change what. */
  function Reduce(state: SimulationState, action: SimulationAction): (r: SimulationState)
    // targets keep their number, order and ids; only UPDATE_TARGET_STATUS touches them
    ensures |r.targets| == |state.targets|
    ensures forall i :: 0 <= i < |r.targets| ==> r.targets[i].id == state.targets[i].id
    ensures !action.UpdateTargetStatus? ==> r.targets == state.targets
    // the attack log and the compromised list only grow, and only by their own action
    ensures state.attackSteps <= r.attackSteps
    ensures !action.AddAttackStep? ==> r.attackSteps == state.attackSteps
    ensures state.compromisedTargets <= r.compromisedTargets
    ensures !action.CompromiseTarget? ==> r.compromisedTargets == state.compromisedTargets
    // the flag, the decision text and the phase are each written by one action only
    ensures !(action.StartSimulation? || action.StopSimulation?) ==> r.isRunning == state.isRunning
    ensures !action.SetAIDecision? ==> r.aiDecision == state.aiDecision
    ensures !action.SetCurrentPhase? ==> r.currentPhase == state.currentPhase
  {
    match action
    case StartSimulation => state.(isRunning := true)
    case StopSimulation => state.(isRunning := false)
    case AddAttackStep(step) => state.(attackSteps := state.attackSteps + [step])
    case UpdateTargetStatus(id, status) => state.(targets := SetStatus(state.targets, id, status))
    case SetAIDecision(text) => state.(aiDecision := text)
    case SetCurrentPhase(phase) => state.(currentPhase := phase)
    case CompromiseTarget(id) => state.(compromisedTargets := state.compromisedTargets + [id])
  }

  /** START_SIMULATION raises the running flag and STOP_SIMULATION lowers it;
      no other field moves. */
  lemma StartStopOnlyFlag(state: SimulationState)
    ensures Reduce(state, StartSimulation).isRunning
    ensures !Reduce(state, StopSimulation).isRunning
    ensures Reduce(state, StartSimulation).(isRunning := state.isRunning) == state
    ensures Reduce(state, StopSimulation).(isRunning := state.isRunning) == state
  {
  }

  /** ADD_ATTACK_STEP grows the log by exactly one, keeps the old log as a
      prefix and puts the new step last. */
  lemma AddAttackStepAppends(state: SimulationState, step: AttackStep)
    ensures var r := Reduce(state, AddAttackStep(step));
      && |r.attackSteps| == |state.attackSteps| + 1
      && r.attackSteps[..|state.attackSteps|] == state.attackSteps
      && r.attackSteps[|state.attackSteps|] == step
      && r.(attackSteps := state.attackSteps) == state
  {
  }

  /** UPDATE_TARGET_STATUS keeps the length and order of the targets; targets
      with the given id get the new status and keep every other field; all
      other targets are untouched. */
  lemma UpdateTargetStatusEffect(state: SimulationState, id: string, status: TargetStatus)
    ensures var r := Reduce(state, UpdateTargetStatus(id, status));
      && |r.targets| == |state.targets|
      && (forall i :: 0 <= i < |r.targets| && state.targets[i].id == id ==>
            r.targets[i].status == status && r.targets[i].(status := state.targets[i].status) == state.targets[i])
      && (forall i :: 0 <= i < |r.targets| && state.targets[i].id != id ==> r.targets[i] == state.targets[i])
      && r.(targets := state.targets) == state
  {
  }

  /** UPDATE_TARGET_STATUS for an id no target has leaves the targets as they were. */
  lemma UpdateUnknownTargetIsNoOp(state: SimulationState, id: string, status: TargetStatus)
    requires forall t :: t in state.targets ==> t.id != id
    ensures Reduce(state, UpdateTargetStatus(id, status)) == state
  {
    var r := Reduce(state, UpdateTargetStatus(id, status));
    assert forall i :: 0 <= i < |state.targets| ==> state.targets[i] in state.targets;
    assert r.targets == state.targets;
  }

  /** SET_AI_DECISION and SET_CURRENT_PHASE replace their field with the
      payload as given (the phase is not checked against the five phases). */
  lemma SettersReplace(state: SimulationState, text: string, phase: string)
    ensures Reduce(state, SetAIDecision(text)) == state.(aiDecision := text)
    ensures Reduce(state, SetCurrentPhase(phase)) == state.(currentPhase := phase)
    ensures phase !in PhaseOrder ==> Reduce(state, SetCurrentPhase(phase)).currentPhase !in PhaseOrder
  {
  }

  /** COMPROMISE_TARGET appends without removing duplicates: an id already
      present is listed once more. */
  lemma CompromiseTargetAppends(state: SimulationState, id: string)
    ensures var r := Reduce(state, CompromiseTarget(id));
      && r.compromisedTargets == state.compromisedTargets + [id]
      && (id in state.compromisedTargets ==>
            multiset(r.compromisedTargets)[id] == multiset(state.compromisedTargets)[id] + 1)
  {
  }

  /** No action changes the ids of the targets, so unique ids stay unique. */
  lemma ReduceKeepsUniqueIds(state: SimulationState, action: SimulationAction)
    requires UniqueIds(state.targets)
    ensures UniqueIds(Reduce(state, action).targets)
  {
  }
}
