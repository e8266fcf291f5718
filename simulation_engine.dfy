/** The decision and step engine: a rule table that picks the next simulated
    action from the current phase and targets, and the step that logs it,
    compromises a target on a successful exploitation and advances the phase.
    The random draws of the original (target pick, success, MITRE number) and
    the clock are parameters. */
module Engine {
  import opened Seqs
  import opened Numerals
  import opened Context

  datatype Decision = Decision(action: string, phase: string, reasoning: string)

  /** What the rule table settled on, before it is put into words. */
  datatype Choice =
    | Scan(target: Target)
    | Exploit(target: Target, vuln: Vulnerability)
    | Escalate(target: Target)
    | Discover
    | Persist
    | Fallback

  /** Online and carrying at least one high or critical vulnerability. */
  predicate IsVulnerable(t: Target) {
    t.status == Online && exists v :: v in t.vulnerabilities && IsSevere(v)
  }

  /** `v` is the first high or critical vulnerability of the list. */
  ghost predicate IsFirstSevere(vs: seq<Vulnerability>, v: Vulnerability) {
    exists k :: 0 <= k < |vs| && vs[k] == v && IsSevere(v) && forall j :: 0 <= j < k ==> !IsSevere(vs[j])
  }

  /** The targets the current phase draws one from at random. */
  function PickPool(state: SimulationState): seq<Target> {
    if state.currentPhase == Reconnaissance then Filter(state.targets, IsOnline)
    else if state.currentPhase == Exploitation then Filter(state.targets, IsVulnerable)
    else if state.currentPhase == PrivilegeEscalation then Filter(state.targets, IsCompromised)
    else []
  }

  /** A random index into a non-empty pool always lands inside it. */
  predicate ValidPick(state: SimulationState, pick: nat) {
    PickPool(state) == [] || pick < |PickPool(state)|
  }

  /** The rule table of `generateAIDecision`, keyed on the current phase. */
  function Choose(state: SimulationState, pick: nat): (c: Choice)
    requires ValidPick(state, pick)
    ensures c.Scan? <==> state.currentPhase == Reconnaissance && exists t :: t in state.targets && IsOnline(t)
    ensures c.Scan? ==> c.target in state.targets && IsOnline(c.target)
    ensures c.Exploit? <==> state.currentPhase == Exploitation && exists t :: t in state.targets && IsVulnerable(t)
    ensures c.Exploit? ==> c.target in state.targets && IsVulnerable(c.target)
    ensures c.Exploit? ==> IsFirstSevere(c.target.vulnerabilities, c.vuln)
    ensures c.Escalate? <==> state.currentPhase == PrivilegeEscalation && exists t :: t in state.targets && IsCompromised(t)
    ensures c.Escalate? ==> c.target in state.targets && IsCompromised(c.target)
    ensures c.Discover? <==> state.currentPhase == LateralMovement
    ensures c.Persist? <==> state.currentPhase == Persistence
    ensures c.Scan? || c.Exploit? || c.Escalate? ==> c.target == PickPool(state)[pick]
  {
    var pool := PickPool(state);
    if state.currentPhase == Reconnaissance then
      if pool != [] then assert pool[pick] in pool; Scan(pool[pick]) else Fallback
    else if state.currentPhase == Exploitation then
      if pool != [] then
        var t := pool[pick];
        assert t in pool;
        match FindFirst(t.vulnerabilities, IsSevere)
        case Some(k) => Exploit(t, t.vulnerabilities[k])
        case None => assert false; Fallback
      else Fallback
    else if state.currentPhase == PrivilegeEscalation then
      if pool != [] then assert pool[pick] in pool; Escalate(pool[pick]) else Fallback
    else if state.currentPhase == LateralMovement then Discover
    else if state.currentPhase == Persistence then Persist
    else Fallback
  }

  const DiscoverAction: string := "Network discovery and credential harvesting"
  const DiscoverReasoning: string :=
    "AI is exploring the network topology, looking for additional targets and harvesting credentials for lateral movement."
  const PersistAction: string := "Install backdoor and maintain access"
  const PersistReasoning: string :=
    "AI is establishing persistence mechanisms to maintain long-term access to compromised systems."
  const FallbackAction: string := "Analyzing current state and planning next move"
  const FallbackReasoning: string :=
    "AI is evaluating available options and formulating the optimal attack strategy."

  /** The words of a decision; the fallback is tagged with the current phase. */
  function Describe(c: Choice, currentPhase: string): Decision {
    match c
    case Scan(t) =>
      Decision("Port scan and service enumeration on " + t.name, Reconnaissance,
        "AI identified " + t.name + " as an accessible target. Gathering information about open services and potential attack vectors.")
    case Exploit(t, v) =>
      Decision("Exploit " + v.cve + " on " + t.name, Exploitation,
        "AI detected critical vulnerability " + v.cve + " on " + t.name + ". Attempting simulated exploitation to gain initial foothold.")
    case Escalate(t) =>
      Decision("Local privilege escalation on " + t.name, PrivilegeEscalation,
        "AI gained initial access to " + t.name + ". Now attempting to escalate privileges to gain administrative control.")
    case Discover => Decision(DiscoverAction, LateralMovement, DiscoverReasoning)
    case Persist => Decision(PersistAction, Persistence, PersistReasoning)
    case Fallback => Decision(FallbackAction, currentPhase, FallbackReasoning)
  }

  /** `generateAIDecision`, with the random index drawn from the phase's pool as `pick`. */
  function GenerateAIDecision(state: SimulationState, pick: nat): (d: Decision)
    requires ValidPick(state, pick)
    ensures d.phase == state.currentPhase
    ensures state.currentPhase == LateralMovement ==> d == Decision(DiscoverAction, LateralMovement, DiscoverReasoning)
    ensures state.currentPhase == Persistence ==> d == Decision(PersistAction, Persistence, PersistReasoning)
    ensures state.currentPhase !in PhaseOrder ==> d == Decision(FallbackAction, state.currentPhase, FallbackReasoning)
  {
    Describe(Choose(state, pick), state.currentPhase)
  }

  /** The phase after a successful step: the next of the five, `persistence`
      stays put, and an unknown phase (index -1) restarts at `reconnaissance`. */
  function NextPhase(phase: string): (r: string)
    ensures r in PhaseOrder
    ensures phase == Persistence ==> r == Persistence
    ensures forall k :: 0 <= k < |PhaseOrder| - 1 && PhaseOrder[k] == phase ==> r == PhaseOrder[k + 1]
    ensures phase !in PhaseOrder ==> r == Reconnaissance
  {
    var i := IndexOf(PhaseOrder, phase);
    if i < |PhaseOrder| - 1 then PhaseOrder[i + 1] else phase
  }

  const StepTargetLabel: string := "Simulated Target"

  /** The log entry one step produces. */
  function NewAttackStep(d: Decision, success: bool, mitreNumber: nat, clock: nat, timestamp: nat): AttackStep {
    var result := if success then Success else Failure;
    AttackStep("step-" + Decimal(clock), timestamp, d.phase, d.action, StepTargetLabel, result,
      d.reasoning + " Result: " + (if result == Success then "Successful execution" else "Attack failed, adapting strategy"),
      Some("T" + Decimal(mitreNumber)))
  }

  /** The state after one step, stated on the state before it: every read
      of the original's step uses that snapshot. */
  function StepOutcome(s: SimulationState, pick: nat, success: bool, mitreNumber: nat, clock: nat, timestamp: nat): SimulationState
    requires ValidPick(s, pick)
  {
    var d := GenerateAIDecision(s, pick);
    var logged := Logged(s, d.reasoning, NewAttackStep(d, success, mitreNumber, clock, timestamp));
    var afterHit := if success && d.phase == Exploitation then Hit(s.targets, logged) else logged;
    if success then afterHit.(currentPhase := NextPhase(s.currentPhase)) else afterHit
  }

  /** The decision text replaced and the step appended to the log. */
  function Logged(s: SimulationState, reasoning: string, step: AttackStep): SimulationState {
    s.(aiDecision := reasoning, attackSteps := s.attackSteps + [step])
  }

  /** The first online target of the pre-step list `before`, if any,
      marked compromised in `s` and its id appended to the compromised list. */
  function Hit(before: seq<Target>, s: SimulationState): SimulationState {
    match FindFirst(before, IsOnline)
    case Some(k) =>
      s.(targets := SetStatus(before, before[k].id, Compromised),
         compromisedTargets := s.compromisedTargets + [before[k].id])
    case None => s
  }

  /** When `before` has an online target, the hit is the two actions that
      compromise the first one: its status, then its id. */
  lemma HitIsTwoDispatches(before: seq<Target>, s: SimulationState, k: nat)
    requires s.targets == before && k < |before| && FindFirst(before, IsOnline) == Some(k)
    ensures Hit(before, s) ==
      Reduce(Reduce(s, UpdateTargetStatus(before[k].id, Compromised)), CompromiseTarget(before[k].id))
  {
  }

  /** The engine's view of the store, plus the auto-mode switch of the control panel. */
  class SimulationEngine {
    var state: SimulationState
    var autoMode: bool

    constructor ()
      ensures state == InitialState() && !autoMode
    {
      state := InitialState();
      autoMode := false;
    }

    /** Hand one action to the store. */
    method Dispatch(action: SimulationAction)
      modifies this`state
      ensures state == Reduce(old(state), action)
    {
      state := Reduce(state, action);
    }

    /** `executeSimulationStep`: the dispatch sequence of one step. */
    method ExecuteSimulationStep(pick: nat, success: bool, mitreNumber: nat, clock: nat, timestamp: nat)
      requires ValidPick(state, pick) && 1000 <= mitreNumber <= 9999
      modifies this`state
      ensures state == StepOutcome(old(state), pick, success, mitreNumber, clock, timestamp)
    {
      var snapshot := state;
      var decision := GenerateAIDecision(snapshot, pick);
      var step := NewAttackStep(decision, success, mitreNumber, clock, timestamp);
      LogStep(decision.reasoning, step);
      if success && decision.phase == Exploitation {
        CompromiseFirstOnline(snapshot.targets);
      }
      if success {
        AdvancePhase(snapshot.currentPhase);
      }
    }

    /** The first two dispatches of a step: the new decision text, then the log entry. */
    method LogStep(reasoning: string, step: AttackStep)
      modifies this`state
      ensures state == Logged(old(state), reasoning, step)
    {
      Dispatch(SetAIDecision(reasoning));
      Dispatch(AddAttackStep(step));
    }

    /** Compromise the first target of `before` that is online, by status and by id. */
    method CompromiseFirstOnline(before: seq<Target>)
      requires state.targets == before
      modifies this`state
      ensures state == Hit(before, old(state))
    {
      var first := FindFirst(before, IsOnline);
      if first.Some? {
        var id := before[first.value].id;
        Dispatch(UpdateTargetStatus(id, Compromised));
        Dispatch(CompromiseTarget(id));
        HitIsTwoDispatches(before, old(state), first.value);
      }
    }

    /** Move to the phase after `phase` in the five-phase order, if there is one. */
    method AdvancePhase(phase: string)
      requires state.currentPhase == phase
      modifies this`state
      ensures state == old(state).(currentPhase := NextPhase(phase))
    {
      var currentIndex := IndexOf(PhaseOrder, phase);
      if currentIndex < |PhaseOrder| - 1 {
        Dispatch(SetCurrentPhase(PhaseOrder[currentIndex + 1]));
      }
    }

    /** The "Execute Single Step" button, which is disabled while running. */
    method ExecuteSingleStep(pick: nat, success: bool, mitreNumber: nat, clock: nat, timestamp: nat)
      returns (executed: bool)
      requires ValidPick(state, pick) && 1000 <= mitreNumber <= 9999
      modifies this`state
      ensures executed == !old(state.isRunning)
      ensures executed ==> state == StepOutcome(old(state), pick, success, mitreNumber, clock, timestamp)
      ensures !executed ==> state == old(state)
    {
      executed := !state.isRunning;
      if executed {
        ExecuteSimulationStep(pick, success, mitreNumber, clock, timestamp);
      }
    }

    /** `startSimulation`: raise the running flag and switch auto mode on. */
    method StartSimulation()
      modifies this
      ensures state == old(state).(isRunning := true) && autoMode
    {
      Dispatch(SimulationAction.StartSimulation);
      autoMode := true;
    }

    /** `stopSimulation`: lower the running flag and switch auto mode off. */
    method StopSimulation()
      modifies this
      ensures state == old(state).(isRunning := false) && !autoMode
    {
      Dispatch(SimulationAction.StopSimulation);
      autoMode := false;
    }
  }

  /** One step logs exactly one entry, last, with the placeholder target,
      the drawn result, the decision's phase and action, and a MITRE id made
      of "T" and the four digits that read back to the drawn number; the
      decision text is replaced by the reasoning, and the running flag is
      left alone. */
  lemma {:induction false} StepLogsOneEntry(s: SimulationState, pick: nat, success: bool, mitreNumber: nat, clock: nat, timestamp: nat)
    requires ValidPick(s, pick) && 1000 <= mitreNumber <= 9999
    ensures var r := StepOutcome(s, pick, success, mitreNumber, clock, timestamp);
      && |r.attackSteps| == |s.attackSteps| + 1
      && r.attackSteps[..|s.attackSteps|] == s.attackSteps
      && r.isRunning == s.isRunning
      && r.aiDecision == GenerateAIDecision(s, pick).reasoning
    ensures var last := StepOutcome(s, pick, success, mitreNumber, clock, timestamp).attackSteps[|s.attackSteps|];
      && last.target == "Simulated Target"
      && (last.result == Success <==> success)
      && last.result != Partial
      && last.phase == s.currentPhase
      && last.action == GenerateAIDecision(s, pick).action
      && last.mitreId.Some? && |last.mitreId.value| == 5 && last.mitreId.value[0] == 'T'
      && (forall i :: 1 <= i < 5 ==> IsDigit(last.mitreId.value[i]))
      && DecimalValue(last.mitreId.value[1..]) == mitreNumber
  {
    var last := StepOutcome(s, pick, success, mitreNumber, clock, timestamp).attackSteps[|s.attackSteps|];
    FourDigits(mitreNumber);
    DecimalRoundTrip(mitreNumber);
    assert last.mitreId.value[1..] == Decimal(mitreNumber);
  }

  /** A successful exploitation step marks the first online target of the
      pre-step list compromised and appends its id; when ids are unique no
      other target changes, and the number of compromised targets grows by one. */
  lemma {:induction false} StepCompromisesFirstOnline(s: SimulationState, pick: nat, mitreNumber: nat, clock: nat, timestamp: nat, k: nat)
    requires ValidPick(s, pick) && s.currentPhase == Exploitation && UniqueIds(s.targets)
    requires k < |s.targets| && IsOnline(s.targets[k]) && forall j :: 0 <= j < k ==> !IsOnline(s.targets[j])
    ensures var r := StepOutcome(s, pick, true, mitreNumber, clock, timestamp);
      && |r.targets| == |s.targets|
      && r.targets[k] == s.targets[k].(status := Compromised)
      && (forall i :: 0 <= i < |s.targets| && i != k ==> r.targets[i] == s.targets[i])
      && r.compromisedTargets == s.compromisedTargets + [s.targets[k].id]
      && |Filter(r.targets, IsCompromised)| == |Filter(s.targets, IsCompromised)| + 1
  {
    var r := StepOutcome(s, pick, true, mitreNumber, clock, timestamp);
    var first := FindFirst(s.targets, IsOnline);
    assert first == Some(k);
    assert r.targets == SetStatus(s.targets, s.targets[k].id, Compromised);
    FilterPointUpdate(s.targets, r.targets, k, IsCompromised);
  }

  /** Off a successful exploitation step, or with no target online, a step
      leaves the targets and the compromised list alone. */
  lemma StepLeavesTargetsAlone(s: SimulationState, pick: nat, success: bool, mitreNumber: nat, clock: nat, timestamp: nat)
    requires ValidPick(s, pick)
    requires !(success && s.currentPhase == Exploitation) || forall t :: t in s.targets ==> !IsOnline(t)
    ensures var r := StepOutcome(s, pick, success, mitreNumber, clock, timestamp);
      r.targets == s.targets && r.compromisedTargets == s.compromisedTargets
  {
  }

  /** A failed step keeps the phase; a successful one moves it on by NextPhase. */
  lemma StepPhase(s: SimulationState, pick: nat, success: bool, mitreNumber: nat, clock: nat, timestamp: nat)
    requires ValidPick(s, pick)
    ensures var r := StepOutcome(s, pick, success, mitreNumber, clock, timestamp);
      r.currentPhase == if success then NextPhase(s.currentPhase) else s.currentPhase
  {
  }

  /** What every state the engine reaches from the seed satisfies: unique
      target ids, a phase among the five, and log entries tagged with one of them. */
  ghost predicate Consistent(s: SimulationState) {
    && UniqueIds(s.targets)
    && s.currentPhase in PhaseOrder
    && forall step :: step in s.attackSteps ==> step.phase in PhaseOrder
  }

  lemma InitialStateConsistent()
    ensures Consistent(InitialState())
  {
    SeedState();
  }

  /** A step keeps the engine's state consistent. */
  lemma {:induction false} StepKeepsConsistent(s: SimulationState, pick: nat, success: bool, mitreNumber: nat, clock: nat, timestamp: nat)
    requires ValidPick(s, pick) && Consistent(s)
    ensures Consistent(StepOutcome(s, pick, success, mitreNumber, clock, timestamp))
  {
    var r := StepOutcome(s, pick, success, mitreNumber, clock, timestamp);
    assert forall i :: 0 <= i < |r.targets| ==> r.targets[i].id == s.targets[i].id;
    forall step | step in r.attackSteps ensures step.phase in PhaseOrder {
      if step !in s.attackSteps {
        assert step == r.attackSteps[|s.attackSteps|];
      }
    }
  }

  /** Starting and stopping the simulation keep the state consistent. */
  lemma StartStopKeepConsistent(s: SimulationState)
    requires Consistent(s)
    ensures Consistent(Reduce(s, SimulationAction.StartSimulation))
    ensures Consistent(Reduce(s, SimulationAction.StopSimulation))
  {
  }

  /** A successful reconnaissance step on an empty log logs one successful
      reconnaissance entry, moves on to exploitation and compromises nothing. */
  lemma ReconnaissanceSuccess(s: SimulationState, pick: nat, mitreNumber: nat, clock: nat, timestamp: nat)
    requires ValidPick(s, pick) && s.currentPhase == Reconnaissance && s.attackSteps == []
    ensures var r := StepOutcome(s, pick, true, mitreNumber, clock, timestamp);
      && |r.attackSteps| == 1
      && r.attackSteps[0].phase == Reconnaissance && r.attackSteps[0].result == Success
      && r.currentPhase == Exploitation
      && r.targets == s.targets && r.compromisedTargets == s.compromisedTargets
  {
    assert NextPhase(Reconnaissance) == Exploitation by { assert PhaseOrder[0] == Reconnaissance; }
  }

  /** From the seed, one successful step logs one reconnaissance entry, moves
      the phase to exploitation and compromises nothing. */
  lemma SeedFirstStep(pick: nat, mitreNumber: nat, clock: nat, timestamp: nat)
    requires pick < 3
    ensures ValidPick(InitialState(), pick)
    ensures var r := StepOutcome(InitialState(), pick, true, mitreNumber, clock, timestamp);
      && |r.attackSteps| == 1
      && r.attackSteps[0].phase == Reconnaissance && r.attackSteps[0].result == Success
      && r.currentPhase == Exploitation
      && r.targets == InitialState().targets && r.compromisedTargets == []
  {
    SeedState();
    FilterAll(InitialState().targets, IsOnline);
    ReconnaissanceSuccess(InitialState(), pick, mitreNumber, clock, timestamp);
  }
}
