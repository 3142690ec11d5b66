/**
 * The resource-governing Front Line Agent (FLA): provisions SubAgents, records their
 * latest usage snapshot, and on every snapshot runs six checks in a fixed order
 * (CPU, execution time, memory, message count, state size, mission cost). A usage at
 * or above 90% of its ceiling appends a SOFT audit record; above 100% the agent is also
 * terminated, unregistered, and a HARD record follows. The audit log only grows.
 */
module ResourceFrontLine {
  import opened Results
  import opened ResourceModel
  import opened ResourceSubAgents

  // ---------------------------------------------------------------------------
  // The checks and the records they produce.

  datatype Check = Cpu | ExecutionTime | Memory | Network | Storage | Cost

  function ResourceType(c: Check): string
  {
    match c
    case Cpu => "Compute"
    case ExecutionTime => "Compute"
    case Memory => "Memory"
    case Network => "Network"
    case Storage => "Storage"
    case Cost => "Cost"
  }

  function SoftReason(c: Check): string
  {
    match c
    case Cpu => "CPU approaching limit"
    case ExecutionTime => "Execution time approaching limit"
    case Memory => "Memory approaching limit"
    case Network => "Message count approaching limit"
    case Storage => "State size approaching limit"
    case Cost => "Mission cost approaching limit"
  }

  function HardReason(c: Check): string
  {
    match c
    case Cpu => "CPU limit exceeded"
    case ExecutionTime => "Execution time limit exceeded"
    case Memory => "Memory limit exceeded"
    case Network => "Message count limit exceeded"
    case Storage => "State size limit exceeded"
    case Cost => "Mission cost limit exceeded"
  }

  /** Usage over ceiling for one check (Python's true division). */
  function Ratio(c: Check, p: CloudResourceAllocationProfile, m: ResourceUsageMetrics): real
    requires p.PositiveCeilings()
  {
    match c
    case Cpu => m.currentCpuUsage / p.maxCpuCores
    case ExecutionTime => m.totalExecutionTime / p.maxExecutionTimePerInvocation
    case Memory => (m.currentMemoryUsageBytes as real) / (p.maxMemoryFootprintBytes as real)
    case Network => (m.messageCount as real) / (p.maxMessageCount as real)
    case Storage => (m.currentStateSizeBytes as real) / (p.maxStateSizeBytes as real)
    case Cost => m.currentMissionCost / p.maxCostPerMission
  }

  /** Whether a check may terminate at all: cost only under hard budget enforcement. */
  predicate HardApplies(c: Check, p: CloudResourceAllocationProfile)
  {
    c != Cost || p.hardBudgetEnforcement
  }

  /** The soft condition as each check writes it; the CPU check compares usage with 90% of the ceiling. */
  predicate SoftTriggered(c: Check, p: CloudResourceAllocationProfile, m: ResourceUsageMetrics)
    requires p.PositiveCeilings()
  {
    if c == Cpu then m.currentCpuUsage >= p.maxCpuCores * 0.9 else Ratio(c, p, m) >= 0.9
  }

  /** The hard condition as each check writes it; the CPU check compares usage with the ceiling. */
  predicate HardTriggered(c: Check, p: CloudResourceAllocationProfile, m: ResourceUsageMetrics)
    requires p.PositiveCeilings()
  {
    if c == Cpu then m.currentCpuUsage > p.maxCpuCores else HardApplies(c, p) && Ratio(c, p, m) > 1.0
  }

  function SoftRecord(subAgentId: string, c: Check, ratio: real): EnforcementAction
  {
    EnforcementAction(subAgentId, SoftEnforcement, SoftReason(c), ResourceType(c), ratio * 100.0, false)
  }

  function HardRecord(subAgentId: string, c: Check): EnforcementAction
  {
    EnforcementAction(subAgentId, HardEnforcement, HardReason(c), ResourceType(c), 100.0, true)
  }

  /** The records one check appends: the SOFT record, then the HARD one. */
  function CheckRecords(subAgentId: string, c: Check, p: CloudResourceAllocationProfile, m: ResourceUsageMetrics)
    : seq<EnforcementAction>
    requires p.PositiveCeilings()
  {
    (if SoftTriggered(c, p, m) then [SoftRecord(subAgentId, c, Ratio(c, p, m))] else []) +
    (if HardTriggered(c, p, m) then [HardRecord(subAgentId, c)] else [])
  }

  /**
   * Everything one `monitor_and_enforce` call appends for an active agent, the checks in
   * their fixed order: CPU, execution time, memory, message count, state size, cost.
   */
  function MonitorRecords(subAgentId: string, p: CloudResourceAllocationProfile, m: ResourceUsageMetrics)
    : seq<EnforcementAction>
    requires p.PositiveCeilings()
  {
    CheckRecords(subAgentId, Cpu, p, m) + CheckRecords(subAgentId, ExecutionTime, p, m) +
    CheckRecords(subAgentId, Memory, p, m) + CheckRecords(subAgentId, Network, p, m) +
    CheckRecords(subAgentId, Storage, p, m) + CheckRecords(subAgentId, Cost, p, m)
  }

  /** The reasons of the terminating records, in order: the reasons `terminate` is called with. */
  function HardReasons(records: seq<EnforcementAction>): seq<string>
  {
    if records == [] then []
    else (if records[0].terminated then [records[0].reason] else []) + HardReasons(records[1..])
  }

  lemma {:induction false} HardReasonsAppend(a: seq<EnforcementAction>, b: seq<EnforcementAction>)
    ensures HardReasons(a + b) == HardReasons(a) + HardReasons(b)
  {
    if a != [] {
      var head := if a[0].terminated then [a[0].reason] else [];
      calc {
        HardReasons(a + b);
        { assert (a + b)[0] == a[0]; assert (a + b)[1..] == a[1..] + b; }
        head + HardReasons(a[1..] + b);
        { HardReasonsAppend(a[1..], b); }
        head + (HardReasons(a[1..]) + HardReasons(b));
        HardReasons(a) + HardReasons(b);
      }
    } else {
      assert a + b == b;
    }
  }

  // ---------------------------------------------------------------------------
  // What the checks promise.

  /** The CPU check's direct comparisons are the ratio comparisons of the other checks. */
  lemma CpuComparisonIsRatio(p: CloudResourceAllocationProfile, m: ResourceUsageMetrics)
    requires p.PositiveCeilings()
    ensures SoftTriggered(Cpu, p, m) <==> Ratio(Cpu, p, m) >= 0.9
    ensures HardTriggered(Cpu, p, m) <==> Ratio(Cpu, p, m) > 1.0
  {
    RatioComparisons(m.currentCpuUsage, p.maxCpuCores);
  }

  lemma RatioComparisons(usage: real, ceiling: real)
    requires ceiling > 0.0
    ensures usage >= ceiling * 0.9 <==> usage / ceiling >= 0.9
    ensures usage > ceiling <==> usage / ceiling > 1.0
  {
    var r := usage / ceiling;
    assert r * ceiling == usage;
    assert (r - 1.0) * ceiling == usage - ceiling;
    assert (r - 0.9) * ceiling == usage - ceiling * 0.9;
  }

  /**
   * One check, by its ratio: nothing below 90%; a SOFT record carrying the percentage from 90%
   * up to and including 100%; above 100%, the SOFT record followed by a HARD one, unless the
   * check is cost without hard budget enforcement, which stays SOFT.
   */
  lemma CheckRecordsByRatio(subAgentId: string, c: Check, p: CloudResourceAllocationProfile, m: ResourceUsageMetrics)
    requires p.PositiveCeilings()
    ensures Ratio(c, p, m) < 0.9 ==> CheckRecords(subAgentId, c, p, m) == []
    ensures 0.9 <= Ratio(c, p, m) <= 1.0 ==>
              CheckRecords(subAgentId, c, p, m) == [SoftRecord(subAgentId, c, Ratio(c, p, m))]
    ensures Ratio(c, p, m) > 1.0 && HardApplies(c, p) ==>
              CheckRecords(subAgentId, c, p, m) == [SoftRecord(subAgentId, c, Ratio(c, p, m)), HardRecord(subAgentId, c)]
    ensures Ratio(c, p, m) > 1.0 && !HardApplies(c, p) ==>
              CheckRecords(subAgentId, c, p, m) == [SoftRecord(subAgentId, c, Ratio(c, p, m))]
  {
    if c == Cpu {
      CpuComparisonIsRatio(p, m);
    }
  }

  /**
   * The shape of every audit trail the checks produce: only HARD records terminate; every
   * HARD record carries 100% and directly follows a SOFT record for the same resource type;
   * every SOFT record carries at least 90%.
   */
  ghost predicate WellFormedRecords(records: seq<EnforcementAction>)
  {
    forall i :: 0 <= i < |records| ==> WellFormedAt(records, i)
  }

  ghost predicate WellFormedAt(records: seq<EnforcementAction>, i: nat)
    requires i < |records|
  {
      (records[i].terminated <==> records[i].level == HardEnforcement) &&
      (records[i].level == SoftEnforcement ==> records[i].thresholdPercentage >= 90.0) &&
      (records[i].level == HardEnforcement ==>
         records[i].thresholdPercentage == 100.0 && i > 0 &&
         records[i - 1].level == SoftEnforcement && records[i - 1].resourceType == records[i].resourceType)
  }

  lemma WellFormedCheck(subAgentId: string, c: Check, p: CloudResourceAllocationProfile, m: ResourceUsageMetrics)
    requires p.PositiveCeilings()
    ensures WellFormedRecords(CheckRecords(subAgentId, c, p, m))
  {
    CheckRecordsByRatio(subAgentId, c, p, m);
  }

  lemma WellFormedAppend(a: seq<EnforcementAction>, b: seq<EnforcementAction>)
    requires WellFormedRecords(a) && WellFormedRecords(b)
    ensures WellFormedRecords(a + b)
  {
    forall i | 0 <= i < |a + b|
      ensures WellFormedAt(a + b, i)
    {
      if i < |a| {
        assert WellFormedAt(a, i);
      } else {
        assert WellFormedAt(b, i - |a|);
      }
    }
  }

  /** Every audit trail of one monitoring call is well formed. */
  lemma MonitorRecordsWellFormed(subAgentId: string, p: CloudResourceAllocationProfile, m: ResourceUsageMetrics)
    requires p.PositiveCeilings()
    ensures WellFormedRecords(MonitorRecords(subAgentId, p, m))
  {
    var cr := (c: Check) requires p.PositiveCeilings() => CheckRecords(subAgentId, c, p, m);
    WellFormedCheck(subAgentId, Cpu, p, m);
    WellFormedCheck(subAgentId, ExecutionTime, p, m);
    WellFormedCheck(subAgentId, Memory, p, m);
    WellFormedCheck(subAgentId, Network, p, m);
    WellFormedCheck(subAgentId, Storage, p, m);
    WellFormedCheck(subAgentId, Cost, p, m);
    WellFormedAppend(cr(Cpu), cr(ExecutionTime));
    WellFormedAppend(cr(Cpu) + cr(ExecutionTime), cr(Memory));
    WellFormedAppend(cr(Cpu) + cr(ExecutionTime) + cr(Memory), cr(Network));
    WellFormedAppend(cr(Cpu) + cr(ExecutionTime) + cr(Memory) + cr(Network), cr(Storage));
    WellFormedAppend(cr(Cpu) + cr(ExecutionTime) + cr(Memory) + cr(Network) + cr(Storage), cr(Cost));
  }

  /** The hard-limit reason of a check that is over its (enforceable) ceiling. */
  function OverLimit(c: Check, p: CloudResourceAllocationProfile, m: ResourceUsageMetrics): seq<string>
    requires p.PositiveCeilings()
  {
    if HardTriggered(c, p, m) then [HardReason(c)] else []
  }

  /** A check terminates at most once, and exactly when it is over its (enforceable) ceiling. */
  lemma CheckTerminations(subAgentId: string, c: Check, p: CloudResourceAllocationProfile, m: ResourceUsageMetrics)
    requires p.PositiveCeilings()
    ensures HardReasons(CheckRecords(subAgentId, c, p, m)) == OverLimit(c, p, m)
  {
    var soft := if SoftTriggered(c, p, m) then [SoftRecord(subAgentId, c, Ratio(c, p, m))] else [];
    var hard := if HardTriggered(c, p, m) then [HardRecord(subAgentId, c)] else [];
    HardReasonsAppend(soft, hard);
  }

  /**
   * One call terminates once per check over its ceiling, in check order: `terminate` is not
   * deduplicated, so several categories over their ceilings give several HARD records and calls.
   */
  lemma TerminationsPerOverLimitCheck(subAgentId: string, p: CloudResourceAllocationProfile, m: ResourceUsageMetrics)
    requires p.PositiveCeilings()
    ensures HardReasons(MonitorRecords(subAgentId, p, m)) ==
              OverLimit(Cpu, p, m) + OverLimit(ExecutionTime, p, m) + OverLimit(Memory, p, m) +
              OverLimit(Network, p, m) + OverLimit(Storage, p, m) + OverLimit(Cost, p, m)
  {
    var cr := (c: Check) requires p.PositiveCeilings() => CheckRecords(subAgentId, c, p, m);
    CheckTerminations(subAgentId, Cpu, p, m);
    CheckTerminations(subAgentId, ExecutionTime, p, m);
    CheckTerminations(subAgentId, Memory, p, m);
    CheckTerminations(subAgentId, Network, p, m);
    CheckTerminations(subAgentId, Storage, p, m);
    CheckTerminations(subAgentId, Cost, p, m);
    HardReasonsAppend(cr(Cpu), cr(ExecutionTime));
    HardReasonsAppend(cr(Cpu) + cr(ExecutionTime), cr(Memory));
    HardReasonsAppend(cr(Cpu) + cr(ExecutionTime) + cr(Memory), cr(Network));
    HardReasonsAppend(cr(Cpu) + cr(ExecutionTime) + cr(Memory) + cr(Network), cr(Storage));
    HardReasonsAppend(cr(Cpu) + cr(ExecutionTime) + cr(Memory) + cr(Network) + cr(Storage), cr(Cost));
  }

  /** CPU and memory both over their ceilings: two HARD records, CPU's first. */
  lemma TwoCategoriesOverLimit(subAgentId: string, p: CloudResourceAllocationProfile, m: ResourceUsageMetrics)
    requires p.PositiveCeilings()
    requires m.currentCpuUsage > p.maxCpuCores && m.currentMemoryUsageBytes > p.maxMemoryFootprintBytes
    requires m.totalExecutionTime <= p.maxExecutionTimePerInvocation && m.messageCount <= p.maxMessageCount
    requires m.currentStateSizeBytes <= p.maxStateSizeBytes && m.currentMissionCost <= p.maxCostPerMission
    ensures HardReasons(MonitorRecords(subAgentId, p, m)) == ["CPU limit exceeded", "Memory limit exceeded"]
  {
    TerminationsPerOverLimitCheck(subAgentId, p, m);
    var memoryRatio := Ratio(Memory, p, m);
    assert memoryRatio * (p.maxMemoryFootprintBytes as real) == m.currentMemoryUsageBytes as real;
    assert memoryRatio > 1.0;
    assert Ratio(ExecutionTime, p, m) <= 1.0 by {
      var r := Ratio(ExecutionTime, p, m);
      assert r * p.maxExecutionTimePerInvocation == m.totalExecutionTime;
    }
    assert Ratio(Network, p, m) <= 1.0 by {
      var r := Ratio(Network, p, m);
      assert r * (p.maxMessageCount as real) == m.messageCount as real;
    }
    assert Ratio(Storage, p, m) <= 1.0 by {
      var r := Ratio(Storage, p, m);
      assert r * (p.maxStateSizeBytes as real) == m.currentStateSizeBytes as real;
    }
    assert Ratio(Cost, p, m) <= 1.0 by {
      var r := Ratio(Cost, p, m);
      assert r * p.maxCostPerMission == m.currentMissionCost;
    }
  }

  /**
   * With a CPU ceiling of 2 cores: a usage of 1.0 gives no record, 1.85 one SOFT record at 92.5%,
   * 2.5 a SOFT record at 125% followed by a HARD record.
   */
  lemma CpuScenarios(subAgentId: string, p: CloudResourceAllocationProfile,
                     m1: ResourceUsageMetrics, m2: ResourceUsageMetrics, m3: ResourceUsageMetrics)
    requires p.PositiveCeilings() && p.maxCpuCores == 2.0
    requires m1.currentCpuUsage == 1.0 && m2.currentCpuUsage == 1.85 && m3.currentCpuUsage == 2.5
    ensures CheckRecords(subAgentId, Cpu, p, m1) == []
    ensures CheckRecords(subAgentId, Cpu, p, m2) ==
              [EnforcementAction(subAgentId, SoftEnforcement, "CPU approaching limit", "Compute", 92.5, false)]
    ensures CheckRecords(subAgentId, Cpu, p, m3) ==
              [EnforcementAction(subAgentId, SoftEnforcement, "CPU approaching limit", "Compute", 125.0, false),
               EnforcementAction(subAgentId, HardEnforcement, "CPU limit exceeded", "Compute", 100.0, true)]
  {
  }

  /** Exactly at 90% is SOFT, and exactly at the ceiling is still SOFT only. */
  lemma BoundariesAreSoft(subAgentId: string, c: Check, p: CloudResourceAllocationProfile, m: ResourceUsageMetrics)
    requires p.PositiveCeilings()
    requires Ratio(c, p, m) == 0.9 || Ratio(c, p, m) == 1.0
    ensures CheckRecords(subAgentId, c, p, m) == [SoftRecord(subAgentId, c, Ratio(c, p, m))]
  {
    CheckRecordsByRatio(subAgentId, c, p, m);
  }

  /** Without hard budget enforcement a cost at 150% of its ceiling is only a SOFT record at 150%. */
  lemma AdvisoryCostOverrun(subAgentId: string, p: CloudResourceAllocationProfile, m: ResourceUsageMetrics)
    requires p.PositiveCeilings() && !p.hardBudgetEnforcement
    requires m.currentMissionCost == 1.5 * p.maxCostPerMission
    ensures CheckRecords(subAgentId, Cost, p, m) ==
              [EnforcementAction(subAgentId, SoftEnforcement, "Mission cost approaching limit", "Cost", 150.0, false)]
    ensures HardReasons(CheckRecords(subAgentId, Cost, p, m)) == []
  {
    assert Ratio(Cost, p, m) == 1.5;
  }

  /** The tier a check reaches for one snapshot. */
  function Tier(c: Check, p: CloudResourceAllocationProfile, m: ResourceUsageMetrics): (level: EnforcementLevel)
    requires p.PositiveCeilings()
  {
    if HardTriggered(c, p, m) then HardEnforcement
    else if SoftTriggered(c, p, m) then SoftEnforcement
    else NoEnforcement
  }

  function Severity(level: EnforcementLevel): nat
  {
    match level
    case NoEnforcement => 0
    case SoftEnforcement => 1
    case HardEnforcement => 2
  }

  /** Against the same profile, more usage never gives a milder tier. */
  lemma TierMonotone(c: Check, p: CloudResourceAllocationProfile, m1: ResourceUsageMetrics, m2: ResourceUsageMetrics)
    requires p.PositiveCeilings()
    requires Ratio(c, p, m1) <= Ratio(c, p, m2)
    ensures Severity(Tier(c, p, m1)) <= Severity(Tier(c, p, m2))
  {
    if c == Cpu {
      CpuComparisonIsRatio(p, m1);
      CpuComparisonIsRatio(p, m2);
    }
  }

  // ---------------------------------------------------------------------------
  // The governed state and the effect of appending records.

  /** The part of the FLA's and one agent's state that enforcement changes. */
  datatype EnforcementState = EnforcementState(
    auditLog: seq<EnforcementAction>,
    activeSubAgents: map<string, SubAgent>,
    status: SubAgentStatus,
    terminationReasons: seq<string>)

  /**
   * Appending records for one agent: the log grows by them; if any of them terminates, the agent
   * is TERMINATED, unregistered, and its hook receives one reason per terminating record.
   */
  function ApplyRecords(s: EnforcementState, subAgentId: string, records: seq<EnforcementAction>): (t: EnforcementState)
    ensures s.auditLog <= t.auditLog && |t.auditLog| == |s.auditLog| + |records|
    ensures HardReasons(records) != [] ==> subAgentId !in t.activeSubAgents && t.status == Terminated
    ensures HardReasons(records) == [] ==> t.activeSubAgents == s.activeSubAgents && t.status == s.status
  {
    var stops := HardReasons(records) != [];
    EnforcementState(
      s.auditLog + records,
      if stops then s.activeSubAgents - {subAgentId} else s.activeSubAgents,
      if stops then Terminated else s.status,
      s.terminationReasons + HardReasons(records))
  }

  /** Appending in two steps is appending once. */
  lemma ApplyRecordsCompose(s: EnforcementState, subAgentId: string, a: seq<EnforcementAction>, b: seq<EnforcementAction>)
    ensures ApplyRecords(ApplyRecords(s, subAgentId, a), subAgentId, b) == ApplyRecords(s, subAgentId, a + b)
  {
    HardReasonsAppend(a, b);
  }

  /** One check's effect: a non-terminating record (or none), then a terminating one (or none). */
  lemma ApplyTierRecords(s0: EnforcementState, s1: EnforcementState, s2: EnforcementState, subAgentId: string,
                         soft: seq<EnforcementAction>, hard: seq<EnforcementAction>)
    requires |soft| <= 1 && (soft != [] ==> !soft[0].terminated)
    requires |hard| <= 1 && (hard != [] ==> hard[0].terminated)
    requires s1 == s0.(auditLog := s0.auditLog + soft)
    requires hard == [] ==> s2 == s1
    requires hard != [] ==>
               s2 == EnforcementState(s1.auditLog + hard, s1.activeSubAgents - {subAgentId}, Terminated,
                                      s1.terminationReasons + [hard[0].reason])
    ensures s2 == ApplyRecords(s0, subAgentId, soft + hard)
  {
    assert HardReasons(soft) == [];
    if hard != [] {
      assert HardReasons(hard) == [hard[0].reason];
    }
    HardReasonsAppend(soft, hard);
  }

  // ---------------------------------------------------------------------------
  // The FLA.

  class FrontLineAgent {
    var activeSubAgents: map<string, SubAgent>
    var metrics: map<string, ResourceUsageMetrics>
    var auditLog: seq<EnforcementAction>

    /** Every active agent is registered under its own id. */
    ghost predicate Valid()
      reads this
    {
      forall k :: k in activeSubAgents ==> activeSubAgents[k].id == k
    }

    ghost function State(agent: SubAgent): EnforcementState
      reads this, agent
    {
      EnforcementState(auditLog, activeSubAgents, agent.status, agent.terminationReasons)
    }

    constructor ()
      ensures Valid()
      ensures activeSubAgents == map[] && metrics == map[] && auditLog == []
    {
      activeSubAgents := map[];
      metrics := map[];
      auditLog := [];
    }

    /**
     * Registers a new agent with zeroed metrics and one NONE-level, non-terminating audit record.
     * A null agent, or an id already active, raises and changes nothing.
     */
    method ProvisionSubAgent(subAgent: SubAgent?, now: int) returns (r: Outcome)
      requires Valid()
      modifies this
      ensures Valid()
      ensures subAgent == null ==> r == Fail(ValueError("sub_agent cannot be None")) && unchanged(this)
      ensures subAgent != null && subAgent.id in old(activeSubAgents) ==>
                r == Fail(RuntimeError("SubAgent " + subAgent.id + " already exists")) && unchanged(this)
      ensures subAgent != null && subAgent.id !in old(activeSubAgents) ==>
                r == Pass &&
                activeSubAgents == old(activeSubAgents)[subAgent.id := subAgent] &&
                metrics == old(metrics)[subAgent.id := InitialMetrics(subAgent.id, now)] &&
                auditLog == old(auditLog) +
                  [EnforcementAction(subAgent.id, NoEnforcement, "SubAgent provisioned", "System", 0.0, false)]
    {
      if subAgent == null {
        return Fail(ValueError("sub_agent cannot be None"));
      }
      if subAgent.id in activeSubAgents {
        return Fail(RuntimeError("SubAgent " + subAgent.id + " already exists"));
      }
      activeSubAgents := activeSubAgents[subAgent.id := subAgent];
      metrics := metrics[subAgent.id := InitialMetrics(subAgent.id, now)];
      LogAudit(subAgent.id, NoEnforcement, "SubAgent provisioned", "System", 0.0, false);
      r := Pass;
    }

    /**
     * Stores the snapshot and runs the six checks for an active agent; an id that is not active
     * (never provisioned, or already terminated) is ignored.
     */
    method MonitorAndEnforce(subAgentId: string, currentMetrics: ResourceUsageMetrics)
      requires Valid()
      requires subAgentId in activeSubAgents ==> activeSubAgents[subAgentId].resourceProfile.PositiveCeilings()
      modifies this, if subAgentId in activeSubAgents then {activeSubAgents[subAgentId]} else {}
      ensures Valid()
      ensures subAgentId !in old(activeSubAgents) ==> unchanged(this)
      ensures subAgentId in old(activeSubAgents) ==>
                var agent := old(activeSubAgents[subAgentId]);
                metrics == old(metrics)[subAgentId := currentMetrics] &&
                GetResourceUsage(subAgentId) == Some(currentMetrics) &&
                State(agent) ==
                  ApplyRecords(old(State(agent)), subAgentId,
                               MonitorRecords(subAgentId, agent.resourceProfile, currentMetrics))
    {
      if subAgentId !in activeSubAgents {
        return;
      }
      var subAgent := activeSubAgents[subAgentId];
      metrics := metrics[subAgentId := currentMetrics];
      var profile := subAgent.resourceProfile;
      ghost var s0 := State(subAgent);
      CheckComputeLimits(subAgent, currentMetrics, profile);
      CheckMemoryLimits(subAgent, currentMetrics, profile);
      CheckNetworkLimits(subAgent, currentMetrics, profile);
      CheckStorageLimits(subAgent, currentMetrics, profile);
      CheckCostLimits(subAgent, currentMetrics, profile);
      ghost var r1 := CheckRecords(subAgentId, Cpu, profile, currentMetrics) +
                      CheckRecords(subAgentId, ExecutionTime, profile, currentMetrics);
      ghost var r2 := CheckRecords(subAgentId, Memory, profile, currentMetrics);
      ghost var r3 := CheckRecords(subAgentId, Network, profile, currentMetrics);
      ghost var r4 := CheckRecords(subAgentId, Storage, profile, currentMetrics);
      ghost var r5 := CheckRecords(subAgentId, Cost, profile, currentMetrics);
      ApplyRecordsCompose(s0, subAgentId, r1, r2);
      ApplyRecordsCompose(s0, subAgentId, r1 + r2, r3);
      ApplyRecordsCompose(s0, subAgentId, r1 + r2 + r3, r4);
      ApplyRecordsCompose(s0, subAgentId, r1 + r2 + r3 + r4, r5);
    }

    /** `_check_compute_limits`: the CPU check, then the execution-time check. */
    method CheckComputeLimits(subAgent: SubAgent, usage: ResourceUsageMetrics, profile: CloudResourceAllocationProfile)
      requires Valid() && profile.PositiveCeilings()
      modifies this, subAgent
      ensures Valid() && metrics == old(metrics)
      ensures State(subAgent) ==
                ApplyRecords(old(State(subAgent)), subAgent.id,
                             CheckRecords(subAgent.id, Cpu, profile, usage) +
                             CheckRecords(subAgent.id, ExecutionTime, profile, usage))
    {
      ghost var s0 := State(subAgent);
      ghost var soft: seq<EnforcementAction> := [];
      if usage.currentCpuUsage >= profile.maxCpuCores * 0.9 {
        ApplySoftEnforcement(subAgent.id, "Compute", "CPU approaching limit",
                             usage.currentCpuUsage / profile.maxCpuCores * 100.0);
        soft := [SoftRecord(subAgent.id, Cpu, Ratio(Cpu, profile, usage))];
      }
      ghost var s1 := State(subAgent);
      ghost var hard: seq<EnforcementAction> := [];
      if usage.currentCpuUsage > profile.maxCpuCores {
        ApplyHardEnforcement(subAgent, "Compute", "CPU limit exceeded");
        hard := [HardRecord(subAgent.id, Cpu)];
      }
      ApplyTierRecords(s0, s1, State(subAgent), subAgent.id, soft, hard);
      ghost var cpu := CheckRecords(subAgent.id, Cpu, profile, usage);
      ghost var t0 := State(subAgent);

      var execTimeRatio := usage.totalExecutionTime / profile.maxExecutionTimePerInvocation;
      soft := [];
      if execTimeRatio >= 0.9 {
        ApplySoftEnforcement(subAgent.id, "Compute", "Execution time approaching limit", execTimeRatio * 100.0);
        soft := [SoftRecord(subAgent.id, ExecutionTime, execTimeRatio)];
      }
      ghost var t1 := State(subAgent);
      hard := [];
      if execTimeRatio > 1.0 {
        ApplyHardEnforcement(subAgent, "Compute", "Execution time limit exceeded");
        hard := [HardRecord(subAgent.id, ExecutionTime)];
      }
      ApplyTierRecords(t0, t1, State(subAgent), subAgent.id, soft, hard);
      ApplyRecordsCompose(s0, subAgent.id, cpu, CheckRecords(subAgent.id, ExecutionTime, profile, usage));
    }

    /** `_check_memory_limits`. */
    method CheckMemoryLimits(subAgent: SubAgent, usage: ResourceUsageMetrics, profile: CloudResourceAllocationProfile)
      requires Valid() && profile.PositiveCeilings()
      modifies this, subAgent
      ensures Valid() && metrics == old(metrics)
      ensures State(subAgent) ==
                ApplyRecords(old(State(subAgent)), subAgent.id, CheckRecords(subAgent.id, Memory, profile, usage))
    {
      ghost var s0 := State(subAgent);
      var memoryRatio := (usage.currentMemoryUsageBytes as real) / (profile.maxMemoryFootprintBytes as real);
      ghost var soft: seq<EnforcementAction> := [];
      if memoryRatio >= 0.9 {
        ApplySoftEnforcement(subAgent.id, "Memory", "Memory approaching limit", memoryRatio * 100.0);
        soft := [SoftRecord(subAgent.id, Memory, memoryRatio)];
      }
      ghost var s1 := State(subAgent);
      ghost var hard: seq<EnforcementAction> := [];
      if memoryRatio > 1.0 {
        ApplyHardEnforcement(subAgent, "Memory", "Memory limit exceeded");
        hard := [HardRecord(subAgent.id, Memory)];
      }
      ApplyTierRecords(s0, s1, State(subAgent), subAgent.id, soft, hard);
    }

    /** `_check_network_limits`: the message count. */
    method CheckNetworkLimits(subAgent: SubAgent, usage: ResourceUsageMetrics, profile: CloudResourceAllocationProfile)
      requires Valid() && profile.PositiveCeilings()
      modifies this, subAgent
      ensures Valid() && metrics == old(metrics)
      ensures State(subAgent) ==
                ApplyRecords(old(State(subAgent)), subAgent.id, CheckRecords(subAgent.id, Network, profile, usage))
    {
      ghost var s0 := State(subAgent);
      var messageRatio := (usage.messageCount as real) / (profile.maxMessageCount as real);
      ghost var soft: seq<EnforcementAction> := [];
      if messageRatio >= 0.9 {
        ApplySoftEnforcement(subAgent.id, "Network", "Message count approaching limit", messageRatio * 100.0);
        soft := [SoftRecord(subAgent.id, Network, messageRatio)];
      }
      ghost var s1 := State(subAgent);
      ghost var hard: seq<EnforcementAction> := [];
      if messageRatio > 1.0 {
        ApplyHardEnforcement(subAgent, "Network", "Message count limit exceeded");
        hard := [HardRecord(subAgent.id, Network)];
      }
      ApplyTierRecords(s0, s1, State(subAgent), subAgent.id, soft, hard);
    }

    /** `_check_storage_limits`: the state size. */
    method CheckStorageLimits(subAgent: SubAgent, usage: ResourceUsageMetrics, profile: CloudResourceAllocationProfile)
      requires Valid() && profile.PositiveCeilings()
      modifies this, subAgent
      ensures Valid() && metrics == old(metrics)
      ensures State(subAgent) ==
                ApplyRecords(old(State(subAgent)), subAgent.id, CheckRecords(subAgent.id, Storage, profile, usage))
    {
      ghost var s0 := State(subAgent);
      var stateRatio := (usage.currentStateSizeBytes as real) / (profile.maxStateSizeBytes as real);
      ghost var soft: seq<EnforcementAction> := [];
      if stateRatio >= 0.9 {
        ApplySoftEnforcement(subAgent.id, "Storage", "State size approaching limit", stateRatio * 100.0);
        soft := [SoftRecord(subAgent.id, Storage, stateRatio)];
      }
      ghost var s1 := State(subAgent);
      ghost var hard: seq<EnforcementAction> := [];
      if stateRatio > 1.0 {
        ApplyHardEnforcement(subAgent, "Storage", "State size limit exceeded");
        hard := [HardRecord(subAgent.id, Storage)];
      }
      ApplyTierRecords(s0, s1, State(subAgent), subAgent.id, soft, hard);
    }

    /** `_check_cost_limits`: terminates only under hard budget enforcement. */
    method CheckCostLimits(subAgent: SubAgent, usage: ResourceUsageMetrics, profile: CloudResourceAllocationProfile)
      requires Valid() && profile.PositiveCeilings()
      modifies this, subAgent
      ensures Valid() && metrics == old(metrics)
      ensures State(subAgent) ==
                ApplyRecords(old(State(subAgent)), subAgent.id, CheckRecords(subAgent.id, Cost, profile, usage))
    {
      ghost var s0 := State(subAgent);
      var costRatio := usage.currentMissionCost / profile.maxCostPerMission;
      ghost var soft: seq<EnforcementAction> := [];
      if costRatio >= 0.9 {
        ApplySoftEnforcement(subAgent.id, "Cost", "Mission cost approaching limit", costRatio * 100.0);
        soft := [SoftRecord(subAgent.id, Cost, costRatio)];
      }
      ghost var s1 := State(subAgent);
      ghost var hard: seq<EnforcementAction> := [];
      if profile.hardBudgetEnforcement && costRatio > 1.0 {
        ApplyHardEnforcement(subAgent, "Cost", "Mission cost limit exceeded");
        hard := [HardRecord(subAgent.id, Cost)];
      }
      ApplyTierRecords(s0, s1, State(subAgent), subAgent.id, soft, hard);
    }

    /** A SOFT record: logged, nothing else happens. */
    method ApplySoftEnforcement(subAgentId: string, resourceType: string, reason: string, threshold: real)
      modifies this`auditLog
      ensures auditLog == old(auditLog) + [EnforcementAction(subAgentId, SoftEnforcement, reason, resourceType, threshold, false)]
    {
      LogAudit(subAgentId, SoftEnforcement, reason, resourceType, threshold, false);
    }

    /** Terminates the agent, logs a HARD record at 100%, and unregisters the agent if it still is registered. */
    method ApplyHardEnforcement(subAgent: SubAgent, resourceType: string, reason: string)
      requires Valid()
      modifies this, subAgent
      ensures Valid() && metrics == old(metrics)
      ensures auditLog == old(auditLog) + [EnforcementAction(subAgent.id, HardEnforcement, reason, resourceType, 100.0, true)]
      ensures activeSubAgents == old(activeSubAgents) - {subAgent.id}
      ensures subAgent.status == Terminated && subAgent.terminationReasons == old(subAgent.terminationReasons) + [reason]
    {
      subAgent.Terminate(reason);
      LogAudit(subAgent.id, HardEnforcement, reason, resourceType, 100.0, true);
      if subAgent.id in activeSubAgents {
        activeSubAgents := activeSubAgents - {subAgent.id};
      }
    }

    /** Appends one record; earlier records are never altered. */
    method LogAudit(subAgentId: string, level: EnforcementLevel, reason: string, resourceType: string,
                    threshold: real, terminated: bool)
      modifies this`auditLog
      ensures auditLog == old(auditLog) + [EnforcementAction(subAgentId, level, reason, resourceType, threshold, terminated)]
    {
      auditLog := auditLog + [EnforcementAction(subAgentId, level, reason, resourceType, threshold, terminated)];
    }

    /** The last snapshot stored for the agent, if any. */
    function GetResourceUsage(subAgentId: string): (r: Option<ResourceUsageMetrics>)
      reads this
      ensures r.Some? <==> subAgentId in metrics
      ensures r.Some? ==> r.value == metrics[subAgentId]
    {
      if subAgentId in metrics then Some(metrics[subAgentId]) else None
    }

    /** A copy of the audit log. */
    function GetAuditLog(): (log: seq<EnforcementAction>)
      reads this
      ensures log == auditLog
    {
      auditLog
    }

    /** The active agents. */
    function GetActiveSubAgents(): (agents: set<SubAgent>)
      reads this
      ensures agents == activeSubAgents.Values
    {
      activeSubAgents.Values
    }

    /** Manual termination of an active agent: one HARD "Manual" record at 0%; an unknown id changes nothing. */
    method TerminateSubAgent(subAgentId: string, reason: string)
      requires Valid()
      modifies this, if subAgentId in activeSubAgents then {activeSubAgents[subAgentId]} else {}
      ensures Valid()
      ensures subAgentId !in old(activeSubAgents) ==> unchanged(this)
      ensures subAgentId in old(activeSubAgents) ==>
                var agent := old(activeSubAgents[subAgentId]);
                agent.status == Terminated &&
                agent.terminationReasons == old(agent.terminationReasons) + [reason] &&
                auditLog == old(auditLog) +
                  [EnforcementAction(subAgentId, HardEnforcement, "Manual termination: " + reason, "Manual", 0.0, true)] &&
                activeSubAgents == old(activeSubAgents) - {subAgentId} &&
                metrics == old(metrics)
    {
      if subAgentId in activeSubAgents {
        var subAgent := activeSubAgents[subAgentId];
        subAgent.Terminate(reason);
        LogAudit(subAgentId, HardEnforcement, "Manual termination: " + reason, "Manual", 0.0, true);
        activeSubAgents := activeSubAgents - {subAgentId};
      }
    }
  }
}
