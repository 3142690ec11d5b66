/**
 * The records of cloud-native resource governance: the immutable allocation profile of a
 * SubAgent, a snapshot of its resource usage, and the enforcement actions the FLA logs.
 * Durations are real seconds (`timedelta.total_seconds()`), instants integer microseconds.
 */
module ResourceModel {

  /** Ceilings per resource category; frozen for the lifetime of the SubAgent. */
  datatype CloudResourceAllocationProfile = CloudResourceAllocationProfile(
    // Compute
    maxCpuCores: real,
    maxGpuAllocation: real,
    maxExecutionTimePerInvocation: real,
    totalLifetimeComputeBudget: real,
    // Memory (bytes)
    maxMemoryFootprintBytes: int,
    maxMemoryGrowthRatePerSecond: int,
    containerMemoryCeilingBytes: int,
    // Network
    maxOutboundBandwidthBytesPerSec: int,
    maxInboundBandwidthBytesPerSec: int,
    maxMessageCount: int,
    allowCrossRegionCommunication: bool,
    // Storage (bytes)
    maxStateSizeBytes: int,
    maxLogSizeBytes: int,
    tempStorageQuotaBytes: int,
    // Trust brokers
    maxTrustLevelEvaluationQueries: int,
    trustBrokerRateLimitPerMinute: int,
    allowCrossCloudTrustBrokerAccess: bool,
    // Cost
    maxCostPerMission: real,
    maxCostPerSubAgent: real,
    hardBudgetEnforcement: bool)
  {
    /** The six ceilings the monitor divides by are positive. */
    predicate PositiveCeilings()
    {
      maxCpuCores > 0.0 && maxExecutionTimePerInvocation > 0.0 && maxMemoryFootprintBytes > 0 &&
      maxMessageCount > 0 && maxStateSizeBytes > 0 && maxCostPerMission > 0.0
    }
  }

  const MiB: int := 1024 * 1024

  /** The dataclass defaults. */
  const DefaultProfile: CloudResourceAllocationProfile := CloudResourceAllocationProfile(
    1.0, 0.0, 300.0, 100.0,
    512 * MiB, 10 * MiB, 1024 * MiB,
    10 * MiB, 10 * MiB, 1000, false,
    100 * MiB, 50 * MiB, 200 * MiB,
    100, 60, false,
    10.0, 50.0, true)

  /** The default profile has a positive ceiling for every category the FLA checks, and enforces its budget. */
  lemma DefaultProfileCeilings()
    ensures DefaultProfile.PositiveCeilings() && DefaultProfile.hardBudgetEnforcement
    ensures DefaultProfile.maxMemoryFootprintBytes == 512 * MiB && DefaultProfile.maxMessageCount == 1000
  {
  }

  /** Point-in-time resource consumption of one SubAgent. */
  datatype ResourceUsageMetrics = ResourceUsageMetrics(
    subAgentId: string,
    timestamp: int,
    // Compute
    currentCpuUsage: real,
    currentGpuUsage: real,
    totalExecutionTime: real,
    consumedComputeBudget: real,
    // Memory (bytes)
    currentMemoryUsageBytes: int,
    peakMemoryUsageBytes: int,
    // Network
    totalOutboundBytes: int,
    totalInboundBytes: int,
    messageCount: int,
    // Storage (bytes)
    currentStateSizeBytes: int,
    currentLogSizeBytes: int,
    tempStorageUsedBytes: int,
    // Trust brokers
    trustEvaluationQueryCount: int,
    // Cost
    currentMissionCost: real,
    totalSubAgentCost: real)

  /** `ResourceUsageMetrics(sub_agent_id=..., timestamp=...)`: every measurement at zero. */
  function InitialMetrics(subAgentId: string, timestamp: int): (m: ResourceUsageMetrics)
    ensures m.subAgentId == subAgentId && m.timestamp == timestamp
    ensures m.currentCpuUsage == 0.0 && m.currentGpuUsage == 0.0
    ensures m.totalExecutionTime == 0.0 && m.consumedComputeBudget == 0.0
    ensures m.currentMemoryUsageBytes == 0 && m.peakMemoryUsageBytes == 0
    ensures m.totalOutboundBytes == 0 && m.totalInboundBytes == 0 && m.messageCount == 0
    ensures m.currentStateSizeBytes == 0 && m.currentLogSizeBytes == 0 && m.tempStorageUsedBytes == 0
    ensures m.trustEvaluationQueryCount == 0
    ensures m.currentMissionCost == 0.0 && m.totalSubAgentCost == 0.0
  {
    ResourceUsageMetrics(subAgentId, timestamp, 0.0, 0.0, 0.0, 0.0, 0, 0, 0, 0, 0, 0, 0, 0, 0, 0.0, 0.0)
  }

  datatype EnforcementLevel = NoEnforcement | SoftEnforcement | HardEnforcement

  /** One audit record. Its creation timestamp is not modelled. */
  datatype EnforcementAction = EnforcementAction(
    subAgentId: string,
    level: EnforcementLevel,
    reason: string,
    resourceType: string,
    thresholdPercentage: real,
    terminated: bool)
}
