/**
 * The resource-governed SubAgent: validated at construction, bound to an immutable
 * allocation profile, with status CREATED -> RUNNING -> COMPLETED or FAILED, and
 * TERMINATED from any status by the FLA.
 */
module ResourceSubAgents {
  import opened Results
  import opened ResourceModel

  datatype SubAgentStatus = Created | Running | Completed | Failed | Terminated

  /** What the subclass's `_execute` does: returns a result, or raises with a message. */
  datatype ExecutionOutcome = Returned(result: string) | Raised(message: string)

  class SubAgent {
    const id: string
    const missionDescription: string
    const resourceProfile: CloudResourceAllocationProfile
    const createdAt: int
    var status: SubAgentStatus
    /** The reasons handed to the `_on_terminated` hook, one per `terminate` call. */
    var terminationReasons: seq<string>

    constructor (agentId: string, missionDescription: string, resourceProfile: CloudResourceAllocationProfile, now: int)
      requires agentId != [] && missionDescription != []
      ensures id == agentId && this.missionDescription == missionDescription
      ensures this.resourceProfile == resourceProfile && createdAt == now
      ensures status == Created && terminationReasons == []
    {
      id := agentId;
      this.missionDescription := missionDescription;
      this.resourceProfile := resourceProfile;
      createdAt := now;
      status := Created;
      terminationReasons := [];
    }

    /**
     * Runs the mission: RUNNING, then COMPLETED with the result, or FAILED with a
     * SubAgentExecutionException carrying the cause. There is no guard on the previous status.
     */
    method ExecuteMission(outcome: ExecutionOutcome) returns (r: Result<string>)
      modifies this`status
      ensures outcome.Returned? ==> status == Completed && r == Ok(outcome.result)
      ensures outcome.Raised? ==>
                status == Failed && r == Err(SubAgentExecutionException("SubAgent " + id + " failed: " + outcome.message))
    {
      status := Running;
      match outcome
      case Returned(result) =>
        status := Completed;
        r := Ok(result);
      case Raised(message) =>
        status := Failed;
        r := Err(SubAgentExecutionException("SubAgent " + id + " failed: " + message));
    }

    /** Terminates from any status; calling it again is allowed and calls the hook again. */
    method Terminate(reason: string)
      modifies this
      ensures status == Terminated
      ensures terminationReasons == old(terminationReasons) + [reason]
    {
      status := Terminated;
      terminationReasons := terminationReasons + [reason];
    }
  }

  /**
   * The constructor's validation: ValueError for an empty id, an empty mission description
   * or a missing profile, checked in that order; otherwise a new agent in status CREATED.
   */
  method NewSubAgent(agentId: string, missionDescription: string,
                     resourceProfile: Option<CloudResourceAllocationProfile>, now: int)
    returns (r: Result<SubAgent>)
    ensures agentId == [] ==> r == Err(ValueError("agent_id cannot be empty"))
    ensures agentId != [] && missionDescription == [] ==> r == Err(ValueError("mission_description cannot be empty"))
    ensures agentId != [] && missionDescription != [] && resourceProfile.None? ==>
              r == Err(ValueError("resource_profile cannot be None"))
    ensures agentId != [] && missionDescription != [] && resourceProfile.Some? ==>
              r.Ok? && fresh(r.value) && r.value.id == agentId && r.value.missionDescription == missionDescription &&
              r.value.resourceProfile == resourceProfile.value && r.value.status == Created
  {
    if agentId == [] {
      return Err(ValueError("agent_id cannot be empty"));
    }
    if missionDescription == [] {
      return Err(ValueError("mission_description cannot be empty"));
    }
    if resourceProfile.None? {
      return Err(ValueError("resource_profile cannot be None"));
    }
    var agent := new SubAgent(agentId, missionDescription, resourceProfile.value, now);
    r := Ok(agent);
  }
}
