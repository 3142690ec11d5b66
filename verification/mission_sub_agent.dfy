/**
 * The mission-scoped SubAgent of the trust-governed orchestrator: a lifecycle
 * CREATED -> ACTIVE -> COMPLETED, RETIRED from anywhere, with an isolated local
 * state that only trust-validated inbound information reaches, and an activity log.
 */
module MissionSubAgents {
  import opened Results
  import opened TrustProfiles

  datatype MissionStatus = Created | Active | Paused | Completed | Failed | Retired

  /** Python's `str()` of the enum member, as it appears in messages. */
  function StatusText(s: MissionStatus): (t: string)
    ensures |t| > |"MissionStatus."| && t[..|"MissionStatus."|] == "MissionStatus."
  {
    match s
    case Created => "MissionStatus.CREATED"
    case Active => "MissionStatus.ACTIVE"
    case Paused => "MissionStatus.PAUSED"
    case Completed => "MissionStatus.COMPLETED"
    case Failed => "MissionStatus.FAILED"
    case Retired => "MissionStatus.RETIRED"
  }

  /** The local-state key under which information received at `timestamp` is stored. */
  function ReceivedKey(timestamp: string): string
  {
    "received_" + timestamp
  }

  class SubAgent {
    const id: string
    const domain: string
    const trustProfile: TrustProfile
    var status: MissionStatus
    var localState: map<string, string>
    /** Activity messages, in order, without their timestamp prefix. */
    var activityLog: seq<string>

    predicate Valid()
    {
      trustProfile.Valid()
    }

    constructor (agentId: string, domain: string, trustProfile: TrustProfile)
      requires trustProfile.Valid()
      ensures Valid()
      ensures id == agentId && this.domain == domain && this.trustProfile == trustProfile
      ensures status == Created && localState == map[]
      ensures activityLog == ["SubAgent created: " + agentId + " for domain: " + domain]
    {
      id := agentId;
      this.domain := domain;
      this.trustProfile := trustProfile;
      status := Created;
      localState := map[];
      activityLog := ["SubAgent created: " + agentId + " for domain: " + domain];
    }

    /** Only a CREATED agent starts; anything else raises and changes nothing. */
    method StartMission() returns (r: Outcome)
      modifies this
      ensures old(status) == Created ==> r == Pass && status == Active && activityLog == old(activityLog) + ["Mission started"]
      ensures old(status) != Created ==>
                r == Fail(RuntimeError("Cannot start mission from status: " + StatusText(old(status)))) &&
                status == old(status) && activityLog == old(activityLog)
      ensures localState == old(localState)
    {
      if status != Created {
        return Fail(RuntimeError("Cannot start mission from status: " + StatusText(status)));
      }
      status := Active;
      activityLog := activityLog + ["Mission started"];
      r := Pass;
    }

    /** Only an ACTIVE agent processes tasks; the status is left as it was either way. */
    method ProcessTask(task: string) returns (r: Result<string>)
      modifies this`activityLog
      ensures old(status) == Active ==>
                var result := "Processed: " + task + " in domain: " + domain;
                r == Ok(result) &&
                activityLog == old(activityLog) + ["Processing task: " + task, "Task completed: " + result]
      ensures old(status) != Active ==>
                r == Err(RuntimeError("Cannot process task in status: " + StatusText(status))) &&
                activityLog == old(activityLog)
    {
      if status != Active {
        return Err(RuntimeError("Cannot process task in status: " + StatusText(status)));
      }
      activityLog := activityLog + ["Processing task: " + task];
      var result := "Processed: " + task + " in domain: " + domain;
      activityLog := activityLog + ["Task completed: " + result];
      r := Ok(result);
    }

    /**
     * Inbound information: refused outright unless ACTIVE (the trust profile is not consulted);
     * otherwise stored under the receive-time key exactly when the trust profile accepts it.
     */
    method ReceiveInformation(senderId: string, information: string, timestamp: string) returns (accepted: bool)
      requires Valid()
      modifies this`localState, this`activityLog
      ensures accepted == (status == Active && Accepts(trustProfile, senderId, information))
      ensures localState == if accepted then old(localState)[ReceivedKey(timestamp) := information] else old(localState)
      ensures activityLog == old(activityLog) + [
                if status != Active then "Rejected inbound information - status: " + StatusText(status)
                else if accepted then "Accepted information from: " + senderId
                else "Rejected information from: " + senderId + " - trust validation failed"]
    {
      if status != Active {
        activityLog := activityLog + ["Rejected inbound information - status: " + StatusText(status)];
        return false;
      }
      var isValid, _ := ValidateInbound(trustProfile, senderId, information);
      if isValid {
        localState := localState[ReceivedKey(timestamp) := information];
        activityLog := activityLog + ["Accepted information from: " + senderId];
        return true;
      }
      activityLog := activityLog + ["Rejected information from: " + senderId + " - trust validation failed"];
      accepted := false;
    }

    /** Outbound information is sent exactly when the agent is ACTIVE. */
    method SendInformation(recipientId: string, information: string) returns (sent: bool)
      modifies this`activityLog
      ensures sent == (status == Active)
      ensures sent ==>
                activityLog == old(activityLog) + ["Sending information to: " + recipientId + " (SL: " + SecurityLevelText(trustProfile.securityLevel) + ")"]
      ensures !sent ==> activityLog == old(activityLog) + ["Cannot send information - status: " + StatusText(status)]
    {
      if status != Active {
        activityLog := activityLog + ["Cannot send information - status: " + StatusText(status)];
        return false;
      }
      activityLog := activityLog + ["Sending information to: " + recipientId + " (SL: " + SecurityLevelText(trustProfile.securityLevel) + ")"];
      sent := true;
    }

    /** Only an ACTIVE or PAUSED mission completes; anything else raises and changes nothing. */
    method CompleteMission() returns (r: Outcome)
      modifies this
      ensures old(status) in {Active, Paused} ==>
                r == Pass && status == Completed && activityLog == old(activityLog) + ["Mission completed"]
      ensures old(status) !in {Active, Paused} ==>
                r == Fail(RuntimeError("Cannot complete mission from status: " + StatusText(old(status)))) &&
                status == old(status) && activityLog == old(activityLog)
      ensures localState == old(localState)
    {
      if status !in {Active, Paused} {
        return Fail(RuntimeError("Cannot complete mission from status: " + StatusText(status)));
      }
      status := Completed;
      activityLog := activityLog + ["Mission completed"];
      r := Pass;
    }

    /** Idempotent: a RETIRED agent is left alone; any other becomes RETIRED with its local state cleared. */
    method Retire()
      modifies this
      ensures status == Retired
      ensures old(status) == Retired ==> localState == old(localState) && activityLog == old(activityLog)
      ensures old(status) != Retired ==> localState == map[] && activityLog == old(activityLog) + ["SubAgent retired"]
    {
      if status == Retired {
        return;
      }
      status := Retired;
      activityLog := activityLog + ["SubAgent retired"];
      localState := map[];
    }
  }
}
