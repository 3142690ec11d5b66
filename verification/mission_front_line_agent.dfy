/**
 * The Front Line Agent (FLA) of the trust-governed orchestrator: classifies user intent
 * into a domain, spins up SubAgents, keeps the list of communication authorizations and
 * mediates every message between SubAgents through it, and retires SubAgents together
 * with their authorizations. Event-log entries are kept without their timestamp and FLA prefix.
 */
module MissionFrontLine {
  import opened Results
  import opened Text
  import opened TrustProfiles
  import opened Authorizations
  import opened MissionSubAgents

  const Domains: set<string> := {"DataAnalysis", "CodeGeneration", "SecurityAudit", "Research", "General"}

  predicate Mentions(intent: string, keyword: string)
  {
    Contains(Lower(intent), keyword)
  }

  /**
   * `classify_domain`: the first keyword pair the lower-cased intent mentions decides,
   * in the order data/analyze, code/program, security/audit, research/find; otherwise "General".
   */
  function DomainOf(userIntent: string): (domain: string)
    ensures domain in Domains
    ensures domain == "DataAnalysis" <==> Mentions(userIntent, "data") || Mentions(userIntent, "analyze")
    ensures domain == "CodeGeneration" <==>
              !(Mentions(userIntent, "data") || Mentions(userIntent, "analyze")) &&
              (Mentions(userIntent, "code") || Mentions(userIntent, "program"))
    ensures domain == "SecurityAudit" <==>
              !(Mentions(userIntent, "data") || Mentions(userIntent, "analyze")) &&
              !(Mentions(userIntent, "code") || Mentions(userIntent, "program")) &&
              (Mentions(userIntent, "security") || Mentions(userIntent, "audit"))
    ensures domain == "General" <==>
              !Mentions(userIntent, "data") && !Mentions(userIntent, "analyze") &&
              !Mentions(userIntent, "code") && !Mentions(userIntent, "program") &&
              !Mentions(userIntent, "security") && !Mentions(userIntent, "audit") &&
              !Mentions(userIntent, "research") && !Mentions(userIntent, "find")
  {
    var intent := Lower(userIntent);
    if Contains(intent, "data") || Contains(intent, "analyze") then "DataAnalysis"
    else if Contains(intent, "code") || Contains(intent, "program") then "CodeGeneration"
    else if Contains(intent, "security") || Contains(intent, "audit") then "SecurityAudit"
    else if Contains(intent, "research") || Contains(intent, "find") then "Research"
    else "General"
  }

  /** The classification ignores case. */
  lemma DomainOfIgnoresCase(userIntent: string)
    ensures DomainOf(Lower(userIntent)) == DomainOf(userIntent)
  {
    LowerIdempotent(userIntent);
  }

  class FrontLineAgent {
    const id: string
    const defaultTrustProfile: TrustProfile
    var activeSubAgents: map<string, SubAgent>
    var communicationAuthorizations: seq<CommunicationAuthorization>
    var eventLog: seq<string>

    /** Every active agent is registered under its own id and carries a valid trust profile. */
    ghost predicate Valid()
      reads this
    {
      defaultTrustProfile.Valid() &&
      forall k :: k in activeSubAgents ==> activeSubAgents[k].id == k && activeSubAgents[k].Valid()
    }

    /** The active agents registered under the given ids: the objects an operation may touch. */
    ghost function AgentsNamed(ids: set<string>): set<SubAgent>
      reads this
    {
      set k | k in ids && k in activeSubAgents :: activeSubAgents[k]
    }

    constructor (agentId: string, defaultTrustProfile: TrustProfile)
      requires defaultTrustProfile.Valid()
      ensures Valid()
      ensures id == agentId && this.defaultTrustProfile == defaultTrustProfile
      ensures activeSubAgents == map[] && communicationAuthorizations == []
      ensures eventLog == ["FLA created: " + agentId]
    {
      id := agentId;
      this.defaultTrustProfile := defaultTrustProfile;
      activeSubAgents := map[];
      communicationAuthorizations := [];
      eventLog := ["FLA created: " + agentId];
    }

    method ClassifyDomain(userIntent: string) returns (domain: string)
      modifies this`eventLog
      ensures domain == DomainOf(userIntent)
      ensures eventLog == old(eventLog) + ["Classifying domain for intent: " + userIntent]
    {
      eventLog := eventLog + ["Classifying domain for intent: " + userIntent];
      domain := DomainOf(userIntent);
    }

    /**
     * Registers one new, started SubAgent under the id "SA-<domain>-<uuid hex>", with the
     * given trust profile or else the default one.
     */
    method CreateSubAgent(domain: string, trustProfile: Option<TrustProfile>, uuidHex: string) returns (agent: SubAgent)
      requires Valid()
      requires trustProfile.Some? ==> trustProfile.value.Valid()
      modifies this
      ensures Valid()
      ensures fresh(agent)
      ensures agent.id == "SA-" + domain + "-" + uuidHex && agent.domain == domain
      ensures agent.trustProfile == if trustProfile.Some? then trustProfile.value else defaultTrustProfile
      ensures agent.status == Active && agent.localState == map[]
      ensures activeSubAgents == old(activeSubAgents)[agent.id := agent]
      ensures communicationAuthorizations == old(communicationAuthorizations)
      ensures eventLog == old(eventLog) + ["Created and started SubAgent: " + agent.id + " for domain: " + domain]
    {
      var agentId := "SA-" + domain + "-" + uuidHex;
      var profile := if trustProfile.Some? then trustProfile.value else defaultTrustProfile;
      agent := new SubAgent(agentId, domain, profile);
      activeSubAgents := activeSubAgents[agentId := agent];
      var started := agent.StartMission();
      eventLog := eventLog + ["Created and started SubAgent: " + agentId + " for domain: " + domain];
    }

    /** Looks up an active SubAgent; null when there is none. */
    method ReactivateSubAgent(agentId: string) returns (agent: SubAgent?)
      modifies this`eventLog
      ensures agentId in activeSubAgents ==> agent == activeSubAgents[agentId]
      ensures agentId !in activeSubAgents ==> agent == null
      ensures eventLog == old(eventLog) + [
                if agent != null then "Reactivated SubAgent: " + agentId
                else "Failed to reactivate SubAgent: " + agentId + " - not found"]
    {
      if agentId in activeSubAgents {
        agent := activeSubAgents[agentId];
        eventLog := eventLog + ["Reactivated SubAgent: " + agentId];
      } else {
        agent := null;
        eventLog := eventLog + ["Failed to reactivate SubAgent: " + agentId + " - not found"];
      }
    }

    /** Appends exactly one authorization, created now; the existing ones are kept as they are. */
    method AuthorizeCommunication(fromAgentId: string, toAgentId: string, isBidirectional: bool,
                                  allowedDataScopes: Option<seq<string>>, ttl: Option<int>, now: int)
      modifies this`communicationAuthorizations, this`eventLog
      ensures communicationAuthorizations ==
                old(communicationAuthorizations) + [Create(fromAgentId, toAgentId, isBidirectional, allowedDataScopes, ttl, now)]
      ensures eventLog == old(eventLog) +
                ["Authorized communication: " + fromAgentId + " -> " + toAgentId + " (bidirectional: " + BoolText(isBidirectional) + ")"]
    {
      var scopes := if allowedDataScopes.Some? && allowedDataScopes.value != [] then allowedDataScopes else None;
      var authorization := Create(fromAgentId, toAgentId, isBidirectional, scopes, ttl, now);
      communicationAuthorizations := communicationAuthorizations + [authorization];
      eventLog := eventLog +
        ["Authorized communication: " + fromAgentId + " -> " + toAgentId + " (bidirectional: " + BoolText(isBidirectional) + ")"];
    }

    /**
     * FLA-mediated communication: blocked unless a stored authorization permits the pair now and
     * both agents are active; then the sender's outbound check and the receiver's trust-validated
     * inbound decide. The receiver stores the information exactly when the mediation succeeds.
     */
    method MediateCommunication(fromAgentId: string, toAgentId: string, information: string, now: int, timestamp: string)
      returns (success: bool)
      requires Valid()
      modifies this`eventLog, AgentsNamed({fromAgentId, toAgentId})
      ensures Valid()
      ensures activeSubAgents == old(activeSubAgents)
      ensures communicationAuthorizations == old(communicationAuthorizations)
      ensures success <==>
                FindAuthorization(communicationAuthorizations, fromAgentId, toAgentId, now).Some? &&
                fromAgentId in activeSubAgents && toAgentId in activeSubAgents &&
                old(activeSubAgents[fromAgentId].status) == Active &&
                old(activeSubAgents[toAgentId].status) == Active &&
                Accepts(activeSubAgents[toAgentId].trustProfile, fromAgentId, information)
      ensures FindAuthorization(communicationAuthorizations, fromAgentId, toAgentId, now).None? ||
              fromAgentId !in activeSubAgents || toAgentId !in activeSubAgents ==>
                unchanged(AgentsNamed({fromAgentId, toAgentId}))
      ensures forall k :: k in activeSubAgents ==> activeSubAgents[k].status == old(activeSubAgents[k].status)
      ensures toAgentId in activeSubAgents ==>
                activeSubAgents[toAgentId].localState ==
                  if success then old(activeSubAgents[toAgentId].localState)[ReceivedKey(timestamp) := information]
                  else old(activeSubAgents[toAgentId].localState)
      ensures fromAgentId in activeSubAgents && fromAgentId != toAgentId ==>
                activeSubAgents[fromAgentId].localState == old(activeSubAgents[fromAgentId].localState)
      ensures eventLog == old(eventLog) + [
                if FindAuthorization(communicationAuthorizations, fromAgentId, toAgentId, now).None? then
                  "Communication blocked: " + fromAgentId + " -> " + toAgentId + " - not authorized"
                else if fromAgentId !in activeSubAgents then
                  "Communication failed: sender " + fromAgentId + " not found"
                else if toAgentId !in activeSubAgents then
                  "Communication failed: receiver " + toAgentId + " not found"
                else if old(activeSubAgents[fromAgentId].status) != Active then
                  "Communication failed: sender rejected outbound"
                else
                  "Communication mediated: " + fromAgentId + " -> " + toAgentId + " - success: " + BoolText(success)]
    {
      var authorization := FindAuthorization(communicationAuthorizations, fromAgentId, toAgentId, now);
      if authorization.None? {
        eventLog := eventLog + ["Communication blocked: " + fromAgentId + " -> " + toAgentId + " - not authorized"];
        return false;
      }
      if fromAgentId !in activeSubAgents {
        eventLog := eventLog + ["Communication failed: sender " + fromAgentId + " not found"];
        return false;
      }
      var sender := activeSubAgents[fromAgentId];
      if toAgentId !in activeSubAgents {
        eventLog := eventLog + ["Communication failed: receiver " + toAgentId + " not found"];
        return false;
      }
      var receiver := activeSubAgents[toAgentId];
      var sentSuccess := sender.SendInformation(toAgentId, information);
      if !sentSuccess {
        eventLog := eventLog + ["Communication failed: sender rejected outbound"];
        return false;
      }
      var receiveSuccess := receiver.ReceiveInformation(fromAgentId, information, timestamp);
      eventLog := eventLog +
        ["Communication mediated: " + fromAgentId + " -> " + toAgentId + " - success: " + BoolText(receiveSuccess)];
      success := receiveSuccess;
    }

    /**
     * Retires a known SubAgent, unregisters it and drops every authorization that names it,
     * keeping the others in order. An unknown id changes nothing.
     */
    method RetireSubAgent(agentId: string)
      requires Valid()
      modifies this, AgentsNamed({agentId})
      ensures Valid()
      ensures agentId !in old(activeSubAgents) ==> unchanged(this)
      ensures agentId in old(activeSubAgents) ==>
                activeSubAgents == old(activeSubAgents) - {agentId} &&
                communicationAuthorizations == WithoutAgent(old(communicationAuthorizations), agentId) &&
                old(activeSubAgents[agentId]).status == Retired &&
                (old(activeSubAgents[agentId].status) != Retired ==> old(activeSubAgents[agentId]).localState == map[]) &&
                eventLog == old(eventLog) + ["Retired SubAgent: " + agentId]
    {
      if agentId in activeSubAgents {
        var agent := activeSubAgents[agentId];
        agent.Retire();
        activeSubAgents := activeSubAgents - {agentId};
        communicationAuthorizations := WithoutAgent(communicationAuthorizations, agentId);
        eventLog := eventLog + ["Retired SubAgent: " + agentId];
      }
    }

    /**
     * Classifies the intent, creates a SubAgent with the default profile, has it process the
     * task and complete its mission. The source's failure branch is unreachable: the agent was
     * just started, so it is ACTIVE when the task arrives.
     */
    method ProcessUserTask(userIntent: string, taskDetails: string, uuidHex: string) returns (result: string)
      requires Valid()
      modifies this
      ensures Valid()
      ensures result == "Processed: " + taskDetails + " in domain: " + DomainOf(userIntent)
      ensures var agentId := "SA-" + DomainOf(userIntent) + "-" + uuidHex;
              agentId in activeSubAgents && fresh(activeSubAgents[agentId]) &&
              activeSubAgents[agentId].status == Completed &&
              activeSubAgents == old(activeSubAgents)[agentId := activeSubAgents[agentId]] &&
              eventLog == old(eventLog) + [
                "Processing user task: " + userIntent,
                "Classifying domain for intent: " + userIntent,
                "Created and started SubAgent: " + agentId + " for domain: " + DomainOf(userIntent)]
      ensures communicationAuthorizations == old(communicationAuthorizations)
    {
      eventLog := eventLog + ["Processing user task: " + userIntent];
      var domain := ClassifyDomain(userIntent);
      var subAgent := CreateSubAgent(domain, None, uuidHex);
      var processed := subAgent.ProcessTask(taskDetails);
      var completed := subAgent.CompleteMission();
      result := processed.value;
    }
  }
}
