# SubAgenticAI governance core in Dafny

SubAgenticAI is an orchestrator. A Front Line Agent (FLA) spins up short-lived, mission-scoped
SubAgents and governs them. This project models that governance and proves properties of it, in three parts.

- **Trust-gated inbound validation**
  - A Trust Level is a pair of clamped scores: sender trust and content trust.
  - A SimpleTrustBroker scores senders from a reputation map and scores content with keyword heuristics. It can also flag either as untrustworthy.
  - A Trust Profile admits an inbound message only when:
    - enough brokers are configured;
    - no broker flags the message;
    - the brokers "independently agree" on each axis, meaning enough scores lie within a tolerance of the mean;
    - the mean scores reach the required Trust Level on each axis separately.
  - `ValidateInbound` is the broker loop, proved equal to the pure decision `InboundDecision` over the brokers' verdicts.
- **Mission lifecycle and mediation** (`subagentic_ai_py`)
  - A SubAgent moves CREATED → ACTIVE → COMPLETED, and is RETIRED from any status.
  - Its isolated local state is reached only by trust-validated inbound information.
  - The FLA does the following:
    - classifies user intent into a domain by keywords;
    - creates and starts SubAgents;
    - keeps a list of directional or bidirectional, optionally expiring communication authorizations;
    - mediates every message through that list;
    - drops a SubAgent's authorizations when it retires.
- **Tiered resource enforcement** (`SubAgenticAI.Python`)
  - A SubAgent has an immutable resource allocation profile.
  - On every usage snapshot the FLA runs six checks, always in the order CPU, execution time, memory, message count, state size, mission cost.
  - At 90% of a ceiling a check appends a SOFT audit record.
  - Above 100% the check terminates the agent, unregisters it, and appends a HARD record. For cost this happens only under hard budget enforcement.
  - The audit log only grows.
  - `MonitorRecords` is the records one call appends. `ApplyRecords` is the effect of those records on the log, the active map and the agent. `MonitorAndEnforce` is proved to perform exactly that effect.

The model follows the code where its behaviour may be unexpected:
- A category over its ceiling logs a SOFT record and then a HARD record, not a HARD record alone. With a 2-core CPU ceiling, a usage of 2.5 yields SOFT at 125% followed by HARD (`CpuScenarios`).
- `terminate` is called once per HARD record. One call can therefore terminate the same agent several times (`TwoCategoriesOverLimit`).
- A time-to-live of zero is falsy in the source, so it produces an authorization that never expires (`ZeroTtlNeverExpires`).

Modelling conventions:
- Scores, ratios, costs and durations are `real`. Byte counts and message counts are `int`.
- Instants are integer microseconds, passed in as arguments.
- Log entries hold the message text without the timestamp and FLA prefixes.

## Model

| member | source | states |
|---|---|---|
| Text.Lower | subagentic_ai_py/subagentic_ai/trust_broker.py:105 | `lower()` keeps the length and maps each character to its lower-case form |
| Text.LowerIdempotent | subagentic_ai_py/subagentic_ai/trust_broker.py:105-121 | lower-casing twice is lower-casing once, so the keyword tests see the same text either way |
| Text.ContainsIffOccurs | subagentic_ai_py/subagentic_ai/trust_broker.py:105-121 | the substring test `pattern in s` holds exactly when the pattern occurs at some index |
| Text.BoolText | subagentic_ai_py/subagentic_ai/front_line_agent.py:127-130 | `str(bool)` is "True" exactly for true |
| TrustLevels.Clamp01 | subagentic_ai_py/subagentic_ai/trust_level.py:18-19 | the result is in [0, 1]; below 0 gives 0, above 1 gives 1, in-range values are kept |
| TrustLevels.NewTrustLevel | subagentic_ai_py/subagentic_ai/trust_level.py:16-19 | both scores of a built level are in [0, 1], each clamped independently as above |
| TrustLevels.TrustLevel.MeetsThreshold | subagentic_ai_py/subagentic_ai/trust_level.py:21-32 | `meets_threshold`: both axes reach the threshold's; its meaning is stated by `NoSubstitutionBetweenAxes` and `MeetsThresholdPreorder` |
| TrustLevels.ClampingIdempotent | subagentic_ai_py/subagentic_ai/trust_level.py:18-19 | rebuilding a level from a built level's fields yields the same level |
| TrustLevels.NoSubstitutionBetweenAxes | subagentic_ai_py/subagentic_ai/trust_level.py:21-32 | `meets_threshold` holds iff both axes reach the threshold; a low sender score fails whatever the content score, and vice versa |
| TrustLevels.MeetsThresholdPreorder | subagentic_ai_py/subagentic_ai/trust_level.py:31-32 | every level meets itself; meeting thresholds is transitive |
| TrustBrokers.SimpleTrustBroker.constructor | subagentic_ai_py/subagentic_ai/trust_broker.py:73-86 | the baseline is stored clamped into [0, 1]; no reputations and no flagged senders |
| TrustBrokers.SimpleTrustBroker.EvaluateSenderTrust | subagentic_ai_py/subagentic_ai/trust_broker.py:96-98 | the stored reputation when one exists, else the baseline; always in [0, 1] for a valid broker |
| TrustBrokers.SimpleTrustBroker.EvaluateContentTrust | subagentic_ai_py/subagentic_ai/trust_broker.py:100-114 | the content score is always in [0, 1] |
| TrustBrokers.SimpleTrustBroker.Verdict | subagentic_ai_py/subagentic_ai/trust_broker.py:96-124 | one broker's answers are its `is_flagged`, sender score and content score for the message |
| TrustBrokers.SimpleTrustBroker.IsFlagged | subagentic_ai_py/subagentic_ai/trust_broker.py:116-124 | `is_flagged`: a flagged sender or content mentioning "malicious" in any case; stated by `FlagSender`, `CaseInsensitive`, `FlaggedSenderRejected` and `MaliciousContentRejected` |
| TrustBrokers.SimpleTrustBroker.SetSenderReputation | subagentic_ai_py/subagentic_ai/trust_broker.py:126-128 | stores the clamped reputation, which the sender score then returns; the flagged set and validity are kept |
| TrustBrokers.SimpleTrustBroker.FlagSender | subagentic_ai_py/subagentic_ai/trust_broker.py:130-132 | adds exactly that sender to the flagged set, after which every message from it is flagged |
| TrustBrokers.SimpleTrustBroker.UnflagSender | subagentic_ai_py/subagentic_ai/trust_broker.py:134-136 | removes exactly that sender; an absent sender leaves the set unchanged |
| TrustBrokers.MaliciousContentScoresLow | subagentic_ai_py/subagentic_ai/trust_broker.py:105-114 | content mentioning "malicious" in any case scores at most 0.3 × 1.2 |
| TrustBrokers.ContentPenalties | subagentic_ai_py/subagentic_ai/trust_broker.py:105-108 | without "verified", content mentioning "malicious" scores the baseline times 0.3, and content mentioning "suspicious" but not "malicious" scores it times 0.6 |
| TrustBrokers.MaliciousTakesPrecedence | subagentic_ai_py/subagentic_ai/trust_broker.py:105-108 | when both "malicious" and "suspicious" appear, the 0.3 penalty applies, not 0.6 |
| TrustBrokers.VerifiedBonusCapped | subagentic_ai_py/subagentic_ai/trust_broker.py:111-112 | "verified" alone multiplies the baseline by 1.2, capped at 1.0, never below the baseline |
| TrustBrokers.VerifiedBonusAfterPenalty | subagentic_ai_py/subagentic_ai/trust_broker.py:104-112 | with "verified", the score is the penalised score (×0.3 for "malicious", else ×0.6 for "suspicious", else the baseline) times 1.2, capped at 1.0 |
| TrustBrokers.PlainContentScoresBaseline | subagentic_ai_py/subagentic_ai/trust_broker.py:102-114 | content with no keyword scores exactly the baseline |
| TrustBrokers.CaseInsensitive | subagentic_ai_py/subagentic_ai/trust_broker.py:105-121 | lower-casing the content first changes neither the content score nor the flag |
| TrustProfiles.SecurityLevelText | subagentic_ai_py/subagentic_ai/sub_agent.py:152 | the Security Level appears in the log as `SecurityLevel.<NAME>` |
| TrustProfiles.MeanBounds | subagentic_ai_py/subagentic_ai/trust_profile.py:72-73 | the mean of scores in [lo, hi] lies in [lo, hi] |
| TrustProfiles.NewTrustProfile | subagentic_ai_py/subagentic_ai/trust_profile.py:27-34 | the minimum broker agreement is raised to 2 when smaller and kept otherwise; the tolerance is clamped into [0, 1] |
| TrustProfiles.DefaultAgreement | subagentic_ai_py/subagentic_ai/trust_profile.py:24-34 | a profile built with the defaults needs two agreeing brokers within a tolerance of 0.1 |
| TrustProfiles.TrustProfile.HasIndependentAgreement | subagentic_ai_py/subagentic_ai/trust_profile.py:78-86 | `_has_independent_agreement`: at least the quorum of evaluations, and at least the quorum within tolerance of their mean; stated by `AgreementNeedsQuorum`, `PairwiseCloseAgrees`, `MeanRuleAcceptsWiderSpread` and `MeanRuleRejectsClosePairWithOutlier` |
| TrustProfiles.AgreementNeedsQuorum | subagentic_ai_py/subagentic_ai/trust_profile.py:80-81 | fewer evaluations than the minimum never agree |
| TrustProfiles.PairwiseCloseAgrees | subagentic_ai_py/subagentic_ai/trust_profile.py:78-86 | enough evaluations that are pairwise within the tolerance always agree, since each is within the tolerance of the mean |
| TrustProfiles.MeanRuleAcceptsWiderSpread | subagentic_ai_py/subagentic_ai/trust_profile.py:83-86 | agreement is measured against the mean: 0.0 and 0.2 agree under tolerance 0.1 |
| TrustProfiles.MeanRuleRejectsClosePairWithOutlier | subagentic_ai_py/subagentic_ai/trust_profile.py:83-86 | 0.9, 0.88, 0.5 do not agree under tolerance 0.1, although 0.9 and 0.88 are close |
| TrustProfiles.SenderScores | subagentic_ai_py/subagentic_ai/trust_profile.py:59-63 | the sender scores are collected in broker order |
| TrustProfiles.ContentScores | subagentic_ai_py/subagentic_ai/trust_profile.py:60-63 | the content scores are collected in broker order |
| TrustProfiles.FirstFlagged | subagentic_ai_py/subagentic_ai/trust_profile.py:54-57 | the index of the first flagging broker: no broker before it flags, it does, or it is the count when none flags |
| TrustProfiles.AggregateScore | subagentic_ai_py/subagentic_ai/trust_profile.py:72-74 | the aggregate Trust Level, built from the means over all brokers, is clamped |
| TrustProfiles.InboundDecision | subagentic_ai_py/subagentic_ai/trust_profile.py:36-76 | the admission rule on the brokers' answers; stated by `FailsClosedBelowQuorum`, `VetoDominates` and `AdmissionIff`, and `ValidateInbound` is proved to compute it |
| TrustProfiles.FailsClosedBelowQuorum | subagentic_ai_py/subagentic_ai/trust_profile.py:47-48 | too few brokers: rejected, and no broker is asked |
| TrustProfiles.VetoDominates | subagentic_ai_py/subagentic_ai/trust_profile.py:54-57 | any flagging broker rejects the message whatever the scores, and brokers after it are not asked |
| TrustProfiles.AdmissionIff | subagentic_ai_py/subagentic_ai/trust_profile.py:47-76 | with scores in [0, 1], admitted iff: enough brokers, none flags, both axes agree, and each mean reaches its own threshold |
| TrustProfiles.ThreeBrokerAdmission | subagentic_ai_py/subagentic_ai/trust_profile.py:36-76 | sender scores 0.7/0.75/0.8 and content scores 0.6/0.65/0.7, tolerance 0.15, threshold (0.6, 0.6): admitted with aggregate (0.75, 0.65) |
| TrustProfiles.OutlierLowersAggregate | subagentic_ai_py/subagentic_ai/trust_profile.py:72-76 | the means include out-of-band scores: agreeing scores 0.8/0.8/0.5 fail a 0.75 sender threshold |
| TrustProfiles.Verdicts | subagentic_ai_py/subagentic_ai/trust_profile.py:54-60 | one verdict per broker, in broker order |
| TrustProfiles.ValidateInbound | subagentic_ai_py/subagentic_ai/trust_profile.py:36-76 | the broker loop (flag query interleaved with score queries, early exit on a flag) returns exactly `InboundDecision` over the brokers' verdicts and asks exactly `BrokersConsulted` brokers |
| TrustProfiles.FlaggedSenderRejected | subagentic_ai_py/subagentic_ai/trust_profile.py:54-57 | a sender flagged by any broker of the profile is rejected |
| TrustProfiles.MaliciousContentRejected | subagentic_ai_py/subagentic_ai/trust_broker.py:121-122 | content mentioning "malicious" in any case is rejected by every profile |
| TrustProfiles.SimpleBrokerScoresInUnit | subagentic_ai_py/subagentic_ai/trust_broker.py:96-114 | valid brokers only answer scores in [0, 1] |
| Authorizations.CommunicationAuthorization.IsAuthorized | subagentic_ai_py/subagentic_ai/communication_authorization.py:53-73 | an unexpired authorization permits its own direction; it permits the reverse only when bidirectional; it permits no other pair |
| Authorizations.CommunicationAuthorization.IsExpired | subagentic_ai_py/subagentic_ai/communication_authorization.py:49-51 | `is_expired`: strictly after a stated expiry; stated by `NoExpiryNeverExpires`, `ExpiredAuthorizesNothing` and `TtlWindow` |
| Authorizations.Create | subagentic_ai_py/subagentic_ai/communication_authorization.py:20-47 | the expiry is creation time plus ttl for a truthy ttl, otherwise none; missing or empty scopes become `("*",)` |
| Authorizations.NoExpiryNeverExpires | subagentic_ai_py/subagentic_ai/communication_authorization.py:49-51 | without an expiry the authorization never expires and always permits its own pair |
| Authorizations.ExpiredAuthorizesNothing | subagentic_ai_py/subagentic_ai/communication_authorization.py:64-65 | an expired authorization permits no pair |
| Authorizations.ReverseNeedsBidirectional | subagentic_ai_py/subagentic_ai/communication_authorization.py:70-71 | between distinct agents, the reverse pair is permitted iff the authorization is bidirectional |
| Authorizations.TtlWindow | subagentic_ai_py/subagentic_ai/communication_authorization.py:36-51 | a positive ttl permits the pair up to and including the expiry instant and not after it |
| Authorizations.ZeroTtlNeverExpires | subagentic_ai_py/subagentic_ai/communication_authorization.py:37 | a zero ttl is falsy, so the authorization never expires |
| Authorizations.FindAuthorization | subagentic_ai_py/subagentic_ai/front_line_agent.py:146-150 | it returns a stored authorization that permits the pair now, or none when no stored authorization does |
| Authorizations.FindAuthorizationIsFirst | subagentic_ai_py/subagentic_ai/front_line_agent.py:146-150 | when the authorization at index i is the first in stored order to permit the pair, the search returns it |
| Authorizations.WithoutAgent | subagentic_ai_py/subagentic_ai/front_line_agent.py:196-199 | it keeps exactly the authorizations not naming the agent at either end |
| Authorizations.WithoutAgentKeeps | subagentic_ai_py/subagentic_ai/front_line_agent.py:196-199 | an authorization not naming the agent is kept |
| Authorizations.WithoutAgentDrops | subagentic_ai_py/subagentic_ai/front_line_agent.py:196-199 | an authorization naming the agent is dropped |
| Authorizations.WithoutAgentAppend | subagentic_ai_py/subagentic_ai/front_line_agent.py:196-199 | filtering a concatenation is concatenating the filtered parts; with the one-element cases this fixes the kept authorizations' order and multiplicity |
| Authorizations.WithoutAgentIdempotent | subagentic_ai_py/subagentic_ai/front_line_agent.py:196-199 | pruning an agent twice is pruning it once |
| Authorizations.WithoutAbsentAgentUnchanged | subagentic_ai_py/subagentic_ai/front_line_agent.py:196-199 | pruning an agent that no authorization names keeps the list as it is, order included |
| Authorizations.RemovedAgentIsCutOff | subagentic_ai_py/subagentic_ai/front_line_agent.py:190-199 | after pruning, no pair involving the agent is permitted, in either direction |
| MissionSubAgents.StatusText | subagentic_ai_py/subagentic_ai/sub_agent.py:109 | the status appears in messages as `MissionStatus.<NAME>` |
| MissionSubAgents.SubAgent.constructor | subagentic_ai_py/subagentic_ai/sub_agent.py:72-88 | a new agent is CREATED with empty local state and one creation log entry |
| MissionSubAgents.SubAgent.StartMission | subagentic_ai_py/subagentic_ai/sub_agent.py:106-112 | it succeeds only from CREATED and moves to ACTIVE; otherwise it raises RuntimeError and changes nothing |
| MissionSubAgents.SubAgent.ProcessTask | subagentic_ai_py/subagentic_ai/sub_agent.py:114-126 | it raises unless ACTIVE; when ACTIVE it returns "Processed: {task} in domain: {domain}" and keeps the status |
| MissionSubAgents.SubAgent.ReceiveInformation | subagentic_ai_py/subagentic_ai/sub_agent.py:128-143 | accepted iff ACTIVE and the trust profile accepts; the entry under `received_<timestamp>` is set iff accepted; one log entry per case |
| MissionSubAgents.SubAgent.SendInformation | subagentic_ai_py/subagentic_ai/sub_agent.py:145-153 | it sends iff ACTIVE, logging the Security Level when it sends |
| MissionSubAgents.SubAgent.CompleteMission | subagentic_ai_py/subagentic_ai/sub_agent.py:155-161 | it succeeds only from ACTIVE or PAUSED and moves to COMPLETED; otherwise it raises and changes nothing |
| MissionSubAgents.SubAgent.Retire | subagentic_ai_py/subagentic_ai/sub_agent.py:163-172 | idempotent: from RETIRED nothing changes; otherwise the agent becomes RETIRED with its local state cleared |
| MissionFrontLine.DomainOf | subagentic_ai_py/subagentic_ai/front_line_agent.py:51-62 | it returns one of the five domains: the first keyword pair in the fixed order decides, and "General" iff no keyword matches |
| MissionFrontLine.DomainOfIgnoresCase | subagentic_ai_py/subagentic_ai/front_line_agent.py:51 | the classification ignores case |
| MissionFrontLine.FrontLineAgent.constructor | subagentic_ai_py/subagentic_ai/front_line_agent.py:18-32 | a new FLA has no agents, no authorizations, and one creation event |
| MissionFrontLine.FrontLineAgent.ClassifyDomain | subagentic_ai_py/subagentic_ai/front_line_agent.py:38-62 | it returns `DomainOf` of the intent and logs one event |
| MissionFrontLine.FrontLineAgent.CreateSubAgent | subagentic_ai_py/subagentic_ai/front_line_agent.py:64-86 | it registers exactly one fresh, started agent "SA-{domain}-{hex}" with the given or else the default profile |
| MissionFrontLine.FrontLineAgent.ReactivateSubAgent | subagentic_ai_py/subagentic_ai/front_line_agent.py:88-104 | it returns the active agent under the id, or null, logging which |
| MissionFrontLine.FrontLineAgent.AuthorizeCommunication | subagentic_ai_py/subagentic_ai/front_line_agent.py:106-130 | it appends exactly one new authorization and keeps the existing ones |
| MissionFrontLine.FrontLineAgent.MediateCommunication | subagentic_ai_py/subagentic_ai/front_line_agent.py:132-181 | success iff a stored authorization permits the pair now, both agents are active and ACTIVE, and the receiver's profile accepts; a missing authorization, sender or receiver ends it with the agents untouched; an inactive sender ends it with "sender rejected outbound" in the FLA event log; the receiver stores the information iff success |
| MissionFrontLine.FrontLineAgent.RetireSubAgent | subagentic_ai_py/subagentic_ai/front_line_agent.py:183-201 | a known agent is retired, unregistered, and every authorization naming it is dropped with the rest kept in order; an unknown id changes nothing |
| MissionFrontLine.FrontLineAgent.ProcessUserTask | subagentic_ai_py/subagentic_ai/front_line_agent.py:203-225 | it creates one agent for the classified domain, returns its task result, and leaves that agent COMPLETED |
| ResourceModel.InitialMetrics | SubAgenticAI.Python/subagentic_ai/front_line_agent.py:57-60 | a fresh snapshot for the agent has all fifteen measurements at zero |
| ResourceModel.DefaultProfileCeilings | SubAgenticAI.Python/subagentic_ai/cloud_resource_profile.py:19-49 | the dataclass defaults give every checked category a positive ceiling and enforce the budget; 512 MiB of memory and 1000 messages |
| ResourceSubAgents.SubAgent.constructor | SubAgenticAI.Python/subagentic_ai/sub_agent.py:39-56 | a validated agent keeps its id, mission and profile and starts CREATED |
| ResourceSubAgents.SubAgent.ExecuteMission | SubAgenticAI.Python/subagentic_ai/sub_agent.py:83-102 | ends COMPLETED with the result, or FAILED with SubAgentExecutionException "SubAgent {id} failed: {cause}" |
| ResourceSubAgents.SubAgent.Terminate | SubAgenticAI.Python/subagentic_ai/sub_agent.py:114-122 | from any status the agent becomes TERMINATED and the hook receives the reason, once per call |
| ResourceSubAgents.NewSubAgent | SubAgenticAI.Python/subagentic_ai/sub_agent.py:45-56 | ValueError for an empty id, an empty mission or a missing profile, checked in that order; otherwise a fresh CREATED agent |
| ResourceFrontLine.CpuComparisonIsRatio | SubAgenticAI.Python/subagentic_ai/front_line_agent.py:108-121 | the CPU check's direct comparisons (≥ 90% of the ceiling, > the ceiling) equal the ratio comparisons the other checks use |
| ResourceFrontLine.CheckRecords | SubAgenticAI.Python/subagentic_ai/front_line_agent.py:100-244 | the records one check appends: SOFT, then HARD; stated by `CheckRecordsByRatio` and `CheckTerminations` |
| ResourceFrontLine.MonitorRecords | SubAgenticAI.Python/subagentic_ai/front_line_agent.py:71-98 | the records one call appends, the six checks in order; stated by `MonitorRecordsWellFormed` and `TerminationsPerOverLimitCheck`, and `MonitorAndEnforce` is proved to append them |
| ResourceFrontLine.CheckRecordsByRatio | SubAgenticAI.Python/subagentic_ai/front_line_agent.py:100-244 | per check: below 90% nothing; from 90% to 100% inclusive one SOFT record at ratio×100; above 100% SOFT then HARD, except cost without hard budget enforcement, which stays SOFT |
| ResourceFrontLine.MonitorRecordsWellFormed | SubAgenticAI.Python/subagentic_ai/front_line_agent.py:94-98 | in one call's records only HARD records terminate; every HARD record carries 100% and directly follows a SOFT record for the same resource type; every SOFT record carries ≥ 90% |
| ResourceFrontLine.CheckTerminations | SubAgenticAI.Python/subagentic_ai/front_line_agent.py:263-278 | a check terminates at most once, with its hard-limit reason, exactly when it is over an enforceable ceiling |
| ResourceFrontLine.TerminationsPerOverLimitCheck | SubAgenticAI.Python/subagentic_ai/front_line_agent.py:94-98 | one call calls `terminate` once per over-limit check, in check order |
| ResourceFrontLine.TwoCategoriesOverLimit | SubAgenticAI.Python/subagentic_ai/front_line_agent.py:94-98 | with CPU and memory both over their ceilings, one call terminates twice, CPU first |
| ResourceFrontLine.CpuScenarios | SubAgenticAI.Python/subagentic_ai/front_line_agent.py:108-121 | against 2 cores, usage 1.0 gives nothing, 1.85 gives SOFT at 92.5%, and 2.5 gives SOFT at 125% then HARD |
| ResourceFrontLine.BoundariesAreSoft | SubAgenticAI.Python/subagentic_ai/front_line_agent.py:129-142 | a ratio of exactly 0.9 or exactly 1.0 gives SOFT only |
| ResourceFrontLine.AdvisoryCostOverrun | SubAgenticAI.Python/subagentic_ai/front_line_agent.py:229-244 | without hard budget enforcement, cost at 150% gives one SOFT record at 150% and no termination |
| ResourceFrontLine.TierMonotone | SubAgenticAI.Python/subagentic_ai/front_line_agent.py:100-244 | against the same profile, higher usage never gives a milder tier |
| ResourceFrontLine.ApplyRecords | SubAgenticAI.Python/subagentic_ai/front_line_agent.py:263-301 | the audit log only grows, by exactly the records; any terminating record leaves the agent TERMINATED and unregistered; otherwise both are unchanged |
| ResourceFrontLine.ApplyRecordsCompose | SubAgenticAI.Python/subagentic_ai/front_line_agent.py:94-98 | applying records in two steps is applying their concatenation |
| ResourceFrontLine.FrontLineAgent.constructor | SubAgenticAI.Python/subagentic_ai/front_line_agent.py:32-36 | a new FLA has no agents, no metrics and an empty audit log |
| ResourceFrontLine.FrontLineAgent.ProvisionSubAgent | SubAgenticAI.Python/subagentic_ai/front_line_agent.py:38-69 | ValueError for null and RuntimeError for an active id, changing nothing; otherwise it adds the agent, zeroed metrics, and one NONE-level non-terminating record |
| ResourceFrontLine.FrontLineAgent.MonitorAndEnforce | SubAgenticAI.Python/subagentic_ai/front_line_agent.py:71-98 | an inactive id changes nothing; for an active one the snapshot becomes what `GetResourceUsage` returns, and the state becomes `ApplyRecords` of exactly `MonitorRecords` |
| ResourceFrontLine.FrontLineAgent.CheckComputeLimits | SubAgenticAI.Python/subagentic_ai/front_line_agent.py:100-142 | it applies the CPU records, then the execution-time records |
| ResourceFrontLine.FrontLineAgent.CheckMemoryLimits | SubAgenticAI.Python/subagentic_ai/front_line_agent.py:144-169 | it applies the memory records |
| ResourceFrontLine.FrontLineAgent.CheckNetworkLimits | SubAgenticAI.Python/subagentic_ai/front_line_agent.py:171-193 | it applies the message-count records |
| ResourceFrontLine.FrontLineAgent.CheckStorageLimits | SubAgenticAI.Python/subagentic_ai/front_line_agent.py:195-220 | it applies the state-size records |
| ResourceFrontLine.FrontLineAgent.CheckCostLimits | SubAgenticAI.Python/subagentic_ai/front_line_agent.py:222-244 | it applies the cost records, terminating only under hard budget enforcement |
| ResourceFrontLine.FrontLineAgent.ApplySoftEnforcement | SubAgenticAI.Python/subagentic_ai/front_line_agent.py:246-261 | it appends one non-terminating SOFT record and changes nothing else |
| ResourceFrontLine.FrontLineAgent.ApplyHardEnforcement | SubAgenticAI.Python/subagentic_ai/front_line_agent.py:263-281 | it terminates the agent with the reason, appends a HARD record at 100%, and unregisters the agent |
| ResourceFrontLine.FrontLineAgent.LogAudit | SubAgenticAI.Python/subagentic_ai/front_line_agent.py:283-301 | it appends exactly one record; earlier records are untouched |
| ResourceFrontLine.FrontLineAgent.GetResourceUsage | SubAgenticAI.Python/subagentic_ai/front_line_agent.py:303-314 | the stored snapshot for the id, or none |
| ResourceFrontLine.FrontLineAgent.GetAuditLog | SubAgenticAI.Python/subagentic_ai/front_line_agent.py:316-324 | the audit log's records, in order |
| ResourceFrontLine.FrontLineAgent.GetActiveSubAgents | SubAgenticAI.Python/subagentic_ai/front_line_agent.py:326-334 | exactly the registered agents |
| ResourceFrontLine.FrontLineAgent.TerminateSubAgent | SubAgenticAI.Python/subagentic_ai/front_line_agent.py:336-356 | an active agent is terminated, unregistered, and logged with one HARD "Manual termination: {reason}" record at 0%; an unknown id changes nothing |

## Left out

- Concurrency: the FLA's lock and the `async`/`await` structure. Every operation is a sequential call on a single thread.
- Log text: timestamps and the `[FLA-<id>]` prefix of log entries are not modelled. Each entry is its message text.
- Audit records: the creation timestamp of each `EnforcementAction` is not modelled.
- Clocks and ids are parameters:
  - the current time is `now`;
  - the uuid hex of new SubAgent ids is `uuidHex`;
  - the receive-time key suffix is `timestamp`.
- Text: only ASCII letters are lower-cased. Unicode case mapping is not modelled.
- Numbers: IEEE floating-point rounding of means, ratios and percentages is not modelled, because all such values are exact `real`s. Durations are seconds, standing for `timedelta.total_seconds()`.
- `ITrustBroker`: the abstract interface and `ISubAgent` are not modelled as such. `SimpleTrustBroker` is the only broker. `InboundDecision` states the rule for the verdicts of any brokers.
- `SubAgent._execute`: it is abstract. Its effect is an `ExecutionOutcome` argument, either a returned result or a raised message.
- The `_on_terminated` hook: its override is recorded only as the sequence of reasons it receives.
- ResourceFrontLine.FrontLineAgent.MonitorAndEnforce: requires every ceiling it divides by to be positive. A zero ceiling raises ZeroDivisionError in the source after the earlier checks have run, and that partial run is not modelled.
- ResourceFrontLine.FrontLineAgent.CheckComputeLimits: requires positive ceilings, for the same reason. So do the other four `Check…Limits` methods.
- ResourceSubAgents.SubAgent.constructor: requires a non-empty id and mission. The raising paths of the source's constructor are modelled by `NewSubAgent`.
- MissionFrontLine.FrontLineAgent.ProcessUserTask: the `except` branch is not modelled. It logs "Task processing failed" and re-raises, but it cannot be reached: the agent has just been started, so it is ACTIVE when the task arrives.
- GetActiveSubAgents: returns the registered agents as a set. The source returns a list in registration order, and the model's map of active agents does not record that order.
- Copying getters are not modelled: `get_activity_log`, `get_state_snapshot`, `get_active_sub_agents` and `get_event_log` of the mission-side agents. They return copies of fields the model exposes directly.
- The PAUSED status: it is declared, but no modelled operation enters it.
- Demo scripts and package `__init__` files: they only print or re-export.
