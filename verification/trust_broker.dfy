/**
 * Trust brokers: independent evaluators that score a sender and a piece of content
 * and may flag either as untrustworthy. `SimpleTrustBroker` is the concrete broker,
 * with a baseline score, per-sender reputations, a flagged-sender set and keyword
 * heuristics on the content.
 */
module TrustBrokers {
  import opened TrustLevels
  import opened Text

  /** One broker's answers for one inbound message: `is_flagged`, `evaluate_sender_trust`, `evaluate_content_trust`. */
  datatype BrokerVerdict = BrokerVerdict(flagged: bool, senderTrust: real, contentTrust: real)

  const MaliciousContentPenalty: real := 0.3
  const SuspiciousContentPenalty: real := 0.6
  const VerifiedContentBonus: real := 1.2

  /** The content-trust heuristic on a baseline score, before the final clamp. */
  function ContentScore(baseline: real, content: string): (score: real)
  {
    var lower := Lower(content);
    var penalised :=
      if Contains(lower, "malicious") then baseline * MaliciousContentPenalty
      else if Contains(lower, "suspicious") then baseline * SuspiciousContentPenalty
      else baseline;
    if Contains(lower, "verified") then (if penalised * VerifiedContentBonus < 1.0 then penalised * VerifiedContentBonus else 1.0)
    else penalised
  }

  class SimpleTrustBroker {
    const brokerId: string
    const name: string
    const baselineTrust: real
    var senderReputations: map<string, real>
    var flaggedSenders: set<string>

    /** The baseline and every stored reputation lie in [0, 1]. */
    ghost predicate Valid()
      reads this
    {
      InUnit(baselineTrust) &&
      forall s :: s in senderReputations ==> InUnit(senderReputations[s])
    }

    constructor (brokerId: string, name: string, baselineTrust: real)
      ensures Valid()
      ensures this.brokerId == brokerId && this.name == name
      ensures this.baselineTrust == Clamp01(baselineTrust)
      ensures senderReputations == map[] && flaggedSenders == {}
    {
      this.brokerId := brokerId;
      this.name := name;
      this.baselineTrust := Clamp01(baselineTrust);
      senderReputations := map[];
      flaggedSenders := {};
    }

    /** The stored reputation of the sender, or the baseline when none is stored. */
    function EvaluateSenderTrust(senderId: string): (t: real)
      reads this
      ensures Valid() ==> InUnit(t)
      ensures senderId in senderReputations ==> t == senderReputations[senderId]
      ensures senderId !in senderReputations ==> t == baselineTrust
    {
      if senderId in senderReputations then senderReputations[senderId] else baselineTrust
    }

    /**
     * The baseline scaled by 0.3 for content mentioning "malicious" (in any case), otherwise
     * by 0.6 for "suspicious"; then raised by 20% for "verified", capped at 1.0; clamped into [0, 1].
     */
    function EvaluateContentTrust(content: string): (t: real)
      reads this
      ensures InUnit(t)
    {
      Clamp01(ContentScore(baselineTrust, content))
    }

    /** True when the sender is flagged or the content mentions "malicious" in any case. */
    predicate IsFlagged(senderId: string, content: string)
      reads this
    {
      senderId in flaggedSenders || Contains(Lower(content), "malicious")
    }

    /** This broker's three answers for one message. */
    function Verdict(senderId: string, content: string): (v: BrokerVerdict)
      reads this
      ensures v.flagged == IsFlagged(senderId, content)
      ensures v.senderTrust == EvaluateSenderTrust(senderId)
      ensures v.contentTrust == EvaluateContentTrust(content)
    {
      BrokerVerdict(IsFlagged(senderId, content), EvaluateSenderTrust(senderId), EvaluateContentTrust(content))
    }

    method SetSenderReputation(senderId: string, reputation: real)
      requires Valid()
      modifies this
      ensures Valid()
      ensures senderReputations == old(senderReputations)[senderId := Clamp01(reputation)]
      ensures flaggedSenders == old(flaggedSenders)
      ensures EvaluateSenderTrust(senderId) == Clamp01(reputation)
    {
      senderReputations := senderReputations[senderId := Clamp01(reputation)];
    }

    method FlagSender(senderId: string)
      modifies this
      ensures flaggedSenders == old(flaggedSenders) + {senderId}
      ensures senderReputations == old(senderReputations)
      ensures forall c :: IsFlagged(senderId, c)
    {
      flaggedSenders := flaggedSenders + {senderId};
    }

    /** `discard`: removing a sender that is not flagged changes nothing. */
    method UnflagSender(senderId: string)
      modifies this
      ensures flaggedSenders == old(flaggedSenders) - {senderId}
      ensures senderReputations == old(senderReputations)
      ensures senderId !in old(flaggedSenders) ==> flaggedSenders == old(flaggedSenders)
    {
      flaggedSenders := flaggedSenders - {senderId};
    }
  }

  /** Content that mentions "malicious" in any case scores at most 0.36 of a full score. */
  lemma MaliciousContentScoresLow(baseline: real, content: string)
    requires InUnit(baseline)
    requires Contains(Lower(content), "malicious")
    ensures Clamp01(ContentScore(baseline, content)) <= MaliciousContentPenalty * VerifiedContentBonus
  {
  }

  /**
   * Without "verified", content mentioning "malicious" scores the baseline times 0.3, and otherwise
   * content mentioning "suspicious" scores it times 0.6.
   */
  lemma ContentPenalties(baseline: real, content: string)
    requires !Contains(Lower(content), "verified")
    ensures Contains(Lower(content), "malicious") ==> ContentScore(baseline, content) == baseline * MaliciousContentPenalty
    ensures !Contains(Lower(content), "malicious") && Contains(Lower(content), "suspicious") ==>
              ContentScore(baseline, content) == baseline * SuspiciousContentPenalty
  {
  }

  /** "malicious" takes precedence over "suspicious": the heavier penalty applies when both appear. */
  lemma MaliciousTakesPrecedence(baseline: real, content: string)
    requires Contains(Lower(content), "malicious") && Contains(Lower(content), "suspicious")
    requires !Contains(Lower(content), "verified")
    ensures ContentScore(baseline, content) == baseline * MaliciousContentPenalty
  {
  }

  /**
   * "verified" alone raises the score by 20%, never above 1.0 and never below the baseline;
   * below the cap the bonus applies in full.
   */
  lemma VerifiedBonusCapped(baseline: real, content: string)
    requires InUnit(baseline)
    requires !Contains(Lower(content), "malicious") && !Contains(Lower(content), "suspicious")
    requires Contains(Lower(content), "verified")
    ensures baseline <= ContentScore(baseline, content) <= 1.0
    ensures baseline * VerifiedContentBonus <= 1.0 ==> ContentScore(baseline, content) == baseline * VerifiedContentBonus
    ensures baseline * VerifiedContentBonus > 1.0 ==> ContentScore(baseline, content) == 1.0
  {
  }

  /**
   * "verified" multiplies the already-penalised score by 1.2, capped at 1.0: the penalty for
   * "malicious" (or else "suspicious") applies first, then the bonus.
   */
  lemma VerifiedBonusAfterPenalty(baseline: real, content: string)
    requires InUnit(baseline)
    requires Contains(Lower(content), "verified")
    ensures var p := if Contains(Lower(content), "malicious") then baseline * MaliciousContentPenalty
                     else if Contains(Lower(content), "suspicious") then baseline * SuspiciousContentPenalty
                     else baseline;
            ContentScore(baseline, content) == (if p * VerifiedContentBonus < 1.0 then p * VerifiedContentBonus else 1.0)
  {
  }

  /** Plain content (no keyword) scores exactly the baseline. */
  lemma PlainContentScoresBaseline(baseline: real, content: string)
    requires InUnit(baseline)
    requires !Contains(Lower(content), "malicious") && !Contains(Lower(content), "suspicious")
    requires !Contains(Lower(content), "verified")
    ensures Clamp01(ContentScore(baseline, content)) == baseline
  {
  }

  /** The heuristics ignore case: lower-casing the content first gives the same score and the same flag. */
  lemma CaseInsensitive(b: SimpleTrustBroker, senderId: string, content: string)
    ensures b.EvaluateContentTrust(Lower(content)) == b.EvaluateContentTrust(content)
    ensures b.IsFlagged(senderId, Lower(content)) == b.IsFlagged(senderId, content)
  {
    LowerIdempotent(content);
  }
}
