/**
 * Trust profile: the Security Level for outbound flow plus the inbound rule that
 * admits a message only when enough independent brokers agree and their mean scores
 * reach the required Trust Level.
 */
module TrustProfiles {
  import opened TrustLevels
  import opened TrustBrokers
  import Text

  /** Security Level (SL) for outbound information flow. */
  datatype SecurityLevel = Public | Internal | Confidential | Secret | TopSecret

  /** Python's `str()` of the enum member, as it appears in activity logs. */
  function SecurityLevelText(level: SecurityLevel): (t: string)
    ensures |t| > |"SecurityLevel."| && t[..|"SecurityLevel."|] == "SecurityLevel."
  {
    match level
    case Public => "SecurityLevel.PUBLIC"
    case Internal => "SecurityLevel.INTERNAL"
    case Confidential => "SecurityLevel.CONFIDENTIAL"
    case Secret => "SecurityLevel.SECRET"
    case TopSecret => "SecurityLevel.TOP_SECRET"
  }

  const DefaultMinimumBrokerAgreement: int := 2
  const DefaultAgreementTolerance: real := 0.1

  // ---------------------------------------------------------------------------
  // Arithmetic over score sequences: sum, mean (`statistics.mean`), in-band count.

  function Abs(x: real): real
  {
    if x < 0.0 then -x else x
  }

  function Sum(xs: seq<real>): real
  {
    if xs == [] then 0.0 else xs[0] + Sum(xs[1..])
  }

  function Mean(xs: seq<real>): real
    requires |xs| > 0
  {
    Sum(xs) / (|xs| as real)
  }

  predicate AllBetween(xs: seq<real>, lo: real, hi: real)
  {
    forall i :: 0 <= i < |xs| ==> lo <= xs[i] <= hi
  }

  lemma {:induction false} SumBounds(xs: seq<real>, lo: real, hi: real)
    requires AllBetween(xs, lo, hi)
    ensures lo * (|xs| as real) <= Sum(xs) <= hi * (|xs| as real)
  {
    if xs != [] {
      assert AllBetween(xs[1..], lo, hi) by {
        forall i | 0 <= i < |xs[1..]| ensures lo <= xs[1..][i] <= hi {
          assert xs[1..][i] == xs[i + 1];
        }
      }
      SumBounds(xs[1..], lo, hi);
      assert |xs| as real == (|xs[1..]| as real) + 1.0;
    }
  }

  /** The mean of values in [lo, hi] lies in [lo, hi]. */
  lemma MeanBounds(xs: seq<real>, lo: real, hi: real)
    requires |xs| > 0 && AllBetween(xs, lo, hi)
    ensures lo <= Mean(xs) <= hi
  {
    SumBounds(xs, lo, hi);
    var n := |xs| as real;
    assert Mean(xs) * n == Sum(xs);
  }

  /** How many values lie within `tolerance` of `center`. */
  function CountWithin(xs: seq<real>, center: real, tolerance: real): (k: nat)
    ensures k <= |xs|
  {
    if xs == [] then 0
    else (if Abs(xs[0] - center) <= tolerance then 1 else 0) + CountWithin(xs[1..], center, tolerance)
  }

  lemma {:induction false} CountWithinAll(xs: seq<real>, center: real, tolerance: real)
    requires forall i :: 0 <= i < |xs| ==> Abs(xs[i] - center) <= tolerance
    ensures CountWithin(xs, center, tolerance) == |xs|
  {
    if xs != [] {
      assert forall i :: 0 <= i < |xs[1..]| ==> xs[1..][i] == xs[i + 1];
      CountWithinAll(xs[1..], center, tolerance);
    }
  }

  // ---------------------------------------------------------------------------
  // The profile.

  datatype TrustProfile = TrustProfile(
    securityLevel: SecurityLevel,
    requiredTrustThreshold: TrustLevel,
    trustBrokers: seq<SimpleTrustBroker>,
    minimumBrokerAgreement: int,
    agreementTolerance: real)
  {
    /** What `__post_init__` establishes: at least two agreeing brokers, a tolerance in [0, 1], a clamped threshold. */
    predicate Valid()
    {
      minimumBrokerAgreement >= DefaultMinimumBrokerAgreement &&
      InUnit(agreementTolerance) &&
      requiredTrustThreshold.Clamped()
    }

    /**
     * `_has_independent_agreement`: at least `minimumBrokerAgreement` evaluations, and at least
     * that many lie within the tolerance of the mean of all of them.
     */
    predicate HasIndependentAgreement(evaluations: seq<real>)
      requires Valid()
    {
      |evaluations| >= minimumBrokerAgreement &&
      CountWithin(evaluations, Mean(evaluations), agreementTolerance) >= minimumBrokerAgreement
    }
  }

  /** The dataclass constructor followed by `__post_init__`. */
  function NewTrustProfile(
    securityLevel: SecurityLevel, requiredTrustThreshold: TrustLevel, trustBrokers: seq<SimpleTrustBroker>,
    minimumBrokerAgreement: int, agreementTolerance: real): (p: TrustProfile)
    requires requiredTrustThreshold.Clamped()
    ensures p.Valid()
    ensures p.securityLevel == securityLevel && p.requiredTrustThreshold == requiredTrustThreshold
    ensures p.trustBrokers == trustBrokers
    ensures minimumBrokerAgreement >= 2 ==> p.minimumBrokerAgreement == minimumBrokerAgreement
    ensures minimumBrokerAgreement < 2 ==> p.minimumBrokerAgreement == 2
    ensures p.agreementTolerance == Clamp01(agreementTolerance)
  {
    TrustProfile(
      securityLevel, requiredTrustThreshold, trustBrokers,
      if minimumBrokerAgreement < DefaultMinimumBrokerAgreement then DefaultMinimumBrokerAgreement else minimumBrokerAgreement,
      Clamp01(agreementTolerance))
  }

  /** Agreement needs enough evaluations: fewer than the minimum never agree. */
  lemma AgreementNeedsQuorum(p: TrustProfile, xs: seq<real>)
    requires p.Valid()
    requires |xs| < p.minimumBrokerAgreement
    ensures !p.HasIndependentAgreement(xs)
  {
  }

  /** Evaluations that are pairwise within the tolerance always agree, once there are enough of them. */
  lemma PairwiseCloseAgrees(p: TrustProfile, xs: seq<real>)
    requires p.Valid()
    requires |xs| >= p.minimumBrokerAgreement
    requires forall i, j :: 0 <= i < |xs| && 0 <= j < |xs| ==> Abs(xs[i] - xs[j]) <= p.agreementTolerance
    ensures p.HasIndependentAgreement(xs)
  {
    var m := Mean(xs);
    var tol := p.agreementTolerance;
    forall i | 0 <= i < |xs|
      ensures Abs(xs[i] - m) <= tol
    {
      assert AllBetween(xs, xs[i] - tol, xs[i] + tol);
      MeanBounds(xs, xs[i] - tol, xs[i] + tol);
    }
    CountWithinAll(xs, m, tol);
  }

  /**
   * The rule compares with the mean, not pairwise: with tolerance 0.1 the scores 0.0 and 0.2
   * agree (both are 0.1 from their mean) although they are 0.2 apart.
   */
  lemma MeanRuleAcceptsWiderSpread(p: TrustProfile)
    requires p.Valid() && p.minimumBrokerAgreement == 2 && p.agreementTolerance == 0.1
    ensures p.HasIndependentAgreement([0.0, 0.2])
    ensures Abs(0.0 - 0.2) > p.agreementTolerance
  {
    var xs := [0.0, 0.2];
    assert Sum(xs) == 0.2 by {
      assert xs[1..] == [0.2];
      assert Sum([0.2]) == 0.2 + Sum([]);
    }
    assert forall i :: 0 <= i < |xs| ==> Abs(xs[i] - 0.1) <= 0.1;
    CountWithinAll(xs, 0.1, 0.1);
  }

  /**
   * And the other way round: with tolerance 0.1 the scores 0.9, 0.88 and 0.5 have mean 0.76,
   * which none of them is within 0.1 of, so they do not agree although 0.9 and 0.88 are close.
   */
  lemma MeanRuleRejectsClosePairWithOutlier(p: TrustProfile)
    requires p.Valid() && p.minimumBrokerAgreement == 2 && p.agreementTolerance == 0.1
    ensures !p.HasIndependentAgreement([0.9, 0.88, 0.5])
    ensures Abs(0.9 - 0.88) <= p.agreementTolerance
  {
    var xs := [0.9, 0.88, 0.5];
    assert Sum(xs) == 2.28 by {
      assert xs[1..] == [0.88, 0.5];
      assert xs[1..][1..] == [0.5];
      assert Sum([0.5]) == 0.5 + Sum([]);
    }
    assert Mean(xs) == 0.76;
    assert CountWithin(xs, 0.76, 0.1) == 0 by {
      assert xs[1..] == [0.88, 0.5];
      assert xs[1..][1..] == [0.5];
      assert CountWithin([0.5], 0.76, 0.1) == 0 + CountWithin([], 0.76, 0.1);
    }
  }

  // ---------------------------------------------------------------------------
  // The inbound decision over the brokers' answers.

  function SenderScores(vs: seq<BrokerVerdict>): (xs: seq<real>)
    ensures |xs| == |vs| && forall i :: 0 <= i < |vs| ==> xs[i] == vs[i].senderTrust
  {
    seq(|vs|, i requires 0 <= i < |vs| => vs[i].senderTrust)
  }

  function ContentScores(vs: seq<BrokerVerdict>): (xs: seq<real>)
    ensures |xs| == |vs| && forall i :: 0 <= i < |vs| ==> xs[i] == vs[i].contentTrust
  {
    seq(|vs|, i requires 0 <= i < |vs| => vs[i].contentTrust)
  }

  /** The index of the first broker that flags the message, or `|vs|` when none does. */
  function FirstFlagged(vs: seq<BrokerVerdict>): (k: nat)
    ensures k <= |vs|
    ensures forall j :: 0 <= j < k ==> !vs[j].flagged
    ensures k < |vs| ==> vs[k].flagged
  {
    if vs == [] then 0
    else if vs[0].flagged then 0
    else 1 + FirstFlagged(vs[1..])
  }

  /** The trust level built from the mean score on each axis, over all brokers. */
  function AggregateScore(vs: seq<BrokerVerdict>): (t: TrustLevel)
    requires |vs| > 0
    ensures t.Clamped()
  {
    NewTrustLevel(Mean(SenderScores(vs)), Mean(ContentScores(vs)))
  }

  /**
   * `validate_inbound` stated on the brokers' answers, in the order the source checks:
   * the broker count, a veto by any flag, agreement on sender scores, agreement on
   * content scores, then the aggregate score against the required threshold.
   */
  predicate InboundDecision(p: TrustProfile, vs: seq<BrokerVerdict>)
    requires p.Valid()
  {
    |vs| >= p.minimumBrokerAgreement &&
    FirstFlagged(vs) == |vs| &&
    p.HasIndependentAgreement(SenderScores(vs)) &&
    p.HasIndependentAgreement(ContentScores(vs)) &&
    AggregateScore(vs).MeetsThreshold(p.requiredTrustThreshold)
  }

  /** How many brokers `validate_inbound` queries: none below the quorum, and none after the first flag. */
  ghost function BrokersConsulted(p: TrustProfile, vs: seq<BrokerVerdict>): (k: nat)
  {
    if |vs| < p.minimumBrokerAgreement then 0
    else if FirstFlagged(vs) < |vs| then FirstFlagged(vs) + 1
    else |vs|
  }

  /** Fewer brokers than the required agreement: rejected, and no broker is asked. */
  lemma FailsClosedBelowQuorum(p: TrustProfile, vs: seq<BrokerVerdict>)
    requires p.Valid() && |vs| < p.minimumBrokerAgreement
    ensures !InboundDecision(p, vs)
    ensures BrokersConsulted(p, vs) == 0
  {
  }

  /** One flag is a veto: whatever the scores, the message is rejected, and later brokers are not asked. */
  lemma {:induction false} VetoDominates(p: TrustProfile, vs: seq<BrokerVerdict>, i: int)
    requires p.Valid() && 0 <= i < |vs| && vs[i].flagged
    ensures !InboundDecision(p, vs)
    ensures BrokersConsulted(p, vs) <= i + 1
  {
    assert FirstFlagged(vs) <= i;
  }

  /**
   * With scores in [0, 1], admission holds exactly when there are enough brokers, none flags,
   * both axes agree, and each axis's mean reaches its own threshold (no substitution between axes).
   */
  lemma AdmissionIff(p: TrustProfile, vs: seq<BrokerVerdict>)
    requires p.Valid()
    requires AllBetween(SenderScores(vs), 0.0, 1.0) && AllBetween(ContentScores(vs), 0.0, 1.0)
    ensures InboundDecision(p, vs) <==>
      |vs| >= p.minimumBrokerAgreement &&
      (forall i :: 0 <= i < |vs| ==> !vs[i].flagged) &&
      p.HasIndependentAgreement(SenderScores(vs)) &&
      p.HasIndependentAgreement(ContentScores(vs)) &&
      Mean(SenderScores(vs)) >= p.requiredTrustThreshold.senderTrust &&
      Mean(ContentScores(vs)) >= p.requiredTrustThreshold.contentTrust
  {
    if |vs| > 0 {
      MeanBounds(SenderScores(vs), 0.0, 1.0);
      MeanBounds(ContentScores(vs), 0.0, 1.0);
    }
    if forall i :: 0 <= i < |vs| ==> !vs[i].flagged {
      assert FirstFlagged(vs) == |vs|;
    }
  }

  /** A profile built with the dataclass defaults requires two agreeing brokers within 0.1. */
  lemma DefaultAgreement(securityLevel: SecurityLevel, threshold: TrustLevel, brokers: seq<SimpleTrustBroker>)
    requires threshold.Clamped()
    ensures var p := NewTrustProfile(securityLevel, threshold, brokers, DefaultMinimumBrokerAgreement, DefaultAgreementTolerance);
            p.minimumBrokerAgreement == 2 && p.agreementTolerance == 0.1
  {
  }

  /**
   * Three agreeing brokers: sender scores 0.7, 0.75, 0.8 and content scores
   * 0.6, 0.65, 0.7, tolerance 0.15, two agreeing brokers required, threshold (0.6, 0.6):
   * admitted with aggregate (0.75, 0.65).
   */
  lemma ThreeBrokerAdmission(p: TrustProfile)
    requires p.Valid() && p.minimumBrokerAgreement == 2 && p.agreementTolerance == 0.15
    requires p.requiredTrustThreshold == TrustLevel(0.6, 0.6)
    ensures var vs := [BrokerVerdict(false, 0.7, 0.6), BrokerVerdict(false, 0.75, 0.65), BrokerVerdict(false, 0.8, 0.7)];
            InboundDecision(p, vs) && AggregateScore(vs) == TrustLevel(0.75, 0.65)
  {
    var vs := [BrokerVerdict(false, 0.7, 0.6), BrokerVerdict(false, 0.75, 0.65), BrokerVerdict(false, 0.8, 0.7)];
    var ss := SenderScores(vs);
    var cs := ContentScores(vs);
    assert ss == [0.7, 0.75, 0.8];
    assert cs == [0.6, 0.65, 0.7];
    assert Sum(ss) == 2.25 by {
      assert ss[1..] == [0.75, 0.8] && ss[1..][1..] == [0.8];
      assert Sum([0.8]) == 0.8 + Sum([]);
    }
    assert Sum(cs) == 1.95 by {
      assert cs[1..] == [0.65, 0.7] && cs[1..][1..] == [0.7];
      assert Sum([0.7]) == 0.7 + Sum([]);
    }
    assert Mean(ss) == 0.75 && Mean(cs) == 0.65;
    CountWithinAll(ss, 0.75, 0.15);
    CountWithinAll(cs, 0.65, 0.15);
    assert FirstFlagged(vs) == 3 by {
      assert vs[1..][1..][1..] == [];
    }
  }

  /**
   * The aggregate is the mean over all brokers, in-band or not: sender scores 0.8, 0.8, 0.5
   * agree with tolerance 0.15 (two within 0.15 of the mean 0.7), yet fail a sender threshold
   * of 0.75 that the two in-band scores alone would reach.
   */
  lemma OutlierLowersAggregate(p: TrustProfile)
    requires p.Valid() && p.minimumBrokerAgreement == 2 && p.agreementTolerance == 0.15
    requires p.requiredTrustThreshold == TrustLevel(0.75, 0.5)
    ensures var vs := [BrokerVerdict(false, 0.8, 0.9), BrokerVerdict(false, 0.8, 0.9), BrokerVerdict(false, 0.5, 0.9)];
            p.HasIndependentAgreement(SenderScores(vs)) && p.HasIndependentAgreement(ContentScores(vs)) &&
            !InboundDecision(p, vs)
  {
    var vs := [BrokerVerdict(false, 0.8, 0.9), BrokerVerdict(false, 0.8, 0.9), BrokerVerdict(false, 0.5, 0.9)];
    var ss := SenderScores(vs);
    var cs := ContentScores(vs);
    assert ss == [0.8, 0.8, 0.5];
    assert cs == [0.9, 0.9, 0.9];
    assert Sum(ss) == 2.1 by {
      assert ss[1..] == [0.8, 0.5] && ss[1..][1..] == [0.5];
      assert Sum([0.5]) == 0.5 + Sum([]);
    }
    assert Sum(cs) == 2.7 by {
      assert cs[1..] == [0.9, 0.9] && cs[1..][1..] == [0.9];
      assert Sum([0.9]) == 0.9 + Sum([]);
    }
    assert Mean(ss) == 0.7 && Mean(cs) == 0.9;
    assert CountWithin(ss, 0.7, 0.15) == 2 by {
      assert ss[1..] == [0.8, 0.5] && ss[1..][1..] == [0.5];
      assert CountWithin([0.5], 0.7, 0.15) == 0 + CountWithin([], 0.7, 0.15);
    }
    CountWithinAll(cs, 0.9, 0.15);
  }

  // ---------------------------------------------------------------------------
  // The brokers of a profile and `validate_inbound` itself.

  /** Every broker's answers for one message, in broker order. */
  function Verdicts(brokers: seq<SimpleTrustBroker>, senderId: string, content: string): (vs: seq<BrokerVerdict>)
    reads brokers
    ensures |vs| == |brokers|
    ensures forall i :: 0 <= i < |brokers| ==> vs[i] == brokers[i].Verdict(senderId, content)
  {
    seq(|brokers|, i requires 0 <= i < |brokers| reads brokers => brokers[i].Verdict(senderId, content))
  }

  /** The decision `validate_inbound` reaches with the profile's brokers in their current state. */
  predicate Accepts(p: TrustProfile, senderId: string, content: string)
    requires p.Valid()
    reads p.trustBrokers
  {
    InboundDecision(p, Verdicts(p.trustBrokers, senderId, content))
  }

  /**
   * `validate_inbound`: asks the brokers one at a time, first whether they flag the message,
   * then for the sender and content scores; stops at the first flag. `consulted` counts the
   * brokers it asked.
   */
  method ValidateInbound(p: TrustProfile, senderId: string, content: string) returns (ok: bool, ghost consulted: nat)
    requires p.Valid()
    ensures ok == Accepts(p, senderId, content)
    ensures consulted == BrokersConsulted(p, Verdicts(p.trustBrokers, senderId, content))
  {
    var brokers := p.trustBrokers;
    ghost var vs := Verdicts(brokers, senderId, content);
    if |brokers| < p.minimumBrokerAgreement {
      return false, 0;
    }
    var senderTrusts: seq<real> := [];
    var contentTrusts: seq<real> := [];
    var i := 0;
    while i < |brokers|
      invariant 0 <= i <= |brokers|
      invariant forall j :: 0 <= j < i ==> !vs[j].flagged
      invariant senderTrusts == SenderScores(vs)[..i]
      invariant contentTrusts == ContentScores(vs)[..i]
    {
      var broker := brokers[i];
      if broker.IsFlagged(senderId, content) {
        assert FirstFlagged(vs) == i;
        return false, i + 1;
      }
      var senderTrust := broker.EvaluateSenderTrust(senderId);
      var contentTrust := broker.EvaluateContentTrust(content);
      senderTrusts := senderTrusts + [senderTrust];
      contentTrusts := contentTrusts + [contentTrust];
      i := i + 1;
    }
    assert senderTrusts == SenderScores(vs);
    assert contentTrusts == ContentScores(vs);
    assert FirstFlagged(vs) == |vs|;
    if !p.HasIndependentAgreement(senderTrusts) {
      return false, |brokers|;
    }
    if !p.HasIndependentAgreement(contentTrusts) {
      return false, |brokers|;
    }
    var avgSenderTrust := Mean(senderTrusts);
    var avgContentTrust := Mean(contentTrusts);
    var evaluatedTrust := NewTrustLevel(avgSenderTrust, avgContentTrust);
    ok := evaluatedTrust.MeetsThreshold(p.requiredTrustThreshold);
    consulted := |brokers|;
  }

  /** A sender flagged by any broker of the profile is rejected. */
  lemma FlaggedSenderRejected(p: TrustProfile, b: SimpleTrustBroker, senderId: string, content: string)
    requires p.Valid() && b in p.trustBrokers && senderId in b.flaggedSenders
    ensures !Accepts(p, senderId, content)
  {
    var vs := Verdicts(p.trustBrokers, senderId, content);
    var i :| 0 <= i < |p.trustBrokers| && p.trustBrokers[i] == b;
    VetoDominates(p, vs, i);
  }

  /** Content mentioning "malicious" (in any case) is rejected by every profile. */
  lemma MaliciousContentRejected(p: TrustProfile, senderId: string, content: string)
    requires p.Valid()
    requires Text.Contains(Text.Lower(content), "malicious")
    ensures !Accepts(p, senderId, content)
  {
    var vs := Verdicts(p.trustBrokers, senderId, content);
    if |vs| > 0 {
      VetoDominates(p, vs, 0);
    }
  }

  /** Brokers in a valid state only ever answer scores in [0, 1]. */
  lemma SimpleBrokerScoresInUnit(brokers: seq<SimpleTrustBroker>, senderId: string, content: string)
    requires forall i :: 0 <= i < |brokers| ==> brokers[i].Valid()
    ensures var vs := Verdicts(brokers, senderId, content);
            AllBetween(SenderScores(vs), 0.0, 1.0) && AllBetween(ContentScores(vs), 0.0, 1.0)
  {
  }
}
