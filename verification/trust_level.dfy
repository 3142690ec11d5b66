/**
 * Trust Level (TL): the pair (sender trust, content trust) that governs inbound
 * information flow. Both scores are clamped into [0, 1] when a level is built.
 */
module TrustLevels {

  predicate InUnit(x: real)
  {
    0.0 <= x <= 1.0
  }

  /** `max(0.0, min(1.0, x))`. */
  function Clamp01(x: real): (r: real)
    ensures InUnit(r)
    ensures x < 0.0 ==> r == 0.0
    ensures x > 1.0 ==> r == 1.0
    ensures InUnit(x) ==> r == x
  {
    if x < 0.0 then 0.0 else if x > 1.0 then 1.0 else x
  }

  datatype TrustLevel = TrustLevel(senderTrust: real, contentTrust: real)
  {
    /** Both scores lie in [0, 1], as every level built by `NewTrustLevel` does. */
    predicate Clamped()
    {
      InUnit(senderTrust) && InUnit(contentTrust)
    }

    /** True if both sender and content trust reach the threshold's. */
    predicate MeetsThreshold(threshold: TrustLevel)
    {
      senderTrust >= threshold.senderTrust && contentTrust >= threshold.contentTrust
    }
  }

  /** `TrustLevel(sender_trust, content_trust)` with its `__post_init__` clamping. */
  function NewTrustLevel(senderTrust: real, contentTrust: real): (t: TrustLevel)
    ensures t.Clamped()
    ensures InUnit(senderTrust) ==> t.senderTrust == senderTrust
    ensures InUnit(contentTrust) ==> t.contentTrust == contentTrust
    ensures senderTrust < 0.0 ==> t.senderTrust == 0.0
    ensures senderTrust > 1.0 ==> t.senderTrust == 1.0
    ensures contentTrust < 0.0 ==> t.contentTrust == 0.0
    ensures contentTrust > 1.0 ==> t.contentTrust == 1.0
  {
    TrustLevel(Clamp01(senderTrust), Clamp01(contentTrust))
  }

  /** Rebuilding a level from the fields of a built one changes nothing. */
  lemma ClampingIdempotent(senderTrust: real, contentTrust: real)
    ensures var t := NewTrustLevel(senderTrust, contentTrust);
            NewTrustLevel(t.senderTrust, t.contentTrust) == t
  {
  }

  /** Each axis is judged on its own: a sender score below the threshold's fails whatever the content score. */
  lemma NoSubstitutionBetweenAxes(t: TrustLevel, threshold: TrustLevel)
    ensures t.senderTrust < threshold.senderTrust ==> !t.MeetsThreshold(threshold)
    ensures t.contentTrust < threshold.contentTrust ==> !t.MeetsThreshold(threshold)
    ensures t.MeetsThreshold(threshold) <==>
            t.senderTrust >= threshold.senderTrust && t.contentTrust >= threshold.contentTrust
  {
  }

  /** `meets_threshold` is a preorder: every level meets itself, and meeting is transitive. */
  lemma MeetsThresholdPreorder(a: TrustLevel, b: TrustLevel, c: TrustLevel)
    ensures a.MeetsThreshold(a)
    ensures a.MeetsThreshold(b) && b.MeetsThreshold(c) ==> a.MeetsThreshold(c)
  {
  }
}
