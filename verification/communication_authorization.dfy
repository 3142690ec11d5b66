/**
 * Communication authorizations between SubAgents: a directed (or two-way) permission
 * from one agent to another, optionally expiring. Instants and durations are integer
 * microseconds; the current time is an explicit argument.
 */
module Authorizations {
  import opened Results

  datatype CommunicationAuthorization = CommunicationAuthorization(
    fromAgentId: string,
    toAgentId: string,
    isBidirectional: bool,
    allowedDataScopes: seq<string>,
    createdAt: int,
    expiresAt: Option<int>)
  {
    /** Expired once the current time is strictly after a stated expiry; without one, never. */
    predicate IsExpired(now: int)
    {
      expiresAt.Some? && now > expiresAt.value
    }

    /**
     * An unexpired authorization permits its own direction, and the reverse one
     * when it is bidirectional; nothing else.
     */
    predicate IsAuthorized(fromId: string, toId: string, now: int)
      ensures IsAuthorized(fromId, toId, now) ==> !IsExpired(now)
      ensures IsAuthorized(fromId, toId, now) ==>
                (fromId == fromAgentId && toId == toAgentId) ||
                (isBidirectional && fromId == toAgentId && toId == fromAgentId)
      ensures !IsExpired(now) && fromId == fromAgentId && toId == toAgentId ==> IsAuthorized(fromId, toId, now)
    {
      if IsExpired(now) then false
      else if fromAgentId == fromId && toAgentId == toId then true
      else if isBidirectional && fromAgentId == toId && toAgentId == fromId then true
      else false
    }

    /** The agent appears at either end of the authorization. */
    predicate Names(agentId: string)
    {
      fromAgentId == agentId || toAgentId == agentId
    }
  }

  /** The default data scope, `("*",)`. */
  const AllScopes: seq<string> := ["*"]

  /**
   * `CommunicationAuthorization.create` at time `now`. A `ttl` counts only when it is truthy,
   * as `if ttl` reads a `timedelta`: a zero duration gives no expiry at all.
   * Missing or empty scopes become `("*",)`.
   */
  function Create(fromAgentId: string, toAgentId: string, isBidirectional: bool,
                  allowedDataScopes: Option<seq<string>>, ttl: Option<int>, now: int): (a: CommunicationAuthorization)
    ensures a.fromAgentId == fromAgentId && a.toAgentId == toAgentId && a.isBidirectional == isBidirectional
    ensures a.createdAt == now
    ensures ttl.Some? && ttl.value != 0 ==> a.expiresAt == Some(now + ttl.value)
    ensures ttl.None? || ttl.value == 0 ==> a.expiresAt.None?
    ensures |a.allowedDataScopes| > 0
    ensures allowedDataScopes.Some? && allowedDataScopes.value != [] ==> a.allowedDataScopes == allowedDataScopes.value
    ensures allowedDataScopes.None? || allowedDataScopes.value == [] ==> a.allowedDataScopes == AllScopes
  {
    var expiresAt := if ttl.Some? && ttl.value != 0 then Some(now + ttl.value) else None;
    var scopes := if allowedDataScopes.Some? && allowedDataScopes.value != [] then allowedDataScopes.value else AllScopes;
    CommunicationAuthorization(fromAgentId, toAgentId, isBidirectional, scopes, now, expiresAt)
  }

  /** Without an expiry an authorization never expires. */
  lemma NoExpiryNeverExpires(a: CommunicationAuthorization, now: int)
    requires a.expiresAt.None?
    ensures !a.IsExpired(now)
    ensures a.IsAuthorized(a.fromAgentId, a.toAgentId, now)
  {
  }

  /** An expired authorization authorizes no pair at all. */
  lemma ExpiredAuthorizesNothing(a: CommunicationAuthorization, fromId: string, toId: string, now: int)
    requires a.IsExpired(now)
    ensures !a.IsAuthorized(fromId, toId, now)
  {
  }

  /** Between distinct agents, the reverse direction is authorized exactly when the authorization is bidirectional. */
  lemma ReverseNeedsBidirectional(a: CommunicationAuthorization, now: int)
    requires !a.IsExpired(now) && a.fromAgentId != a.toAgentId
    ensures a.IsAuthorized(a.toAgentId, a.fromAgentId, now) <==> a.isBidirectional
  {
  }

  /**
   * A positive time-to-live gives a window: authorized up to and including the expiry
   * instant, expired strictly after it.
   */
  lemma TtlWindow(fromId: string, toId: string, bidirectional: bool, scopes: Option<seq<string>>,
                  ttl: int, now: int, later: int)
    requires ttl > 0
    ensures var a := Create(fromId, toId, bidirectional, scopes, Some(ttl), now);
            (later <= now + ttl ==> a.IsAuthorized(fromId, toId, later)) &&
            (later > now + ttl ==> !a.IsAuthorized(fromId, toId, later))
  {
  }

  /** A zero time-to-live is falsy, so it yields an authorization that never expires. */
  lemma ZeroTtlNeverExpires(fromId: string, toId: string, bidirectional: bool, scopes: Option<seq<string>>,
                            now: int, later: int)
    ensures Create(fromId, toId, bidirectional, scopes, Some(0), now).IsAuthorized(fromId, toId, later)
  {
  }

  /**
   * `next(auth for auth in auths if auth.is_authorized(...), None)`: the first stored
   * authorization that permits the pair now.
   */
  function FindAuthorization(auths: seq<CommunicationAuthorization>, fromId: string, toId: string, now: int)
    : (r: Option<CommunicationAuthorization>)
    ensures r.Some? ==> r.value in auths && r.value.IsAuthorized(fromId, toId, now)
    ensures r.None? ==> forall a :: a in auths ==> !a.IsAuthorized(fromId, toId, now)
  {
    if auths == [] then None
    else if auths[0].IsAuthorized(fromId, toId, now) then Some(auths[0])
    else FindAuthorization(auths[1..], fromId, toId, now)
  }

  /** The search returns the first permitting authorization in stored order. */
  lemma {:induction false} FindAuthorizationIsFirst(auths: seq<CommunicationAuthorization>, fromId: string,
                                                    toId: string, now: int, i: nat)
    requires i < |auths| && auths[i].IsAuthorized(fromId, toId, now)
    requires forall j :: 0 <= j < i ==> !auths[j].IsAuthorized(fromId, toId, now)
    ensures FindAuthorization(auths, fromId, toId, now) == Some(auths[i])
  {
    if i > 0 {
      assert !auths[0].IsAuthorized(fromId, toId, now);
      assert forall j :: 0 <= j < i - 1 ==> auths[1..][j] == auths[j + 1];
      FindAuthorizationIsFirst(auths[1..], fromId, toId, now, i - 1);
    }
  }

  /** The authorizations that do not name the agent, in their original order. */
  function WithoutAgent(auths: seq<CommunicationAuthorization>, agentId: string): (kept: seq<CommunicationAuthorization>)
    ensures |kept| <= |auths|
    ensures forall a :: a in kept <==> a in auths && !a.Names(agentId)
  {
    if auths == [] then []
    else if !auths[0].Names(agentId) then [auths[0]] + WithoutAgent(auths[1..], agentId)
    else WithoutAgent(auths[1..], agentId)
  }

  /** An authorization not naming the agent is kept, in place. */
  lemma WithoutAgentKeeps(a: CommunicationAuthorization, agentId: string)
    requires !a.Names(agentId)
    ensures WithoutAgent([a], agentId) == [a]
  {
  }

  /** An authorization naming the agent is dropped. */
  lemma WithoutAgentDrops(a: CommunicationAuthorization, agentId: string)
    requires a.Names(agentId)
    ensures WithoutAgent([a], agentId) == []
  {
  }

  /**
   * Filtering distributes over concatenation: together with the one-element cases above, the kept
   * authorizations are those of the input, in their order and with their multiplicity.
   */
  lemma {:induction false} WithoutAgentAppend(a: seq<CommunicationAuthorization>, b: seq<CommunicationAuthorization>,
                                              agentId: string)
    ensures WithoutAgent(a + b, agentId) == WithoutAgent(a, agentId) + WithoutAgent(b, agentId)
  {
    if a != [] {
      assert (a + b)[1..] == a[1..] + b;
      WithoutAgentAppend(a[1..], b, agentId);
    } else {
      assert a + b == b;
    }
  }

  /** Removing an agent's authorizations twice is removing them once. */
  lemma {:induction false} WithoutAgentIdempotent(auths: seq<CommunicationAuthorization>, agentId: string)
    ensures WithoutAgent(WithoutAgent(auths, agentId), agentId) == WithoutAgent(auths, agentId)
  {
    if auths != [] {
      WithoutAgentIdempotent(auths[1..], agentId);
      if !auths[0].Names(agentId) {
        assert ([auths[0]] + WithoutAgent(auths[1..], agentId))[1..] == WithoutAgent(auths[1..], agentId);
      }
    }
  }

  /** When no authorization names the agent, removing its authorizations changes nothing. */
  lemma {:induction false} WithoutAbsentAgentUnchanged(auths: seq<CommunicationAuthorization>, agentId: string)
    requires forall a :: a in auths ==> !a.Names(agentId)
    ensures WithoutAgent(auths, agentId) == auths
  {
    if auths != [] {
      assert auths[0] in auths;
      assert forall a :: a in auths[1..] ==> a in auths;
      WithoutAbsentAgentUnchanged(auths[1..], agentId);
      assert [auths[0]] + auths[1..] == auths;
    }
  }

  /** Once an agent's authorizations are removed, no pair involving the agent is authorized, in either direction. */
  lemma RemovedAgentIsCutOff(auths: seq<CommunicationAuthorization>, agentId: string, otherId: string, now: int)
    ensures FindAuthorization(WithoutAgent(auths, agentId), agentId, otherId, now).None?
    ensures FindAuthorization(WithoutAgent(auths, agentId), otherId, agentId, now).None?
  {
  }
}
