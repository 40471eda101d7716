/** Where the journal's consumption meets the capability itself: what the onboarding steps compare as
    whole tokens and requests is what revalidation decides on bytes and digests. */
module Handoff {
  import opened Bytes
  import Claims
  import Capability
  import opened Onboarding

  /** The issued capability of an operation, under some printing of requests and tokens. */
  ghost predicate IssuedAs(op: Operation, hash: Claims.Hash, claimsOf: Request -> Claims.ClaimSet, tokenOf: nat -> Bytes,
                           issued: Capability.LaunchCapability, issuedAt: Capability.I64, id: Uuid, high: Uuid, low: Uuid)
  {
    && -0x8000_0000_0000_0000 <= op.expiry < 0x8000_0000_0000_0000
    && Capability.Issue(hash, claimsOf(op.request), issuedAt, op.expiry, id, high, low) == Capability.Ok(issued)
    && tokenOf(op.token) == issued.token
  }

  /** Two values are told apart by a stream unless they collide. */
  predicate NoCollision(hash: Claims.Hash, a: Bytes, b: Bytes) {
    !Claims.Collision(hash, a, b)
  }

  /** A pending operation's capability is consumed exactly when revalidating the presented token and
      claims against its persisted metadata succeeds, short of a collision of the streams named. */
  lemma ConsumptionIsVerification(s: Store, r: Request, token: nat, now: Capability.I64, hash: Claims.Hash,
                                  claimsOf: Request -> Claims.ClaimSet, tokenOf: nat -> Bytes,
                                  issued: Capability.LaunchCapability, issuedAt: Capability.I64, id: Uuid, high: Uuid, low: Uuid)
    requires Indexed(s) && KeyOf(r) in s.keys
    requires var op := s.ops[s.keys[KeyOf(r)]];
      && op.phase == CapabilityIssued && IssuedAs(op, hash, claimsOf, tokenOf, issued, issuedAt, id, high, low)
      && (claimsOf(r) == claimsOf(op.request) ==> r == op.request) && (tokenOf(token) == tokenOf(op.token) ==> token == op.token)
      && Claims.FitsMemory(claimsOf(r)) && Claims.FitsMemory(claimsOf(op.request))
      && NoCollision(hash, Claims.ClaimStream(claimsOf(r)), Claims.ClaimStream(claimsOf(op.request)))
      && NoCollision(hash, Claims.VerifierStream(tokenOf(token)), Claims.VerifierStream(issued.token))
    ensures ConsumeCapability(s, r, token, now).Ok?
       <==> Capability.Verify(hash, tokenOf(token), issued.metadata, claimsOf(r), now).Ok?
  {
    var op := s.ops[s.keys[KeyOf(r)]];
    Capability.VerifyAcceptsExactly(
      hash, claimsOf(op.request), issuedAt, op.expiry, id, high, low, tokenOf(token), claimsOf(r), now);
  }

  /** And reserving issues a capability exactly when issuing on bytes succeeds. */
  lemma ReservationIsIssue(s: Store, r: Request, op: nat, token: nat, now: Capability.I64, expiry: Capability.I64,
                           hash: Claims.Hash, claims: Claims.ClaimSet, id: Uuid, high: Uuid, low: Uuid)
    requires Indexed(s) && KeyOf(r) !in s.keys && r.runtime !in s.runtimes && op !in s.ops
    ensures Reserve(s, r, op, token, now, expiry).Ok?
       <==> Capability.Issue(hash, claims, now, expiry, id, high, low).Ok?
  {
  }
}
