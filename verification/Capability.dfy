/** The one-shot launch capability (src/onboarding.rs): issuing it, the private-channel
    token grammar, the metadata that survives persistence, and the helper's revalidation. */
module Capability {
  import opened Bytes
  import opened Claims

  type I64 = x: int | -0x8000_0000_0000_0000 <= x < 0x8000_0000_0000_0000

  const MAX_CAPABILITY_LIFETIME_MILLIS := 60_000

  datatype CapabilityError = InvalidExpiry | InvalidToken | Expired | ClaimMismatch

  datatype Result<+T> = Ok(value: T) | Err(error: CapabilityError)

  datatype Metadata = Metadata(tokenId: Bytes, verifier: Bytes, expiry: I64, claimsDigest: Bytes)

  datatype LaunchCapability = LaunchCapability(token: Bytes, metadata: Metadata)

  /** Subtraction that refuses to leave the 64-bit range. */
  function CheckedSub(a: I64, b: I64): Option<I64> {
    if -0x8000_0000_0000_0000 <= a - b < 0x8000_0000_0000_0000 then Some(a - b) else None
  }

  function Verifier(hash: Hash, token: Bytes): Bytes {
    DigestText(TOKEN_VERIFIER_VERSION, hash, VerifierStream(token))
  }

  function Token(id: Uuid, secret: Bytes): Bytes {
    Hyphenated(id) + [DOT] + secret
  }

  /** Issues a capability; the three UUIDs are those the identity source draws. It succeeds
      exactly for a positive, bounded lifetime that starts at a non-negative clock: 64-bit
      overflow never lets another pair of times through. */
  function Issue(hash: Hash, claims: ClaimSet, now: I64, expiry: I64, id: Uuid, high: Uuid, low: Uuid)
    : (r: Result<LaunchCapability>)
    ensures r.Ok? <==> 0 <= now < expiry <= now + MAX_CAPABILITY_LIFETIME_MILLIS
  {
    match CheckedSub(expiry, now)
    case None => Err(InvalidExpiry)
    case Some(lifetime) =>
      if now < 0 || lifetime <= 0 || lifetime > MAX_CAPABILITY_LIFETIME_MILLIS then Err(InvalidExpiry)
      else
        var token := Token(id, Simple(high) + Simple(low));
        Ok(LaunchCapability(token, Metadata(Hyphenated(id), Verifier(hash, token), expiry, ClaimDigest(hash, claims))))
  }

  /** What stands before and after the first separator. */
  function SplitOnce(s: Bytes, separator: Byte): (r: Option<(Bytes, Bytes)>)
    ensures r.Some? ==> separator !in r.value.0 && s == r.value.0 + [separator] + r.value.1
    ensures r.None? ==> separator !in s
  {
    if s == [] then None
    else if s[0] == separator then Some(([], s[1..]))
    else
      match SplitOnce(s[1..], separator)
      case None => None
      case Some((before, after)) => Some(([s[0]] + before, after))
  }

  predicate ValidToken(token: Bytes) {
    match SplitOnce(token, DOT)
    case None => false
    case Some((id, secret)) =>
      match ParseUuid(id)
      case None => false
      case Some(parsed) => Hyphenated(parsed) == id && |secret| == 64 && AllLowerHex(secret)
  }

  predicate IsVersionedSha256(value: Bytes, version: Bytes) {
    var prefix := version + SHA256_TAG;
    prefix <= value && |value| - |prefix| == 64 && AllLowerHex(value[|prefix|..])
  }

  /** Rebuilds persisted metadata; the live token is never among it. */
  function FromPersisted(tokenId: Bytes, verifier: Bytes, expiry: I64, claimsDigest: Bytes): Result<Metadata> {
    if ParseUuid(tokenId).None? || expiry <= 0
       || !IsVersionedSha256(verifier, TOKEN_VERIFIER_VERSION)
       || !IsVersionedSha256(claimsDigest, CLAIM_DIGEST_VERSION) then Err(InvalidToken)
    else Ok(Metadata(tokenId, verifier, expiry, claimsDigest))
  }

  /** The helper's pure revalidation before consumption is recorded. */
  function Verify(hash: Hash, token: Bytes, metadata: Metadata, claims: ClaimSet, now: I64): (r: Result<()>) {
    if now < 0 || now >= metadata.expiry then Err(Expired)
    else if ParseUuid(metadata.tokenId).None?
            || !IsVersionedSha256(metadata.verifier, TOKEN_VERIFIER_VERSION)
            || !IsVersionedSha256(metadata.claimsDigest, CLAIM_DIGEST_VERSION) then Err(InvalidToken)
    else
      match SplitOnce(token, DOT)
      case None => Err(InvalidToken)
      case Some((id, _)) =>
        if !ValidToken(token) || id != metadata.tokenId
           || !ConstantTimeEq(Verifier(hash, token), metadata.verifier) then Err(InvalidToken)
        else if !ConstantTimeEq(ClaimDigest(hash, claims), metadata.claimsDigest) then Err(ClaimMismatch)
        else Ok(())
  }

  // The token grammar

  lemma {:induction false} SplitOnceAt(before: Bytes, after: Bytes, separator: Byte)
    requires separator !in before
    ensures SplitOnce(before + [separator] + after, separator) == Some((before, after))
  {
    var s := before + [separator] + after;
    if before == [] {
      assert s[1..] == after;
    } else {
      SplitOnceAt(before[1..], after, separator);
      assert s[1..] == before[1..] + [separator] + after;
      assert before == [before[0]] + before[1..];
    }
  }

  lemma SplitToken(id: Uuid, secret: Bytes)
    ensures SplitOnce(Token(id, secret), DOT) == Some((Hyphenated(id), secret))
  {
    HyphenatedBytes(id);
    SplitOnceAt(Hyphenated(id), secret, DOT);
  }

  ghost predicate IsToken(token: Bytes, id: Uuid, secret: Bytes) {
    token == Token(id, secret) && |secret| == 64 && AllLowerHex(secret)
  }

  /** The accepted tokens are exactly a canonical UUID, one dot and 64 lower-case digits;
      no other spelling the UUID reader understands gets through. */
  lemma TokenGrammar(token: Bytes)
    ensures ValidToken(token) <==> exists id: Uuid, secret :: IsToken(token, id, secret)
  {
    if ValidToken(token) {
      var (text, secret) := SplitOnce(token, DOT).value;
      assert IsToken(token, ParseUuid(text).value, secret);
    }
    if id: Uuid, secret :| IsToken(token, id, secret) {
      SplitToken(id, secret);
      UuidRoundTrip(id);
    }
  }

  // Persistence

  lemma DigestTextIsVersioned(version: Bytes, hash: Hash, stream: Bytes)
    ensures IsVersionedSha256(DigestText(version, hash, stream), version)
  {
    var prefix := version + SHA256_TAG;
    assert DigestText(version, hash, stream)[|prefix|..] == Hex(hash(stream));
  }

  /** Issued metadata comes back from persistence unchanged. */
  lemma IssuedMetadataSurvives(hash: Hash, claims: ClaimSet, now: I64, expiry: I64, id: Uuid, high: Uuid, low: Uuid)
    requires Issue(hash, claims, now, expiry, id, high, low).Ok?
    ensures var m := Issue(hash, claims, now, expiry, id, high, low).value.metadata;
      FromPersisted(m.tokenId, m.verifier, m.expiry, m.claimsDigest) == Ok(m)
  {
    UuidRoundTrip(id);
    DigestTextIsVersioned(TOKEN_VERIFIER_VERSION, hash, VerifierStream(Token(id, Simple(high) + Simple(low))));
    DigestTextIsVersioned(CLAIM_DIGEST_VERSION, hash, ClaimStream(claims));
  }

  /** A versioned digest: the version, its tag and 64 lower-case digits. */
  ghost predicate IsDigest(value: Bytes, version: Bytes) {
    exists digits: Bytes :: |digits| == 64 && AllLowerHex(digits) && value == version + SHA256_TAG + digits
  }

  lemma VersionedExactly(value: Bytes, version: Bytes)
    ensures IsVersionedSha256(value, version) <==> IsDigest(value, version)
  {
    var prefix := version + SHA256_TAG;
    if IsVersionedSha256(value, version) {
      assert value == prefix + value[|prefix|..];
    }
    if digits: Bytes :| |digits| == 64 && AllLowerHex(digits) && value == version + SHA256_TAG + digits {
      assert value[|prefix|..] == digits;
    }
  }

  /** Metadata comes back from persistence exactly with a readable identifier, a positive expiry and a
      digest of each kind, and then as it was. */
  lemma PersistedExactly(tokenId: Bytes, verifier: Bytes, expiry: I64, claimsDigest: Bytes)
    ensures FromPersisted(tokenId, verifier, expiry, claimsDigest) ==
      if ParseUuid(tokenId).Some? && expiry >= 1 && IsDigest(verifier, TOKEN_VERIFIER_VERSION)
         && IsDigest(claimsDigest, CLAIM_DIGEST_VERSION)
      then Ok(Metadata(tokenId, verifier, expiry, claimsDigest)) else Err(InvalidToken)
  {
    VersionedExactly(verifier, TOKEN_VERIFIER_VERSION);
    VersionedExactly(claimsDigest, CLAIM_DIGEST_VERSION);
  }

  // Revalidation

  /** Against any metadata whatever, revalidation passes exactly within the lifetime, for metadata that
      persistence would return, a token of its identifier and its verifier, and claims of its digest. */
  lemma VerifyExactly(hash: Hash, token: Bytes, m: Metadata, claims: ClaimSet, now: I64)
    ensures Verify(hash, token, m, claims, now).Ok? <==>
      && 0 <= now < m.expiry && FromPersisted(m.tokenId, m.verifier, m.expiry, m.claimsDigest) == Ok(m)
      && (exists id: Uuid, secret :: IsToken(token, id, secret) && m.tokenId == Hyphenated(id))
      && Verifier(hash, token) == m.verifier && ClaimDigest(hash, claims) == m.claimsDigest
    ensures !(0 <= now < m.expiry) ==> Verify(hash, token, m, claims, now) == Err(Expired)
    ensures Verify(hash, token, m, claims, now) == Err(ClaimMismatch) ==> ClaimDigest(hash, claims) != m.claimsDigest
  {
    TokenGrammar(token);
    ConstantTimeEqIsEquality(Verifier(hash, token), m.verifier);
    ConstantTimeEqIsEquality(ClaimDigest(hash, claims), m.claimsDigest);
    if SplitOnce(token, DOT).Some? && ValidToken(token) {
      var (text, secret) := SplitOnce(token, DOT).value;
      assert IsToken(token, ParseUuid(text).value, secret);
    }
    if id: Uuid, secret :| IsToken(token, id, secret) && m.tokenId == Hyphenated(id) {
      SplitToken(id, secret);
    }
  }

  /** The presented token is the issued one, or a well-formed token of the same id whose
      verifier stream collides with the issued one. */
  ghost predicate TokenMatches(hash: Hash, token: Bytes, issued: Bytes, id: Uuid) {
    || token == issued
    || ((exists secret :: IsToken(token, id, secret))
        && Collision(hash, VerifierStream(token), VerifierStream(issued)))
  }

  ghost predicate ClaimsMatch(hash: Hash, claims: ClaimSet, issued: ClaimSet) {
    claims == issued || Collision(hash, ClaimStream(claims), ClaimStream(issued))
  }

  lemma VerifierBinds(hash: Hash, a: Bytes, b: Bytes)
    ensures Verifier(hash, a) == Verifier(hash, b)
       <==> a == b || Collision(hash, VerifierStream(a), VerifierStream(b))
  {
    DigestTextInjective(TOKEN_VERIFIER_VERSION, hash, VerifierStream(a), VerifierStream(b));
    var n := |TOKEN_VERIFIER_VERSION| + 1;
    assert VerifierStream(a)[n..] == a && VerifierStream(b)[n..] == b;
  }

  lemma TokenCheck(hash: Hash, token: Bytes, id: Uuid, secret: Bytes)
    requires |secret| == 64 && AllLowerHex(secret)
    ensures (ValidToken(token) && SplitOnce(token, DOT).value.0 == Hyphenated(id)
             && Verifier(hash, token) == Verifier(hash, Token(id, secret)))
       <==> TokenMatches(hash, token, Token(id, secret), id)
  {
    var issued := Token(id, secret);
    VerifierBinds(hash, token, issued);
    SplitToken(id, secret);
    UuidRoundTrip(id);
    if ValidToken(token) && SplitOnce(token, DOT).value.0 == Hyphenated(id) {
      assert IsToken(token, id, SplitOnce(token, DOT).value.1);
    }
    if s :| IsToken(token, id, s) {
      SplitToken(id, s);
    }
  }

  /** The outcome of revalidating any token and claims, at any time, against an issued
      capability. Short of a collision of the two streams named, only the issued token with
      the issued claims passes, and only from clock zero until the expiry. */
  lemma VerifyIssued(hash: Hash, claims: ClaimSet, issuedAt: I64, expiry: I64, id: Uuid, high: Uuid, low: Uuid,
                     token: Bytes, presented: ClaimSet, now: I64)
    requires Issue(hash, claims, issuedAt, expiry, id, high, low).Ok?
    requires FitsMemory(claims) && FitsMemory(presented)
    ensures var capability := Issue(hash, claims, issuedAt, expiry, id, high, low).value;
      Verify(hash, token, capability.metadata, presented, now)
      == if !(0 <= now < expiry) then Err(Expired)
         else if !TokenMatches(hash, token, capability.token, id) then Err(InvalidToken)
         else if !ClaimsMatch(hash, presented, claims) then Err(ClaimMismatch)
         else Ok(())
  {
    var secret := Simple(high) + Simple(low);
    var issued := Token(id, secret);
    IssuedMetadataSurvives(hash, claims, issuedAt, expiry, id, high, low);
    TokenCheck(hash, token, id, secret);
    ConstantTimeEqIsEquality(Verifier(hash, token), Verifier(hash, issued));
    ConstantTimeEqIsEquality(ClaimDigest(hash, presented), ClaimDigest(hash, claims));
    ClaimDigestBinds(hash, presented, claims);
  }

  /** Where the streams do not collide: exactly the issued token and claims pass, from clock zero until
      the expiry. */
  lemma VerifyAcceptsExactly(hash: Hash, claims: ClaimSet, issuedAt: I64, expiry: I64, id: Uuid, high: Uuid, low: Uuid,
                             token: Bytes, presented: ClaimSet, now: I64)
    requires Issue(hash, claims, issuedAt, expiry, id, high, low).Ok?
    requires FitsMemory(claims) && FitsMemory(presented)
    requires !Collision(hash, ClaimStream(presented), ClaimStream(claims))
    requires !Collision(hash, VerifierStream(token),
                        VerifierStream(Issue(hash, claims, issuedAt, expiry, id, high, low).value.token))
    ensures var capability := Issue(hash, claims, issuedAt, expiry, id, high, low).value;
      Verify(hash, token, capability.metadata, presented, now).Ok?
      <==> 0 <= now < expiry && token == capability.token && presented == claims
  {
    VerifyIssued(hash, claims, issuedAt, expiry, id, high, low, token, presented, now);
  }
}
