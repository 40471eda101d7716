/** The byte streams hashed by the onboarding boundary (src/onboarding.rs): the complete
    claim set of one launch, the normalized provider arguments, and the token verifier.
    SHA-256 is a parameter. Nothing is assumed of it: a theorem that needs two digests to
    differ names the two byte streams that would have to collide. */
module Claims {
  import opened Bytes
  import opened Providers

  type Digest = b: Bytes | |b| == 32 witness seq(32, i => 0)
  type Hash = Bytes -> Digest

  /** Two different streams with one digest. */
  predicate Collision(hash: Hash, a: Bytes, b: Bytes) {
    a != b && hash(a) == hash(b)
  }

  const ARGUMENT_DIGEST_VERSION: Bytes := Ascii("wsnav-fresh-argv-v1")
  const CLAIM_DIGEST_VERSION: Bytes := Ascii("wsnav-launch-claims-v1")
  const TOKEN_VERIFIER_VERSION: Bytes := Ascii("wsnav-launch-verifier-v1")
  const SHA256_TAG: Bytes := Ascii(":sha256:")

  datatype RuntimePaths = RuntimePaths(directory: Bytes, socket: Bytes, config: Bytes, sessionName: Bytes)

  /** Every authority claim one launch capability binds. Texts and paths are their UTF-8 bytes. */
  datatype ClaimSet = ClaimSet(
    operation: Uuid,
    presentation: Uuid,
    presentationRevision: int,
    slotGeneration: Uuid,
    leaseGeneration: int,
    candidateRuntime: Uuid,
    paths: RuntimePaths,
    provider: Provider,
    shellCwd: Bytes,
    worktreeRoot: Bytes,
    location: Uuid,
    runtimeGeneration: Bytes,
    registryGeneration: Bytes,
    shellPid: int,
    shellBirth: Bytes,
    shellProcessGroup: int,
    shellSession: int,
    argvDigest: Bytes,
    bootProvenance: Bytes)

  function ProviderName(p: Provider): Bytes {
    match p
    case Codex => Ascii("codex")
    case OpenCode => Ascii("opencode")
  }

  function ParseProvider(s: Bytes): Option<Provider> {
    if s == Ascii("codex") then Some(Codex)
    else if s == Ascii("opencode") then Some(OpenCode)
    else None
  }

  /** The claim names in the order they are hashed. */
  function ClaimNames(): (names: seq<Bytes>)
    ensures |names| == 22
  {
    [ Ascii("operation"), Ascii("presentation"), Ascii("presentation_revision"), Ascii("slot_generation"),
      Ascii("lease_generation"), Ascii("candidate_runtime"), Ascii("runtime_directory"), Ascii("runtime_socket"),
      Ascii("runtime_config"), Ascii("runtime_session"), Ascii("provider"), Ascii("shell_cwd"),
      Ascii("worktree_root"), Ascii("location"), Ascii("runtime_generation"), Ascii("registry_generation"),
      Ascii("shell_pid"), Ascii("shell_birth"), Ascii("shell_process_group"), Ascii("shell_session"),
      Ascii("argv_digest"), Ascii("boot_provenance") ]
  }

  /** The claim values in the same order, as text. */
  function ClaimValues(c: ClaimSet): (values: seq<Bytes>)
    ensures |values| == 22
  {
    [ Hyphenated(c.operation), Hyphenated(c.presentation), SignedDecimal(c.presentationRevision),
      Hyphenated(c.slotGeneration), SignedDecimal(c.leaseGeneration), Hyphenated(c.candidateRuntime),
      c.paths.directory, c.paths.socket, c.paths.config, c.paths.sessionName, ProviderName(c.provider),
      c.shellCwd, c.worktreeRoot, Hyphenated(c.location), c.runtimeGeneration, c.registryGeneration,
      SignedDecimal(c.shellPid), c.shellBirth, SignedDecimal(c.shellProcessGroup),
      SignedDecimal(c.shellSession), c.argvDigest, c.bootProvenance ]
  }

  /** A length as the eight bytes hashed before a value. */
  function LengthBytes(n: nat): (s: Bytes)
    ensures |s| == 8
  {
    BigEndian(if n < TWO_TO_64 then n else TWO_TO_64 - 1, 8)
  }

  function EncodeField(tag: Bytes, value: Bytes): Bytes {
    [NUL] + tag + [NUL] + LengthBytes(|value|) + value
  }

  function EncodeFields(names: seq<Bytes>, values: seq<Bytes>): Bytes
    requires |names| == |values|
  {
    if names == [] then [] else EncodeField(names[0], values[0]) + EncodeFields(names[1..], values[1..])
  }

  function ClaimStream(c: ClaimSet): Bytes {
    CLAIM_DIGEST_VERSION + EncodeFields(ClaimNames(), ClaimValues(c))
  }

  /** Every hashed value is shorter than 2^64 bytes, as every string in memory is. */
  predicate FitsMemory(c: ClaimSet) {
    AllFit(ClaimValues(c))
  }

  predicate AllFit(values: seq<Bytes>) {
    forall v :: v in values ==> |v| < TWO_TO_64
  }

  // Reading a stream back

  function DecodeField(tag: Bytes, s: Bytes): (r: Option<(Bytes, Bytes)>) {
    var head := |tag| + 2;
    if |s| < head + 8 || s[..head] != [NUL] + tag + [NUL] then None
    else
      var n := BigEndianValue(s[head..head + 8]);
      if |s| < head + 8 + n then None
      else Some((s[head + 8..head + 8 + n], s[head + 8 + n..]))
  }

  /** Reads one value for every expected name, and nothing may be left over. */
  function DecodeFields(names: seq<Bytes>, s: Bytes): (r: Option<seq<Bytes>>)
    ensures r.Some? ==> |r.value| == |names|
  {
    if names == [] then
      if s == [] then Some([]) else None
    else
      match DecodeField(names[0], s)
      case None => None
      case Some((value, rest)) =>
        match DecodeFields(names[1..], rest)
        case None => None
        case Some(values) => Some([value] + values)
  }

  function ParseClaims(v: seq<Bytes>): Option<ClaimSet>
    requires |v| == 22
  {
    var operation, presentation, slot := ParseUuid(v[0]), ParseUuid(v[1]), ParseUuid(v[3]);
    var candidate, location, provider := ParseUuid(v[5]), ParseUuid(v[13]), ParseProvider(v[10]);
    if operation.None? || presentation.None? || slot.None? || candidate.None? || location.None? || provider.None? then
      None
    else
      Some(ClaimSet(operation.value, presentation.value, SignedValue(v[2]), slot.value, SignedValue(v[4]),
                    candidate.value, RuntimePaths(v[6], v[7], v[8], v[9]), provider.value, v[11], v[12],
                    location.value, v[14], v[15], SignedValue(v[16]), v[17], SignedValue(v[18]),
                    SignedValue(v[19]), v[20], v[21]))
  }

  function DecodeClaims(s: Bytes): Option<ClaimSet> {
    if !(CLAIM_DIGEST_VERSION <= s) then None
    else ParseOptional(DecodeFields(ClaimNames(), s[|CLAIM_DIGEST_VERSION|..]))
  }

  function ParseOptional(values: Option<seq<Bytes>>): Option<ClaimSet>
    requires values.Some? ==> |values.value| == 22
  {
    if values.None? then None else ParseClaims(values.value)
  }

  lemma DecodeFieldRoundTrip(name: Bytes, value: Bytes, rest: Bytes)
    requires |value| < TWO_TO_64
    ensures DecodeField(name, EncodeField(name, value) + rest) == Some((value, rest))
  {
    var s := EncodeField(name, value) + rest;
    var head := |name| + 2;
    Power256Of8();
    BigEndianRoundTrip(|value|, 8);
    assert s[..head] == [NUL] + name + [NUL];
    assert s[head..head + 8] == LengthBytes(|value|);
    assert s[head + 8..head + 8 + |value|] == value;
    assert s[head + 8 + |value|..] == rest;
  }

  lemma {:induction false} DecodeFieldsRoundTrip(names: seq<Bytes>, values: seq<Bytes>)
    requires |names| == |values|
    requires AllFit(values)
    ensures DecodeFields(names, EncodeFields(names, values)) == Some(values)
  {
    if names != [] {
      DecodeFieldsRoundTrip(names[1..], values[1..]);
      DecodeFieldRoundTrip(names[0], values[0], EncodeFields(names[1..], values[1..]));
      assert values == [values[0]] + values[1..];
    }
  }

  lemma ParseUuidClaims(v: seq<Bytes>, c: ClaimSet)
    requires |v| == 22
    requires v[0] == Hyphenated(c.operation) && v[1] == Hyphenated(c.presentation)
    requires v[3] == Hyphenated(c.slotGeneration) && v[5] == Hyphenated(c.candidateRuntime)
    requires v[13] == Hyphenated(c.location)
    ensures ParseUuid(v[0]) == Some(c.operation) && ParseUuid(v[1]) == Some(c.presentation)
    ensures ParseUuid(v[3]) == Some(c.slotGeneration) && ParseUuid(v[5]) == Some(c.candidateRuntime)
    ensures ParseUuid(v[13]) == Some(c.location)
  {
    UuidRoundTrip(c.operation);
    UuidRoundTrip(c.presentation);
    UuidRoundTrip(c.slotGeneration);
    UuidRoundTrip(c.candidateRuntime);
    UuidRoundTrip(c.location);
  }

  lemma ParseNumberClaims(v: seq<Bytes>, c: ClaimSet)
    requires |v| == 22
    requires v[2] == SignedDecimal(c.presentationRevision) && v[4] == SignedDecimal(c.leaseGeneration)
    requires v[16] == SignedDecimal(c.shellPid) && v[18] == SignedDecimal(c.shellProcessGroup)
    requires v[19] == SignedDecimal(c.shellSession)
    ensures SignedValue(v[2]) == c.presentationRevision && SignedValue(v[4]) == c.leaseGeneration
    ensures SignedValue(v[16]) == c.shellPid && SignedValue(v[18]) == c.shellProcessGroup
    ensures SignedValue(v[19]) == c.shellSession
  {
    SignedDecimalRoundTrip(c.presentationRevision);
    SignedDecimalRoundTrip(c.leaseGeneration);
    SignedDecimalRoundTrip(c.shellPid);
    SignedDecimalRoundTrip(c.shellProcessGroup);
    SignedDecimalRoundTrip(c.shellSession);
  }

  lemma ProviderRoundTrip(p: Provider)
    ensures ParseProvider(ProviderName(p)) == Some(p)
  {
    assert |Ascii("codex")| != |Ascii("opencode")|;
  }

  lemma ParseClaimsRoundTrip(c: ClaimSet)
    ensures ParseClaims(ClaimValues(c)) == Some(c)
  {
    ParseUuidClaims(ClaimValues(c), c);
    ParseNumberClaims(ClaimValues(c), c);
    ProviderRoundTrip(c.provider);
  }

  /** The hashed stream determines the claim set: a reader recovers every field. */
  lemma ClaimStreamDecodes(c: ClaimSet)
    requires FitsMemory(c)
    ensures DecodeClaims(ClaimStream(c)) == Some(c)
  {
    VersionedFieldsDecode(ClaimNames(), ClaimValues(c));
    ParseClaimsRoundTrip(c);
  }

  lemma VersionedFieldsDecode(names: seq<Bytes>, values: seq<Bytes>)
    requires |names| == |values|
    requires AllFit(values)
    ensures CLAIM_DIGEST_VERSION <= CLAIM_DIGEST_VERSION + EncodeFields(names, values)
    ensures DecodeFields(names, (CLAIM_DIGEST_VERSION + EncodeFields(names, values))[|CLAIM_DIGEST_VERSION|..])
         == Some(values)
  {
    var fields := EncodeFields(names, values);
    assert (CLAIM_DIGEST_VERSION + fields)[|CLAIM_DIGEST_VERSION|..] == fields;
    DecodeFieldsRoundTrip(names, values);
  }

  // Digest texts

  function DigestText(version: Bytes, hash: Hash, stream: Bytes): Bytes {
    version + SHA256_TAG + Hex(hash(stream))
  }

  function ClaimDigest(hash: Hash, c: ClaimSet): Bytes {
    DigestText(CLAIM_DIGEST_VERSION, hash, ClaimStream(c))
  }

  lemma DigestTextInjective(version: Bytes, hash: Hash, a: Bytes, b: Bytes)
    ensures DigestText(version, hash, a) == DigestText(version, hash, b) <==> hash(a) == hash(b)
  {
    var n := |version| + |SHA256_TAG|;
    assert DigestText(version, hash, a)[n..] == Hex(hash(a));
    assert DigestText(version, hash, b)[n..] == Hex(hash(b));
    HexRoundTrip(hash(a));
    HexRoundTrip(hash(b));
  }

  lemma ClaimStreamInjective(a: ClaimSet, b: ClaimSet)
    requires FitsMemory(a) && FitsMemory(b) && ClaimStream(a) == ClaimStream(b)
    ensures a == b
  {
    var s := ClaimStream(a);
    assert DecodeClaims(s) == Some(a) by { ClaimStreamDecodes(a); }
    assert DecodeClaims(s) == Some(b) by { ClaimStreamDecodes(b); }
  }

  /** One digest binds one claim set, up to a collision of the two named streams. */
  lemma ClaimDigestBinds(hash: Hash, a: ClaimSet, b: ClaimSet)
    requires FitsMemory(a) && FitsMemory(b)
    ensures ClaimDigest(hash, a) == ClaimDigest(hash, b)
       <==> a == b || Collision(hash, ClaimStream(a), ClaimStream(b))
  {
    DigestTextInjective(CLAIM_DIGEST_VERSION, hash, ClaimStream(a), ClaimStream(b));
    if ClaimStream(a) == ClaimStream(b) {
      ClaimStreamInjective(a, b);
    }
  }

  // Provider arguments

  function JoinArguments(arguments: seq<Bytes>): Bytes {
    if arguments == [] then [] else [NUL] + arguments[0] + JoinArguments(arguments[1..])
  }

  function ArgumentStream(provider: Provider, arguments: seq<Bytes>): Bytes {
    ARGUMENT_DIGEST_VERSION + [NUL] + ProviderName(provider) + JoinArguments(arguments)
  }

  /** The pieces between NUL bytes; never empty. */
  function SplitNul(s: Bytes): (pieces: seq<Bytes>)
    ensures pieces != []
  {
    if s == [] then [[]]
    else if s[0] == NUL then [[]] + SplitNul(s[1..])
    else
      var rest := SplitNul(s[1..]);
      [[s[0]] + rest[0]] + rest[1..]
  }

  predicate NulFree(s: Bytes) {
    NUL !in s
  }

  lemma {:induction false} SplitNulPrefix(a: Bytes, s: Bytes)
    requires NulFree(a)
    ensures SplitNul(a + s) == [a + SplitNul(s)[0]] + SplitNul(s)[1..]
  {
    if a == [] {
      assert a + s == s;
      assert a + SplitNul(s)[0] == SplitNul(s)[0];
    } else {
      SplitNulPrefix(a[1..], s);
      assert (a + s)[1..] == a[1..] + s;
      assert [a[0]] + (a[1..] + SplitNul(s)[0]) == a + SplitNul(s)[0];
    }
  }

  lemma {:induction false} SplitNulJoined(arguments: seq<Bytes>)
    requires forall a :: a in arguments ==> NulFree(a)
    ensures SplitNul(JoinArguments(arguments)) == [[]] + arguments
  {
    if arguments != [] {
      var rest := JoinArguments(arguments[1..]);
      SplitNulJoined(arguments[1..]);
      assert JoinArguments(arguments)[1..] == arguments[0] + rest;
      SplitNulPrefix(arguments[0], rest);
      assert arguments[0] + [] == arguments[0];
      assert arguments == [arguments[0]] + arguments[1..];
    }
  }

  lemma SplitNulHeaded(version: Bytes, name: Bytes, arguments: seq<Bytes>)
    requires NulFree(version) && NulFree(name)
    requires forall a :: a in arguments ==> NulFree(a)
    ensures SplitNul(version + ([NUL] + (name + JoinArguments(arguments)))) == [version, name] + arguments
  {
    var joined := JoinArguments(arguments);
    SplitNulJoined(arguments);
    SplitNulPrefix(name, joined);
    SplitNulAfterNul(name + joined);
    SplitNulPrefix(version, [NUL] + (name + joined));
    assert ([[]] + arguments)[1..] == arguments && version + [] == version && name + [] == name;
    assert ([[]] + SplitNul(name + joined))[1..] == SplitNul(name + joined);
    assert [version] + ([name] + arguments) == [version, name] + arguments;
  }

  lemma SplitNulAfterNul(s: Bytes)
    ensures SplitNul([NUL] + s) == [[]] + SplitNul(s)
  {
    assert ([NUL] + s)[1..] == s;
  }

  /** Splitting the hashed stream on NUL recovers the version, the provider and every
      argument, so no two NUL-free commands share a stream; [] and [""] differ. */
  lemma ArgumentStreamSplits(provider: Provider, arguments: seq<Bytes>)
    requires forall a :: a in arguments ==> NulFree(a)
    ensures SplitNul(ArgumentStream(provider, arguments))
         == [ARGUMENT_DIGEST_VERSION, ProviderName(provider)] + arguments
  {
    SplitNulHeaded(ARGUMENT_DIGEST_VERSION, ProviderName(provider), arguments);
    ConcatenationAssociates(ARGUMENT_DIGEST_VERSION, [NUL], ProviderName(provider), JoinArguments(arguments));
  }

  lemma ConcatenationAssociates(a: Bytes, b: Bytes, c: Bytes, d: Bytes)
    ensures a + b + c + d == a + (b + (c + d))
  {
  }

  function ArgumentDigest(hash: Hash, provider: Provider, arguments: seq<Bytes>): Bytes {
    DigestText(ARGUMENT_DIGEST_VERSION, hash, ArgumentStream(provider, arguments))
  }

  /** One digest binds one provider command, up to a collision of the two named streams. */
  lemma ArgumentDigestBinds(hash: Hash, p: Provider, xs: seq<Bytes>, q: Provider, ys: seq<Bytes>)
    requires forall a :: a in xs ==> NulFree(a)
    requires forall a :: a in ys ==> NulFree(a)
    ensures ArgumentDigest(hash, p, xs) == ArgumentDigest(hash, q, ys)
       <==> (p == q && xs == ys) || Collision(hash, ArgumentStream(p, xs), ArgumentStream(q, ys))
  {
    DigestTextInjective(ARGUMENT_DIGEST_VERSION, hash, ArgumentStream(p, xs), ArgumentStream(q, ys));
    ArgumentStreamSplits(p, xs);
    ArgumentStreamSplits(q, ys);
    if ArgumentStream(p, xs) == ArgumentStream(q, ys) {
      var left := [ARGUMENT_DIGEST_VERSION, ProviderName(p)] + xs;
      var right := [ARGUMENT_DIGEST_VERSION, ProviderName(q)] + ys;
      assert left[1] == right[1] && left[2..] == xs && right[2..] == ys;
      assert |ProviderName(Codex)| != |ProviderName(OpenCode)|;
    }
  }

  function VerifierStream(token: Bytes): Bytes {
    TOKEN_VERIFIER_VERSION + [NUL] + token
  }

  /** A stream of one kind is never a stream of another kind. */
  lemma StreamsAreSeparated(c: ClaimSet, provider: Provider, arguments: seq<Bytes>, token: Bytes)
    ensures ClaimStream(c) != ArgumentStream(provider, arguments)
    ensures ClaimStream(c) != VerifierStream(token)
    ensures ArgumentStream(provider, arguments) != VerifierStream(token)
  {
    assert ClaimStream(c)[6] == "wsnav-launch-claims-v1"[6] as int;
    assert VerifierStream(token)[6] == "wsnav-launch-verifier-v1"[6] as int;
    assert ArgumentStream(provider, arguments)[6] == "wsnav-fresh-argv-v1"[6] as int;
    assert ClaimStream(c)[13] == "wsnav-launch-claims-v1"[13] as int;
    assert VerifierStream(token)[13] == "wsnav-launch-verifier-v1"[13] as int;
  }

  // The hasher the digests feed step by step

  class Hasher {
    var fed: Bytes

    constructor ()
      ensures fed == []
    {
      fed := [];
    }

    method Update(bytes: Bytes)
      modifies this
      ensures fed == old(fed) + bytes
    {
      fed := fed + bytes;
    }

    /** Hashes one tagged, length-prefixed value. */
    method UpdateField(tag: Bytes, value: Bytes)
      modifies this
      ensures fed == old(fed) + EncodeField(tag, value)
    {
      Update([NUL]);
      Update(tag);
      Update([NUL]);
      Update(LengthBytes(|value|));
      Update(value);
      assert fed == old(fed) + ([NUL] + tag + [NUL] + LengthBytes(|value|) + value);
    }

    /** Hashes the k-th of the given claims. */
    method UpdateClaim(name: Bytes, value: Bytes,
                       ghost start: Bytes, ghost names: seq<Bytes>, ghost values: seq<Bytes>, ghost k: nat)
      requires k < |names| == |values| && name == names[k] && value == values[k]
      requires fed == start + EncodeFields(names[..k], values[..k])
      modifies this
      ensures fed == start + EncodeFields(names[..k + 1], values[..k + 1])
    {
      UpdateField(name, value);
      EncodeFieldsAppend(names[..k], values[..k], name, value);
      assert names[..k + 1] == names[..k] + [name];
      assert values[..k + 1] == values[..k] + [value];
      ghost var before := EncodeFields(names[..k], values[..k]);
      ghost var field := EncodeField(name, value);
      assert start + before + field == start + (before + field);
    }
  }

  lemma {:induction false} EncodeFieldsAppend(names: seq<Bytes>, values: seq<Bytes>, name: Bytes, value: Bytes)
    requires |names| == |values|
    ensures EncodeFields(names + [name], values + [value]) == EncodeFields(names, values) + EncodeField(name, value)
  {
    if names == [] {
      assert ([] + [name])[1..] == [] && ([] + [value])[1..] == [];
    } else {
      EncodeFieldsAppend(names[1..], values[1..], name, value);
      assert (names + [name])[1..] == names[1..] + [name];
      assert (values + [value])[1..] == values[1..] + [value];
    }
  }

  ghost predicate SlotClaims(ns: seq<Bytes>, vs: seq<Bytes>, c: ClaimSet) {
    && |ns| == |vs| == 22
    && ns[0] == Ascii("operation") && vs[0] == Hyphenated(c.operation)
    && ns[1] == Ascii("presentation") && vs[1] == Hyphenated(c.presentation)
    && ns[2] == Ascii("presentation_revision") && vs[2] == SignedDecimal(c.presentationRevision)
    && ns[3] == Ascii("slot_generation") && vs[3] == Hyphenated(c.slotGeneration)
    && ns[4] == Ascii("lease_generation") && vs[4] == SignedDecimal(c.leaseGeneration)
    && ns[5] == Ascii("candidate_runtime") && vs[5] == Hyphenated(c.candidateRuntime)
  }

  ghost predicate RuntimeClaims(ns: seq<Bytes>, vs: seq<Bytes>, c: ClaimSet) {
    && |ns| == |vs| == 22
    && ns[6] == Ascii("runtime_directory") && vs[6] == c.paths.directory
    && ns[7] == Ascii("runtime_socket") && vs[7] == c.paths.socket
    && ns[8] == Ascii("runtime_config") && vs[8] == c.paths.config
    && ns[9] == Ascii("runtime_session") && vs[9] == c.paths.sessionName
    && ns[10] == Ascii("provider") && vs[10] == ProviderName(c.provider)
  }

  ghost predicate ShellClaims(ns: seq<Bytes>, vs: seq<Bytes>, c: ClaimSet) {
    && |ns| == |vs| == 22
    && ns[11] == Ascii("shell_cwd") && vs[11] == c.shellCwd
    && ns[12] == Ascii("worktree_root") && vs[12] == c.worktreeRoot
    && ns[13] == Ascii("location") && vs[13] == Hyphenated(c.location)
    && ns[14] == Ascii("runtime_generation") && vs[14] == c.runtimeGeneration
    && ns[15] == Ascii("registry_generation") && vs[15] == c.registryGeneration
    && ns[16] == Ascii("shell_pid") && vs[16] == SignedDecimal(c.shellPid)
    && ns[17] == Ascii("shell_birth") && vs[17] == c.shellBirth
    && ns[18] == Ascii("shell_process_group") && vs[18] == SignedDecimal(c.shellProcessGroup)
    && ns[19] == Ascii("shell_session") && vs[19] == SignedDecimal(c.shellSession)
    && ns[20] == Ascii("argv_digest") && vs[20] == c.argvDigest
    && ns[21] == Ascii("boot_provenance") && vs[21] == c.bootProvenance
  }

  lemma SlotClaimsInOrder(c: ClaimSet)
    ensures SlotClaims(ClaimNames(), ClaimValues(c), c)
  {
  }

  lemma RuntimeClaimsInOrder(c: ClaimSet)
    ensures RuntimeClaims(ClaimNames(), ClaimValues(c), c)
  {
  }

  lemma ShellClaimsInOrder(c: ClaimSet)
    ensures ShellClaims(ClaimNames(), ClaimValues(c), c)
  {
  }

  /** The digest of a claim set as the broker computes it: one hasher, fed claim by claim. */
  method HashClaims(hash: Hash, c: ClaimSet) returns (text: Bytes)
    ensures text == ClaimDigest(hash, c)
  {
    var h := new Hasher();
    h.Update(CLAIM_DIGEST_VERSION);
    SlotClaimsInOrder(c);
    RuntimeClaimsInOrder(c);
    ShellClaimsInOrder(c);
    FeedClaims(h, c, ClaimNames(), ClaimValues(c));
    text := CLAIM_DIGEST_VERSION + SHA256_TAG + Hex(hash(h.fed));
  }

  method FeedClaims(h: Hasher, c: ClaimSet, ghost ns: seq<Bytes>, ghost vs: seq<Bytes>)
    requires SlotClaims(ns, vs, c) && RuntimeClaims(ns, vs, c) && ShellClaims(ns, vs, c)
    requires h.fed == CLAIM_DIGEST_VERSION
    modifies h
    ensures h.fed == CLAIM_DIGEST_VERSION + EncodeFields(ns, vs)
  {
    HashSlotClaims(h, c, ns, vs);
    HashRuntimeClaims(h, c, ns, vs);
    HashShellClaims(h, c, ns, vs);
    assert ns[..22] == ns && vs[..22] == vs;
  }

  method HashSlotClaims(h: Hasher, c: ClaimSet, ghost ns: seq<Bytes>, ghost vs: seq<Bytes>)
    requires SlotClaims(ns, vs, c)
    requires h.fed == CLAIM_DIGEST_VERSION
    modifies h
    ensures h.fed == CLAIM_DIGEST_VERSION + EncodeFields(ns[..6], vs[..6])
  {
    ghost var v := CLAIM_DIGEST_VERSION;
    h.UpdateClaim(Ascii("operation"), Hyphenated(c.operation), v, ns, vs, 0);
    h.UpdateClaim(Ascii("presentation"), Hyphenated(c.presentation), v, ns, vs, 1);
    h.UpdateClaim(Ascii("presentation_revision"), SignedDecimal(c.presentationRevision), v, ns, vs, 2);
    h.UpdateClaim(Ascii("slot_generation"), Hyphenated(c.slotGeneration), v, ns, vs, 3);
    h.UpdateClaim(Ascii("lease_generation"), SignedDecimal(c.leaseGeneration), v, ns, vs, 4);
    h.UpdateClaim(Ascii("candidate_runtime"), Hyphenated(c.candidateRuntime), v, ns, vs, 5);
  }

  method HashRuntimeClaims(h: Hasher, c: ClaimSet, ghost ns: seq<Bytes>, ghost vs: seq<Bytes>)
    requires RuntimeClaims(ns, vs, c)
    requires h.fed == CLAIM_DIGEST_VERSION + EncodeFields(ns[..6], vs[..6])
    modifies h
    ensures h.fed == CLAIM_DIGEST_VERSION + EncodeFields(ns[..11], vs[..11])
  {
    ghost var v := CLAIM_DIGEST_VERSION;
    h.UpdateClaim(Ascii("runtime_directory"), c.paths.directory, v, ns, vs, 6);
    h.UpdateClaim(Ascii("runtime_socket"), c.paths.socket, v, ns, vs, 7);
    h.UpdateClaim(Ascii("runtime_config"), c.paths.config, v, ns, vs, 8);
    h.UpdateClaim(Ascii("runtime_session"), c.paths.sessionName, v, ns, vs, 9);
    h.UpdateClaim(Ascii("provider"), ProviderName(c.provider), v, ns, vs, 10);
  }

  method HashShellClaims(h: Hasher, c: ClaimSet, ghost ns: seq<Bytes>, ghost vs: seq<Bytes>)
    requires ShellClaims(ns, vs, c)
    requires h.fed == CLAIM_DIGEST_VERSION + EncodeFields(ns[..11], vs[..11])
    modifies h
    ensures h.fed == CLAIM_DIGEST_VERSION + EncodeFields(ns[..22], vs[..22])
  {
    ghost var v := CLAIM_DIGEST_VERSION;
    h.UpdateClaim(Ascii("shell_cwd"), c.shellCwd, v, ns, vs, 11);
    h.UpdateClaim(Ascii("worktree_root"), c.worktreeRoot, v, ns, vs, 12);
    h.UpdateClaim(Ascii("location"), Hyphenated(c.location), v, ns, vs, 13);
    h.UpdateClaim(Ascii("runtime_generation"), c.runtimeGeneration, v, ns, vs, 14);
    h.UpdateClaim(Ascii("registry_generation"), c.registryGeneration, v, ns, vs, 15);
    h.UpdateClaim(Ascii("shell_pid"), SignedDecimal(c.shellPid), v, ns, vs, 16);
    h.UpdateClaim(Ascii("shell_birth"), c.shellBirth, v, ns, vs, 17);
    h.UpdateClaim(Ascii("shell_process_group"), SignedDecimal(c.shellProcessGroup), v, ns, vs, 18);
    h.UpdateClaim(Ascii("shell_session"), SignedDecimal(c.shellSession), v, ns, vs, 19);
    h.UpdateClaim(Ascii("argv_digest"), c.argvDigest, v, ns, vs, 20);
    h.UpdateClaim(Ascii("boot_provenance"), c.bootProvenance, v, ns, vs, 21);
  }

  /** Feeds every argument behind a NUL. */
  method FeedArguments(h: Hasher, arguments: seq<Bytes>)
    modifies h
    ensures h.fed == old(h.fed) + JoinArguments(arguments)
  {
    for i := 0 to |arguments|
      invariant h.fed + JoinArguments(arguments[i..]) == old(h.fed) + JoinArguments(arguments)
    {
      assert arguments[i..][1..] == arguments[i + 1..];
      ghost var before := h.fed;
      h.Update([NUL]);
      h.Update(arguments[i]);
      assert before + JoinArguments(arguments[i..]) == h.fed + JoinArguments(arguments[i + 1..]);
    }
    assert h.fed + JoinArguments(arguments[|arguments|..]) == h.fed;
  }

  /** The digest of a provider command: a NUL before every argument. */
  method HashArguments(hash: Hash, provider: Provider, arguments: seq<Bytes>) returns (text: Bytes)
    ensures text == ArgumentDigest(hash, provider, arguments)
  {
    var h := new Hasher();
    h.Update(ARGUMENT_DIGEST_VERSION);
    h.Update([NUL]);
    h.Update(ProviderName(provider));
    assert h.fed == ARGUMENT_DIGEST_VERSION + [NUL] + ProviderName(provider);
    FeedArguments(h, arguments);
    text := ARGUMENT_DIGEST_VERSION + SHA256_TAG + Hex(hash(h.fed));
  }
}
