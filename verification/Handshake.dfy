/** The one-shot capability of the two-phase handshake (spikes/d17-two-phase-handshake.py): issued
    and consumed under an exclusive lease by any number of processes whose system calls interleave
    and which may be killed at any point. */
module Handshake {
  import opened Bytes
  import opened Strings

  const DOT_CHAR: char := '.'

  datatype Phase = Issued | Consumed

  datatype Holder = Provisional | RuntimeOwned

  /** A capability record. Claims are compared as a whole, so any value stands for them. */
  datatype Record = Record(verifier: string, phase: Phase, ownership: Holder, deadline: int, claims: nat)

  datatype Refusal =
    | Malformed | LeaseBusy | CapabilityUnknown | VerifierMismatch | NotIssued | Expired | ClaimMismatch

  // Tokens

  predicate LowerHex(s: string) {
    forall i :: 0 <= i < |s| ==> '0' <= s[i] <= '9' || 'a' <= s[i] <= 'f'
  }

  function Token(id: string, secret: string): string {
    id + [DOT_CHAR] + secret
  }

  /** Where the first dot is; the length when there is none. */
  function Dot(s: string): (i: nat)
    ensures i <= |s| && (i < |s| ==> s[i] == DOT_CHAR) && forall j :: 0 <= j < i ==> s[j] != DOT_CHAR
  {
    if s == "" || s[0] == DOT_CHAR then 0 else 1 + Dot(s[1..])
  }

  function Undotted(s: string): (r: string) {
    if s == "" then "" else (if s[0] == DOT_CHAR then "" else [s[0]]) + Undotted(s[1..])
  }

  function ParseCapability(token: string): Option<(string, string)> {
    var i := Dot(token);
    if i == |token| || i != 32 || |token| - i - 1 != 64 || !LowerHex(Undotted(token)) then None
    else Some((token[..i], token[i + 1..]))
  }

  predicate HexOrDot(s: string) {
    forall i :: 0 <= i < |s| ==> s[i] == DOT_CHAR || '0' <= s[i] <= '9' || 'a' <= s[i] <= 'f'
  }

  predicate HexDigit(c: char) {
    '0' <= c <= '9' || 'a' <= c <= 'f'
  }

  /** The alphabet of the parser, and the dot that its check does not see. */
  lemma AlphabetExactly(s: string)
    ensures LowerHex(s) <==> forall i :: 0 <= i < |s| ==> s[i] in "0123456789abcdef"
    ensures HexOrDot(s) <==> forall i :: 0 <= i < |s| ==> s[i] in ".0123456789abcdef"
  {
    forall i | 0 <= i < |s|
      ensures HexDigit(s[i]) <==> s[i] in "0123456789abcdef"
      ensures s[i] == DOT_CHAR || HexDigit(s[i]) <==> s[i] in ".0123456789abcdef"
    {
      HexDigitExactly(s[i]);
    }
  }

  lemma HexDigitExactly(c: char)
    ensures HexDigit(c) <==> c in "0123456789abcdef"
    ensures c == DOT_CHAR || HexDigit(c) <==> c in ".0123456789abcdef"
  {
    var digits := "0123456789abcdef";
    if HexDigit(c) {
      var i := if c <= '9' then c as int - '0' as int else c as int - 'a' as int + 10;
      assert digits[i] == c;
      assert ("." + digits)[i + 1] == c;
    }
    assert ("." + digits)[0] == DOT_CHAR;
    assert "." + digits == ".0123456789abcdef";
  }

  lemma LowerHexStep(c: char, s: string)
    ensures LowerHex([c] + s) <==> HexDigit(c) && LowerHex(s)
  {
    assert forall i :: 0 <= i < |s| ==> ([c] + s)[i + 1] == s[i];
    assert ([c] + s)[0] == c;
  }

  lemma HexOrDotStep(c: char, s: string)
    ensures HexOrDot([c] + s) <==> (c == DOT_CHAR || HexDigit(c)) && HexOrDot(s)
  {
    assert forall i :: 0 <= i < |s| ==> ([c] + s)[i + 1] == s[i];
    assert ([c] + s)[0] == c;
  }

  lemma {:induction false} UndottedHex(s: string)
    ensures LowerHex(Undotted(s)) <==> HexOrDot(s)
  {
    if s != "" {
      UndottedHex(s[1..]);
      assert s == [s[0]] + s[1..];
      HexOrDotStep(s[0], s[1..]);
      if s[0] == DOT_CHAR {
        assert Undotted(s) == Undotted(s[1..]);
      } else {
        LowerHexStep(s[0], Undotted(s[1..]));
      }
    }
  }

  /** Exactly the tokens the parser accepts. Its check of the alphabet ignores every dot, so a secret
      may hold dots of its own. */
  lemma ParseExactly(token: string, id: string, secret: string)
    ensures ParseCapability(token) == Some((id, secret))
       <==> token == Token(id, secret) && |id| == 32 && |secret| == 64 && LowerHex(id) && HexOrDot(secret)
  {
    UndottedHex(token);
    var i := Dot(token);
    if token == Token(id, secret) && |id| == 32 && |secret| == 64 && LowerHex(id) && HexOrDot(secret) {
      assert token[32] == DOT_CHAR && forall j :: 0 <= j < 32 ==> token[j] == id[j];
      assert i == 32 && token[..32] == id && token[33..] == secret;
      assert forall j :: 33 <= j < |token| ==> token[j] == secret[j - 33];
    }
  }

  /** A secret made of nothing but dots is accepted. */
  lemma DottedSecretParses()
    ensures var id, secret := seq(32, i => 'a'), seq(64, i => DOT_CHAR);
      ParseCapability(Token(id, secret)) == Some((id, secret)) && !LowerHex(secret)
  {
    var id, secret := seq(32, i => 'a'), seq(64, i => DOT_CHAR);
    ParseExactly(Token(id, secret), id, secret);
    assert secret[0] == DOT_CHAR;
  }

  /** A token that was issued parses back into its two parts. */
  lemma IssuedTokenParses(id: string, secret: string)
    requires |id| == 32 && |secret| == 64 && LowerHex(id) && LowerHex(secret)
    ensures ParseCapability(Token(id, secret)) == Some((id, secret))
  {
    ParseExactly(Token(id, secret), id, secret);
  }

  // Processes under the lease

  datatype Job =
    | Consume(id: string, secret: string, claims: nat)
    | Issue(id: string, secret: string, claims: nat, deadline: int)

  /** How far a process is: not in a body, holding the lease, holding it with the record read, or
      holding it until it becomes the provider. */
  datatype Place = Idle | Holding(job: Job) | Loaded(job: Job, record: Record) | Launching(id: string)

  type Actor = nat

  /** `lease` is the process whose descriptor is locked; `consumptions` lists every successful
      consumption in order. */
  datatype State = State(
    records: map<string, Record>,
    lease: Option<Actor>,
    places: map<Actor, Place>,
    consumptions: seq<string>)

  datatype Event =
    | BeginIssue(actor: Actor, id: string, secret: string, claims: nat, deadline: int)
    | BeginConsume(actor: Actor, token: string, claims: nat)
    | Load(actor: Actor)
    | Store(actor: Actor, now: int)
    | Leave(actor: Actor)      // exec with close-on-exec, an error, or a kill

  /** Nothing happens when the process is not at a point where it could make the step. */
  datatype Result = Went | Refused(reason: Refusal) | NoStep

  function PlaceOf(s: State, a: Actor): Place {
    if a in s.places then s.places[a] else Idle
  }

  function At(s: State, a: Actor, p: Place): State {
    s.(places := s.places[a := p])
  }

  /** Opens the lease without waiting. */
  function OpenLease(s: State, a: Actor, job: Job): (State, Result) {
    if PlaceOf(s, a) != Idle then (s, NoStep)
    else if s.lease.Some? then (s, Refused(LeaseBusy))
    else (At(s, a, Holding(job)).(lease := Some(a)), Went)
  }

  /** Unlocks and closes the descriptor of a process. */
  function CloseLease(s: State, a: Actor): State {
    At(s, a, Idle).(lease := if s.lease == Some(a) then None else s.lease)
  }

  /** Why a record that was read cannot be consumed. */
  function Objection(digest: string -> string, record: Record, job: Job, now: int): Option<Refusal>
    requires job.Consume?
  {
    if record.verifier != digest(job.secret) then Some(VerifierMismatch)
    else if record.phase != Issued || record.ownership != Provisional then Some(NotIssued)
    else if now >= record.deadline then Some(Expired)
    else if record.claims != job.claims then Some(ClaimMismatch)
    else None
  }

  function DoLoad(s: State, a: Actor): (State, Result) {
    match PlaceOf(s, a)
    case Holding(Consume(id, secret, claims)) =>
      if id !in s.records then (CloseLease(s, a), Refused(CapabilityUnknown))
      else (At(s, a, Loaded(Consume(id, secret, claims), s.records[id])), Went)
    case _ => (s, NoStep)
  }

  function DoStore(digest: string -> string, s: State, a: Actor, now: int): (State, Result) {
    match PlaceOf(s, a)
    case Holding(Issue(id, secret, claims, deadline)) =>
      // identifiers are drawn at random, so one that exists is never drawn
      if id in s.records then (s, NoStep)
      else
        var record := Record(digest(secret), Issued, Provisional, deadline, claims);
        (CloseLease(s.(records := s.records[id := record]), a), Went)
    case Loaded(job, record) =>
      if !job.Consume? then (s, NoStep)
      else
        var objection := Objection(digest, record, job, now);
        if objection.Some? then (CloseLease(s, a), Refused(objection.value))
        else
          var consumed := record.(phase := Consumed, ownership := RuntimeOwned);
          (At(s, a, Launching(job.id)).(records := s.records[job.id := consumed],
                                        consumptions := s.consumptions + [job.id]), Went)
    case _ => (s, NoStep)
  }

  function Apply(digest: string -> string, s: State, e: Event): (State, Result) {
    match e
    case BeginIssue(a, id, secret, claims, deadline) => OpenLease(s, a, Issue(id, secret, claims, deadline))
    case BeginConsume(a, token, claims) =>
      if PlaceOf(s, a) != Idle then (s, NoStep)
      else
        var parsed := ParseCapability(token);
        if parsed.None? then (s, Refused(Malformed))
        else OpenLease(s, a, Consume(parsed.value.0, parsed.value.1, claims))
    case Load(a) => DoLoad(s, a)
    case Store(a, now) => DoStore(digest, s, a, now)
    case Leave(a) => (CloseLease(s, a), Went)
  }

  function Run(digest: string -> string, s: State, events: seq<Event>): State
    decreases |events|
  {
    if events == [] then s else Run(digest, Apply(digest, s, events[0]).0, events[1..])
  }

  const START: State := State(map[], None, map[], [])

  // What every interleaving keeps

  predicate LeaseIsHeld(s: State) {
    forall a :: a in s.places && s.places[a] != Idle ==> s.lease == Some(a)
  }

  predicate LoadedIsCurrent(s: State) {
    forall a :: a in s.places && s.places[a].Loaded? ==>
      s.places[a].job.Consume? && s.places[a].job.id in s.records
      && s.records[s.places[a].job.id] == s.places[a].record
  }

  predicate LeaseIsUsed(s: State) {
    s.lease.Some? ==> PlaceOf(s, s.lease.value) != Idle
  }

  /** A record is consumed exactly when it is owned by a runtime, and exactly when it is listed. */
  predicate RecordsAgree(s: State) {
    && (forall id :: id in s.records ==>
          (s.records[id].phase == Consumed <==> s.records[id].ownership == RuntimeOwned)
          && (s.records[id].phase == Consumed <==> id in s.consumptions))
    && (forall id :: id in s.consumptions ==> id in s.records)
  }

  predicate Inv(s: State) {
    LeaseIsHeld(s) && LoadedIsCurrent(s) && LeaseIsUsed(s) && RecordsAgree(s) && NoRepeats(s.consumptions)
  }

  lemma CloseKeeps(s: State, a: Actor)
    requires Inv(s)
    ensures Inv(CloseLease(s, a))
  {
  }

  lemma OpenKeeps(s: State, a: Actor, job: Job)
    requires Inv(s)
    ensures Inv(OpenLease(s, a, job).0)
  {
  }

  lemma LoadKeeps(s: State, a: Actor)
    requires Inv(s)
    ensures Inv(DoLoad(s, a).0)
  {
    CloseKeeps(s, a);
  }

  lemma IssueKeeps(digest: string -> string, s: State, a: Actor, now: int)
    requires Inv(s) && PlaceOf(s, a).Holding?
    ensures Inv(DoStore(digest, s, a, now).0)
  {
    var job := PlaceOf(s, a).job;
    if job.Issue? && job.id !in s.records {
      var record := Record(digest(job.secret), Issued, Provisional, job.deadline, job.claims);
      assert Inv(s.(records := s.records[job.id := record]));
      CloseKeeps(s.(records := s.records[job.id := record]), a);
    }
  }

  lemma ConsumeKeeps(digest: string -> string, s: State, a: Actor, now: int)
    requires Inv(s) && PlaceOf(s, a).Loaded?
    ensures Inv(DoStore(digest, s, a, now).0)
  {
    CloseKeeps(s, a);
    var job, record, t := PlaceOf(s, a).job, PlaceOf(s, a).record, DoStore(digest, s, a, now).0;
    if Objection(digest, record, job, now).None? {
      assert s.records[job.id] == record && job.id !in s.consumptions;
      assert forall i :: 0 <= i < |s.consumptions| ==> t.consumptions[i] == s.consumptions[i];
      assert t.consumptions[|s.consumptions|] == job.id;
      assert forall id :: id in t.consumptions <==> id in s.consumptions || id == job.id;
    }
  }

  lemma StepKeeps(digest: string -> string, s: State, e: Event)
    requires Inv(s)
    ensures Inv(Apply(digest, s, e).0)
  {
    match e
    case BeginIssue(a, id, secret, claims, deadline) => OpenKeeps(s, a, Issue(id, secret, claims, deadline));
    case BeginConsume(a, token, claims) =>
      if ParseCapability(token).Some? {
        OpenKeeps(s, a, Consume(ParseCapability(token).value.0, ParseCapability(token).value.1, claims));
      }
    case Load(a) => LoadKeeps(s, a);
    case Store(a, now) =>
      if PlaceOf(s, a).Holding? {
        IssueKeeps(digest, s, a, now);
      } else if PlaceOf(s, a).Loaded? {
        ConsumeKeeps(digest, s, a, now);
      }
    case Leave(a) => CloseKeeps(s, a);
  }

  lemma {:induction false} RunKeeps(digest: string -> string, s: State, events: seq<Event>)
    requires Inv(s)
    ensures Inv(Run(digest, s, events))
    decreases |events|
  {
    if events != [] {
      StepKeeps(digest, s, events[0]);
      RunKeeps(digest, Apply(digest, s, events[0]).0, events[1..]);
    }
  }

  /** In every interleaving, with processes killed anywhere: at most one process is inside a body, a
      capability is consumed at most once, and its record says consumed exactly when it says
      runtime-owned and exactly when it was consumed. */
  lemma ConsumedAtMostOnce(digest: string -> string, events: seq<Event>)
    ensures var s := Run(digest, START, events);
      && NoRepeats(s.consumptions)
      && (forall id :: id in s.records ==>
            (s.records[id].phase == Consumed <==> s.records[id].ownership == RuntimeOwned)
            && (s.records[id].phase == Consumed <==> id in s.consumptions))
      && (forall a, b :: PlaceOf(s, a) != Idle && PlaceOf(s, b) != Idle ==> a == b)
  {
    RunKeeps(digest, START, events);
  }

  /** A refused process changed no record, consumed nothing and does not hold the lease; the lease is
      then free, unless it was refused because another process has it. */
  lemma RefusalsChangeNothing(digest: string -> string, s: State, e: Event)
    requires Inv(s) && Apply(digest, s, e).1.Refused?
    ensures var t := Apply(digest, s, e).0;
      && t.records == s.records && t.consumptions == s.consumptions
      && PlaceOf(t, e.actor) == Idle && t.lease != Some(e.actor)
      && (Apply(digest, s, e).1 != Refused(LeaseBusy) && Apply(digest, s, e).1 != Refused(Malformed) ==> t.lease.None?)
  {
  }

  /** Whatever happens, an issued record keeps its verifier, its claims and its deadline, and a
      consumed one stays as it is. */
  lemma StepKeepsRecords(digest: string -> string, s: State, e: Event, id: string)
    requires Inv(s) && id in s.records
    ensures var t := Apply(digest, s, e).0;
      && id in t.records
      && (t.records[id] == s.records[id]
          || (s.records[id].phase == Issued && t.records[id] == s.records[id].(phase := Consumed, ownership := RuntimeOwned)))
  {
  }

  lemma {:induction false} RunKeepsRecords(digest: string -> string, s: State, events: seq<Event>, id: string)
    requires Inv(s) && id in s.records
    ensures var t := Run(digest, s, events);
      && id in t.records
      && (t.records[id] == s.records[id]
          || (s.records[id].phase == Issued && t.records[id] == s.records[id].(phase := Consumed, ownership := RuntimeOwned)))
    decreases |events|
  {
    if events != [] {
      StepKeeps(digest, s, events[0]);
      StepKeepsRecords(digest, s, events[0], id);
      RunKeepsRecords(digest, Apply(digest, s, events[0]).0, events[1..], id);
    }
  }

  // Who can consume

  /** The record an issuing process leaves behind. */
  predicate IssuedAs(digest: string -> string, s: State, id: string, secret: string, claims: nat, deadline: int) {
    id in s.records && s.records[id] == Record(digest(secret), Issued, Provisional, deadline, claims)
  }

  /** A capability is consumed only before its deadline, with exactly its claims, by a secret with
      the digest of the issued one; so by the issued secret, unless two secrets share a digest. */
  lemma OnlyTheTokenConsumes(digest: string -> string, s0: State, before: seq<Event>, e: Event,
                             id: string, secret: string, claims: nat, deadline: int)
    requires Inv(s0) && IssuedAs(digest, s0, id, secret, claims, deadline)
    requires var s := Run(digest, s0, before);
      Apply(digest, s, e).0.consumptions == s.consumptions + [id]
    ensures e.Store? && e.now < deadline
    ensures var job := PlaceOf(Run(digest, s0, before), e.actor).job;
      && job.Consume? && job.id == id && job.claims == claims
      && (job.secret == secret || (job.secret != secret && digest(job.secret) == digest(secret)))
  {
    var s := Run(digest, s0, before);
    RunKeeps(digest, s0, before);
    RunKeepsRecords(digest, s0, before, id);
    assert |Apply(digest, s, e).0.consumptions| > |s.consumptions|;
    assert e.Store? && PlaceOf(s, e.actor).Loaded?;
    assert (s.consumptions + [id])[|s.consumptions|] == id;
  }

  lemma RunTwo(digest: string -> string, s: State, e: Event, f: Event)
    ensures Run(digest, s, [e, f]) == Apply(digest, Apply(digest, s, e).0, f).0
  {
    var t := Apply(digest, s, e).0;
    assert [e, f][1..] == [f] && [f][1..] == [];
    assert Run(digest, t, [f]) == Run(digest, Apply(digest, t, f).0, []);
  }

  lemma RunThree(digest: string -> string, s: State, e: Event, f: Event, g: Event)
    ensures Run(digest, s, [e, f, g]) == Apply(digest, Apply(digest, Apply(digest, s, e).0, f).0, g).0
  {
    assert [e, f, g][1..] == [f, g];
    RunTwo(digest, Apply(digest, s, e).0, f, g);
  }

  // What a process that is left alone comes to

  /** The first refusal that a run of events meets. */
  function FirstRefusal(digest: string -> string, s: State, events: seq<Event>): Option<Refusal>
    decreases |events|
  {
    if events == [] then None
    else
      var (t, r) := Apply(digest, s, events[0]);
      if r.Refused? then Some(r.reason) else FirstRefusal(digest, t, events[1..])
  }

  lemma RefusalOfThree(digest: string -> string, s: State, e: Event, f: Event, g: Event)
    ensures var (t, r) := Apply(digest, s, e);
      var (u, q) := Apply(digest, t, f);
      var (v, p) := Apply(digest, u, g);
      FirstRefusal(digest, s, [e, f, g]) ==
        if r.Refused? then Some(r.reason) else if q.Refused? then Some(q.reason)
        else if p.Refused? then Some(p.reason) else None
  {
    var t := Apply(digest, s, e).0;
    var u := Apply(digest, t, f).0;
    assert [e, f, g][1..] == [f, g] && [f, g][1..] == [g] && [g][1..] == [];
    assert FirstRefusal(digest, Apply(digest, u, g).0, []) == None;
    assert FirstRefusal(digest, u, [g]) == if Apply(digest, u, g).1.Refused? then Some(Apply(digest, u, g).1.reason) else None;
  }

  /** The three steps of a consumption. */
  function Consumption(a: Actor, token: string, claims: nat, now: int): seq<Event> {
    [BeginConsume(a, token, claims), Load(a), Store(a, now)]
  }

  /** A token of the right shape: a known alphabet, and the lengths of its two parts. */
  predicate Shaped(id: string, secret: string) {
    |id| == 32 && |secret| == 64 && LowerHex(id) && HexOrDot(secret)
  }

  /** A token that is not two parts of the right shape is refused before anything else. */
  lemma MisshapenIsRefused(digest: string -> string, s: State, a: Actor, token: string, claims: nat, now: int)
    requires PlaceOf(s, a) == Idle && forall id, secret :: token == Token(id, secret) ==> !Shaped(id, secret)
    ensures FirstRefusal(digest, s, Consumption(a, token, claims, now)) == Some(Malformed)
    ensures Run(digest, s, Consumption(a, token, claims, now)) == s
  {
    if ParseCapability(token).Some? {
      ParseExactly(token, ParseCapability(token).value.0, ParseCapability(token).value.1);
      assert false;
    }
    RunThree(digest, s, BeginConsume(a, token, claims), Load(a), Store(a, now));
  }

  /** A token of the right shape meets the lease, then its record, its secret, what became of it, its
      deadline and its claims, in this order; the first of them that is not as it should be refuses it,
      and it is consumed exactly when all of them are. */
  lemma ConsumedExactly(digest: string -> string, s: State, a: Actor, id: string, secret: string, claims: nat, now: int)
    requires Inv(s) && PlaceOf(s, a) == Idle && Shaped(id, secret)
    ensures FirstRefusal(digest, s, Consumption(a, Token(id, secret), claims, now)) ==
      if s.lease.Some? then Some(LeaseBusy)
      else if id !in s.records then Some(CapabilityUnknown)
      else if s.records[id].verifier != digest(secret) then Some(VerifierMismatch)
      else if s.records[id].phase == Consumed then Some(NotIssued)
      else if now >= s.records[id].deadline then Some(Expired)
      else if s.records[id].claims != claims then Some(ClaimMismatch)
      else None
  {
    ParseExactly(Token(id, secret), id, secret);
    RefusalOfThree(digest, s, BeginConsume(a, Token(id, secret), claims), Load(a), Store(a, now));
  }

  /** Consumption keeps the lease and moves the record on; a refusal leaves records, consumptions and
      lease as they were. */
  lemma AloneConsumes(digest: string -> string, s: State, a: Actor, id: string, secret: string, claims: nat, now: int)
    requires Inv(s) && PlaceOf(s, a) == Idle && Shaped(id, secret)
    ensures var t := Run(digest, s, Consumption(a, Token(id, secret), claims, now));
      if FirstRefusal(digest, s, Consumption(a, Token(id, secret), claims, now)).None?
      then
        && id in s.records && s.records[id] == Record(digest(secret), Issued, Provisional, s.records[id].deadline, claims)
        && now < s.records[id].deadline
        && t.records == s.records[id := s.records[id].(phase := Consumed, ownership := RuntimeOwned)]
        && t.consumptions == s.consumptions + [id] && t.lease == Some(a) && PlaceOf(t, a) == Launching(id)
      else t.records == s.records && t.consumptions == s.consumptions && t.lease == s.lease && PlaceOf(t, a) == Idle
  {
    ConsumedExactly(digest, s, a, id, secret, claims, now);
    ParseExactly(Token(id, secret), id, secret);
    RunThree(digest, s, BeginConsume(a, Token(id, secret), claims), Load(a), Store(a, now));
  }

  /** The default lifetime of a capability, in nanoseconds. */
  const CAPABILITY_TTL_NS: int := 5_000_000_000

  /** What was issued is consumed by its token and its claims up to its deadline, which by default comes
      five seconds after the issue, and is expired from then on. */
  lemma IssuedIsConsumed(digest: string -> string, s: State, a: Actor, b: Actor, id: string, secret: string, claims: nat,
                         issued: int, now: int)
    requires Inv(s) && s.lease.None? && id !in s.records && Shaped(id, secret)
    ensures var t := Run(digest, s, [BeginIssue(a, id, secret, claims, issued + CAPABILITY_TTL_NS), Store(a, issued)]);
      && Inv(t) && t.lease.None? && IssuedAs(digest, t, id, secret, claims, issued + CAPABILITY_TTL_NS)
      && FirstRefusal(digest, t, Consumption(b, Token(id, secret), claims, now))
         == if now < issued + 5_000_000_000 then None else Some(Expired)
  {
    var begin, store := BeginIssue(a, id, secret, claims, issued + CAPABILITY_TTL_NS), Store(a, issued);
    RunTwo(digest, s, begin, store);
    RunKeeps(digest, s, [begin, store]);
    var t := Run(digest, s, [begin, store]);
    ConsumedExactly(digest, t, b, id, secret, claims, now);
  }

  // The operations

  class Host {
    const digest: string -> string
    var records: map<string, Record>
    var lease: Option<Actor>
    var places: map<Actor, Place>
    ghost var consumptions: seq<string>

    constructor (digest: string -> string)
      ensures this.digest == digest && View() == START
    {
      this.digest, records, lease, places, consumptions := digest, map[], None, map[], [];
    }

    ghost function View(): State
      reads this
    {
      State(records, lease, places, consumptions)
    }

    method Open(a: Actor, job: Job) returns (busy: bool)
      requires PlaceOf(View(), a) == Idle
      modifies this
      ensures View() == OpenLease(old(View()), a, job).0
      ensures busy <==> old(lease).Some?
    {
      busy := lease.Some?;
      if !busy {
        lease, places := Some(a), places[a := Holding(job)];
      }
    }

    method Close(a: Actor)
      modifies this
      ensures View() == CloseLease(old(View()), a)
    {
      places := places[a := Idle];
      if lease == Some(a) {
        lease := None;
      }
    }

    /** Issues a capability under the lease and gives the lease back. */
    method IssueCapability(a: Actor, id: string, secret: string, claims: nat, deadline: int)
      returns (token: Option<string>, failure: Option<Refusal>)
      requires Inv(View()) && PlaceOf(View(), a) == Idle && id !in records
      modifies this
      ensures View() == Run(digest, old(View()), [BeginIssue(a, id, secret, claims, deadline), Store(a, 0)])
      ensures if old(lease).Some? then token.None? && failure == Some(LeaseBusy)
              else failure.None? && token == Some(Token(id, secret)) && IssuedAs(digest, View(), id, secret, claims, deadline)
      ensures Inv(View())
    {
      ghost var s, begin, store := View(), BeginIssue(a, id, secret, claims, deadline), Store(a, 0);
      RunTwo(digest, s, begin, store);
      RunKeeps(digest, s, [begin, store]);
      token, failure := None, None;
      var busy := Open(a, Issue(id, secret, claims, deadline));
      if busy {
        failure := Some(LeaseBusy);
        return;
      }
      records := records[id := Record(digest(secret), Issued, Provisional, deadline, claims)];
      token := Some(Token(id, secret));
      Close(a);
    }

    /** Consumes a capability and keeps the lease, or changes nothing and gives it back. */
    method ConsumeCapability(a: Actor, token: string, claims: nat, now: int) returns (failure: Option<Refusal>)
      requires Inv(View()) && PlaceOf(View(), a) == Idle
      modifies this
      ensures View() == Run(digest, old(View()), Consumption(a, token, claims, now))
      ensures failure == FirstRefusal(digest, old(View()), Consumption(a, token, claims, now))
      ensures failure.Some? ==> records == old(records) && lease == old(lease) && PlaceOf(View(), a) == Idle
      ensures failure.None? ==> old(lease).None? && lease == Some(a) && PlaceOf(View(), a).Launching?
      ensures Inv(View())
    {
      ghost var s, begin, load, store := View(), BeginConsume(a, token, claims), Load(a), Store(a, now);
      RunThree(digest, s, begin, load, store);
      RefusalOfThree(digest, s, begin, load, store);
      RunKeeps(digest, s, [begin, load, store]);
      var parsed := ParseCapability(token);
      if parsed.None? {
        return Some(Malformed);
      }
      var id, secret := parsed.value.0, parsed.value.1;
      var job := Consume(id, secret, claims);
      var busy := Open(a, job);
      if busy {
        return Some(LeaseBusy);
      }
      if id !in records {
        Close(a);
        return Some(CapabilityUnknown);
      }
      var record := records[id];
      places := places[a := Loaded(job, record)];
      failure := Objection(digest, record, job, now);
      if failure.Some? {
        Close(a);
        return;
      }
      records := records[id := record.(phase := Consumed, ownership := RuntimeOwned)];
      places, consumptions := places[a := Launching(id)], consumptions + [id];
    }
  }
}
