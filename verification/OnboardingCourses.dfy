/** The two complete courses of an onboarding: from a fresh candidate, in any reachable state, through
    every record its provider needs, to a proven launch whose marker is retired. */
module OnboardingCourses {
  import opened Bytes
  import opened Providers
  import opened Onboarding
  import opened OnboardingSafety
  import opened OnboardingRuns
  import opened OnboardingOutcomes

  /** The step is done, and leads from s to t. */
  predicate Goes(s: Store, e: Event, t: Store) {
    Indexed(s) && Step(s, e) == (t, Done)
  }

  /** Every step of the run is done, and it leads from s to t. */
  ghost predicate Performs(s: Store, events: seq<Event>, t: Store)
    decreases |events|
  {
    if events == [] then s == t else exists u :: Goes(s, events[0], u) && Performs(u, events[1..], t)
  }

  lemma PerformsOne(s: Store, e: Event, t: Store)
    requires Goes(s, e, t)
    ensures Performs(s, [e], t)
  {
    assert [e][1..] == [] && Performs(t, [], t);
  }

  lemma {:induction false} PerformsNext(s: Store, events: seq<Event>, t: Store, e: Event, u: Store)
    requires Performs(s, events, t) && Goes(t, e, u)
    ensures Performs(s, events + [e], u)
    decreases |events|
  {
    var all := events + [e];
    if events == [] {
      assert all[0] == e && all[1..] == [];
      assert Performs(u, [], u);
    } else {
      var v :| Goes(s, events[0], v) && Performs(v, events[1..], t);
      PerformsNext(v, events[1..], t, e, u);
      assert all[0] == events[0] && all[1..] == events[1..] + [e];
    }
  }

  /** One onboarding: its candidate, the context its calls are made in, and what is drawn for it. */
  datatype Plan = Plan(slot: Slot, c: Context, id: nat, token: nat, now: int, expiry: int, later: int)

  /** The candidate is fresh, its context is live and its own, and its capability is consumed in time. */
  predicate Feasible(s: Store, p: Plan) {
    && Fresh(s, p.c.dir, p.slot) && p.c.binding == p.slot.presentation && p.c.lease == p.slot.lease
    && p.c.shellLive && p.c.managed && p.c.inWorktree
    && p.id !in s.ops && 0 <= p.now < p.expiry <= p.now + 60_000 && 0 <= p.later < p.expiry
  }

  function RequestOf(p: Plan): Request {
    Request(p.c.binding, p.slot.generation, p.slot.runtime, p.c.provider, p.c.lease, p.c.details)
  }

  function OwnOf(p: Plan, revision: nat): Ownership {
    Ownership(p.id, p.slot.runtime, revision)
  }

  /** Everything that is not this onboarding's is as it was. */
  predicate Elsewhere(s: Store, t: Store, p: Plan) {
    && t.ops - {p.id} == s.ops && t.markers - {p.c.dir} == s.markers
    && t.runtimes - {p.slot.runtime} == s.runtimes && t.targets - {p.id} == s.targets
    && t.keys == s.keys[KeyOf(RequestOf(p)) := p.id]
  }

  /** The operation is owned and at this point of its course, with this as the latest word on it. */
  predicate Reaching(s: Store, t: Store, p: Plan, phase: Phase, own: Ownership) {
    && Elsewhere(s, t, p) && OwnedBy(t, p.c.dir, SlotOwned, p.id) && Backed(t, p.c, own) && own.op == p.id
    && t.ops[p.id].phase == phase && t.ops[p.id].request == RequestOf(p)
    && if phase == RuntimeOwnedLaunching then p.id !in t.targets else p.id in t.targets && t.targets[p.id] == p.c.provider
  }

  /** ... and the fence for it is held. */
  predicate Underway(s: Store, t: Store, p: Plan, phase: Phase, f: Fence) {
    Inv(t) && Reaching(s, t, p, phase, f.own) && f in t.fences
  }

  lemma HoldingReaches(s: Store, t: Store, p: Plan, phase: Phase, f: Fence)
    requires Reaching(s, t, p, phase, f.own) && Inv(Hold(t, f))
    ensures Underway(s, Hold(t, f), p, phase, f)
  {
  }

  lemma WithoutUpdated<K, V>(m: map<K, V>, k: K, v: V)
    ensures m[k := v] - {k} == m - {k}
    ensures k !in m ==> m - {k} == m
  {
  }

  predicate Row(t: Store, p: Plan, row: RuntimeRow) {
    p.slot.runtime in t.runtimes && t.runtimes[p.slot.runtime] == row
  }

  /** The marker of the fresh candidate is there, and nothing else. */
  predicate MadeAt(s: Store, t: Store, p: Plan) {
    && Inv(t) && t == s.(markers := t.markers) && t.markers - {p.c.dir} == s.markers
    && Faces(t, p.c, Materialized) && Requested(t, p.c) == RequestOf(p)
    && p.id !in t.ops && p.slot.runtime !in t.runtimes && KeyOf(RequestOf(p)) !in t.keys
  }

  lemma Makes(s: Store, p: Plan) returns (u: Store)
    requires Inv(s) && Feasible(s, p)
    ensures DoMaterialize(s, p.c.dir, p.slot, Finish) == (u, Done)
    ensures MadeAt(s, u, p)
  {
    u := DoMaterialize(s, p.c.dir, p.slot, Finish).0;
    MaterializedExactly(s, p.c.dir, p.slot);
    MaterializeKeeps(s, p.c.dir, p.slot, Finish);
  }

  /** The marker hands out the operation, with its token and its lifetime. */
  predicate OfferedAt(s: Store, t: Store, p: Plan) {
    && Inv(t) && Elsewhere(s, t, p) && p.id !in t.targets
    && Offers(t, p.c, p.id) && Requested(t, p.c) == RequestOf(p)
    && t.ops[p.id].token == p.token && t.ops[p.id].expiry == p.expiry && t.ops[p.id].revision == 2
  }

  lemma Issues(s: Store, t: Store, p: Plan) returns (u: Store)
    requires Inv(s) && Feasible(s, p) && MadeAt(s, t, p)
    ensures DoPrepare(t, p.c, p.id, p.token, p.now, p.expiry, Finish) == (u, Done)
    ensures OfferedAt(s, u, p)
  {
    u := DoPrepare(t, p.c, p.id, p.token, p.now, p.expiry, Finish).0;
    PreparedExactly(t, p.c, p.id, p.token, p.now, p.expiry);
    PrepareKeeps(t, p.c, p.id, p.token, p.now, p.expiry, Finish);
    WithoutUpdated(t.ops, p.id, u.ops[p.id]);
    WithoutUpdated(t.markers, p.c.dir, u.markers[p.c.dir]);
    WithoutUpdated(t.runtimes, p.slot.runtime, u.runtimes[p.slot.runtime]);
    assert p.id !in s.targets;
  }

  lemma Transfers(s: Store, t: Store, p: Plan) returns (u: Store)
    requires OfferedAt(s, t, p) && Feasible(s, p)
    ensures DoConsume(t, p.c, p.token, p.later, Finish) == (u, Done)
    ensures Underway(s, u, p, RuntimeOwnedLaunching, OwnedFence(OwnOf(p, 3)))
  {
    u := DoConsume(t, p.c, p.token, p.later, Finish).0;
    ConsumedExactly(t, p.c, p.token, p.later, p.id);
    ConsumeKeeps(t, p.c, p.token, p.later, Finish);
    WithoutUpdated(t.ops, p.id, u.ops[p.id]);
    WithoutUpdated(t.markers, p.c.dir, u.markers[p.c.dir]);
  }

  /** One advance of an operation under way. */
  lemma Advances(s: Store, t: Store, p: Plan, phase: Phase, f: Fence, a: Advance)
    requires Underway(s, t, p, phase, f) && Open(t, p.id, a) && a != ToRecovery && a != ToKnownAbsent
    ensures var (u, o, next) := DoAdvance(t, p.c, f.own, a, Finish);
      && o == Done && next == Some(f.own.(revision := f.own.revision + 1)) && Reaching(s, u, p, Next(a).0, next.value)
      && u.runtimes == t.runtimes
  {
    AdvancedExactly(t, p.c, f.own, a);
  }

  lemma PreparesProvider(s: Store, t: Store, p: Plan) returns (u: Store)
    requires Underway(s, t, p, RuntimeOwnedLaunching, OwnedFence(OwnOf(p, 3)))
    ensures DoRecordPreparation(t, p.c, OwnOf(p, 3), Finish) == (u, Done)
    ensures Underway(s, u, p, ProviderPreparation, PreparationFence(OwnOf(p, 4), p.c.provider))
  {
    u := DoRecordPreparation(t, p.c, OwnOf(p, 3), Finish).0;
    Advances(s, t, p, RuntimeOwnedLaunching, OwnedFence(OwnOf(p, 3)), ToPreparation);
    RecordPreparationKeeps(t, p.c, OwnOf(p, 3), Finish);
    var moved := DoAdvance(t, p.c, OwnOf(p, 3), ToPreparation, Finish).0;
    HoldingReaches(s, moved, p, ProviderPreparation, PreparationFence(OwnOf(p, 4), p.c.provider));
  }

  lemma StartsCodex(s: Store, t: Store, p: Plan) returns (u: Store)
    requires Underway(s, t, p, ProviderPreparation, PreparationFence(OwnOf(p, 4), Codex)) && p.c.provider == Codex
    ensures DoRecordCodexExecStarted(t, p.c, OwnOf(p, 4), Codex, Finish) == (u, Done)
    ensures Underway(s, u, p, ProviderExecStarted, ExecFence(OwnOf(p, 5), Codex))
  {
    u := DoRecordCodexExecStarted(t, p.c, OwnOf(p, 4), Codex, Finish).0;
    Advances(s, t, p, ProviderPreparation, PreparationFence(OwnOf(p, 4), Codex), ToExecStarted);
    RecordCodexExecStartedKeeps(t, p.c, OwnOf(p, 4), Codex, Finish);
    var moved := DoAdvance(t, p.c, OwnOf(p, 4), ToExecStarted, Finish).0;
    HoldingReaches(s, moved, p, ProviderExecStarted, ExecFence(OwnOf(p, 5), Codex));
  }

  lemma StartsEffect(s: Store, t: Store, p: Plan) returns (u: Store)
    requires Underway(s, t, p, ProviderPreparation, PreparationFence(OwnOf(p, 4), OpenCode)) && p.c.provider == OpenCode
    ensures DoRecordEffect(t, p.c, OwnOf(p, 4), OpenCode, Finish) == (u, Done)
    ensures Underway(s, u, p, ExternalEffectStarted, EffectFence(OwnOf(p, 5)))
    ensures u.runtimes == t.runtimes
  {
    u := DoRecordEffect(t, p.c, OwnOf(p, 4), OpenCode, Finish).0;
    Advances(s, t, p, ProviderPreparation, PreparationFence(OwnOf(p, 4), OpenCode), ToEffect);
    RecordEffectKeeps(t, p.c, OwnOf(p, 4), OpenCode, Finish);
    var moved := DoAdvance(t, p.c, OwnOf(p, 4), ToEffect, Finish).0;
    HoldingReaches(s, moved, p, ExternalEffectStarted, EffectFence(OwnOf(p, 5)));
  }

  lemma StartsOpencode(s: Store, t: Store, p: Plan, session: nat) returns (u: Store)
    requires Underway(s, t, p, ExternalEffectStarted, HandleFence(OwnOf(p, 5), session)) && p.c.provider == OpenCode
    ensures DoRecordOpencodeExecStarted(t, p.c, OwnOf(p, 5), session, Finish) == (u, Done)
    ensures Underway(s, u, p, ProviderExecStarted, ExecFence(OwnOf(p, 6), OpenCode))
  {
    u := DoRecordOpencodeExecStarted(t, p.c, OwnOf(p, 5), session, Finish).0;
    Advances(s, t, p, ExternalEffectStarted, HandleFence(OwnOf(p, 5), session), ToExecStarted);
    RecordOpencodeExecStartedKeeps(t, p.c, OwnOf(p, 5), session, Finish);
    var moved := DoAdvance(t, p.c, OwnOf(p, 5), ToExecStarted, Finish).0;
    HoldingReaches(s, moved, p, ProviderExecStarted, ExecFence(OwnOf(p, 6), OpenCode));
  }

  /** Before the effect, the Runtime has no session. */
  lemma NoSessionYet(s: Store, t: Store, p: Plan, f: Fence)
    requires Underway(s, t, p, ProviderPreparation, f)
    ensures Row(t, p, RuntimeRow(p.c.provider, None, None))
  {
    assert OpOk(t, p.id);
  }

  /** What noting a session or an observer leaves as it was. */
  lemma RecordedReaches(s: Store, t: Store, p: Plan, phase: Phase, own: Ownership, row: RuntimeRow, mark: Mark, f: Fence)
    requires Reaching(s, t, p, phase, own) && own.runtime == p.slot.runtime && f.own == own && p.slot.runtime !in s.runtimes
    requires Inv(Recorded(t, own, row, mark, f))
    ensures Underway(s, Recorded(t, own, row, mark, f), p, phase, f)
  {
    var u := Recorded(t, own, row, mark, f);
    WithoutUpdated(t.ops, p.id, u.ops[p.id]);
    WithoutUpdated(t.runtimes, p.slot.runtime, row);
  }

  /** The session that the effect returned is bound to a Runtime that has none. */
  lemma BindsSession(s: Store, t: Store, p: Plan, session: nat) returns (u: Store)
    requires Underway(s, t, p, ExternalEffectStarted, EffectFence(OwnOf(p, 5))) && p.c.provider == OpenCode
    requires Row(t, p, RuntimeRow(OpenCode, None, None))
    ensures DoRecordSession(t, p.c, OwnOf(p, 5), session, Finish) == (u, Done)
    ensures Underway(s, u, p, ExternalEffectStarted, SessionFence(OwnOf(p, 5), session))
    ensures Row(u, p, RuntimeRow(OpenCode, Some(session), None))
  {
    u := DoRecordSession(t, p.c, OwnOf(p, 5), session, Finish).0;
    var own := OwnOf(p, 5);
    SessionRecordedExactly(t, p.c, own, session);
    RecordSessionKeeps(t, p.c, own, session, Finish);
    RecordedReaches(s, t, p, ExternalEffectStarted, own, RuntimeRow(OpenCode, Some(session), None), SessionBound,
                    SessionFence(own, session));
  }

  /** The observer of the bound session is recorded. */
  lemma RecordsHandle(s: Store, t: Store, p: Plan, session: nat, port: nat, version: string) returns (u: Store)
    requires Underway(s, t, p, ExternalEffectStarted, SessionFence(OwnOf(p, 5), session)) && p.c.provider == OpenCode
    requires Row(t, p, RuntimeRow(OpenCode, Some(session), None))
    requires port > 0
    ensures DoRecordHandle(t, p.c, OwnOf(p, 5), session, port, version, Finish) == (u, Done)
    ensures Underway(s, u, p, ExternalEffectStarted, HandleFence(OwnOf(p, 5), session))
    ensures Row(u, p, RuntimeRow(OpenCode, Some(session), Some(Observer(port, version, session))))
  {
    u := DoRecordHandle(t, p.c, OwnOf(p, 5), session, port, version, Finish).0;
    var own, observer := OwnOf(p, 5), Observer(port, version, session);
    HandleRecordedExactly(t, p.c, own, session, port, version);
    RecordHandleKeeps(t, p.c, own, session, port, version, Finish);
    RecordedReaches(s, t, p, ExternalEffectStarted, own, RuntimeRow(OpenCode, Some(session), Some(observer)),
                    HandleRecorded, HandleFence(own, session));
  }

  /** The launch is proven, and only its marker is left to retire. */
  predicate ProvenAt(s: Store, t: Store, p: Plan) {
    && Inv(t) && Elsewhere(s, t, p) && OwnedBy(t, p.c.dir, SlotProven, p.id) && p.c.dir !in s.markers
    && p.id in t.ops && t.ops[p.id].phase == ProviderExecProven && t.ops[p.id].request == RequestOf(p)
  }

  lemma Proves(s: Store, t: Store, p: Plan, f: Fence) returns (u: Store)
    requires Underway(s, t, p, ProviderExecStarted, f)
    ensures DoProve(t, p.c.dir, true, true, Finish) == (u, Done)
    ensures ProvenAt(s, u, p)
  {
    u := DoProve(t, p.c.dir, true, true, Finish).0;
    ProvenExactly(t, p.c.dir, true, true, p.id);
    ProveKeeps(t, p.c.dir, true, true, Finish);
  }

  /** The end of a course: the launch is proven, its marker is gone, and nothing else has changed. */
  predicate Completed(s: Store, t: Store, p: Plan) {
    && Inv(t) && Elsewhere(s, t, p) && t.markers == s.markers
    && p.id in t.ops && t.ops[p.id].phase == ProviderExecProven && t.ops[p.id].request == RequestOf(p)
  }

  lemma Retires(s: Store, t: Store, p: Plan) returns (u: Store)
    requires ProvenAt(s, t, p)
    ensures DoRetire(t, p.c.dir, Finish) == (u, Done)
    ensures Completed(s, u, p)
  {
    u := DoRetire(t, p.c.dir, Finish).0;
    RetiredExactly(t, p.c.dir);
    RemoveKeeps(t, p.c.dir, Finish);
  }

  // The courses

  lemma CompletedTrail(s: Store, t: Store, p: Plan)
    requires Completed(s, t, p)
    ensures t.ops[p.id].trail == (if p.c.provider == Codex then CODEX_START else OPENCODE_START) + [ExecProven]
  {
    assert OpOk(t, p.id);
  }

  lemma {:induction false} PerformsThen(s: Store, a: seq<Event>, t: Store, b: seq<Event>, u: Store)
    requires Performs(s, a, t) && Performs(t, b, u)
    ensures Performs(s, a + b, u)
    decreases |a|
  {
    if a == [] {
      assert a + b == b;
    } else {
      var v :| Goes(s, a[0], v) && Performs(v, a[1..], t);
      PerformsThen(v, a[1..], t, b, u);
      assert (a + b)[0] == a[0] && (a + b)[1..] == a[1..] + b;
    }
  }

  /** Materialize, issue, consume, prepare. */
  function Beginning(p: Plan): seq<Event> {
    [Materialize(p.c.dir, p.slot, Finish)] + [Prepare(p.c, p.id, p.token, p.now, p.expiry, Finish)]
    + [Consume(p.c, p.token, p.later, Finish)] + [RecordPreparation(p.c, OwnOf(p, 3), Finish)]
  }

  function EffectRecords(p: Plan, session: nat, port: nat, version: string): seq<Event> {
    [RecordEffect(p.c, OwnOf(p, 4), OpenCode, Finish)] + [RecordSession(p.c, OwnOf(p, 5), session, Finish)]
    + [RecordHandle(p.c, OwnOf(p, 5), session, port, version, Finish)]
  }

  function Closing(p: Plan): seq<Event> {
    [Prove(p.c.dir, true, true, Finish)] + [Retire(p.c.dir, Finish)]
  }

  lemma AllIndexed(s: Store, t: Store, p: Plan)
    ensures Inv(t) ==> Indexed(t)
    ensures forall phase, f :: Underway(s, t, p, phase, f) ==> Indexed(t)
    ensures MadeAt(s, t, p) || OfferedAt(s, t, p) || ProvenAt(s, t, p) ==> Indexed(t)
  {
  }

  /** A step that is done goes on. */
  lemma DoneGoes(t: Store, e: Event, u: Store)
    requires Indexed(t)
    requires match e
      case Materialize(dir, slot, stop) => DoMaterialize(t, dir, slot, stop) == (u, Done)
      case Prepare(c, id, token, now, expiry, stop) => DoPrepare(t, c, id, token, now, expiry, stop) == (u, Done)
      case Consume(c, token, now, stop) => DoConsume(t, c, token, now, stop) == (u, Done)
      case RecordPreparation(c, own, stop) => DoRecordPreparation(t, c, own, stop) == (u, Done)
      case RecordEffect(c, own, provider, stop) => DoRecordEffect(t, c, own, provider, stop) == (u, Done)
      case RecordSession(c, own, session, stop) => DoRecordSession(t, c, own, session, stop) == (u, Done)
      case RecordHandle(c, own, session, port, version, stop) =>
        DoRecordHandle(t, c, own, session, port, version, stop) == (u, Done)
      case RecordCodexExecStarted(c, own, provider, stop) => DoRecordCodexExecStarted(t, c, own, provider, stop) == (u, Done)
      case RecordOpencodeExecStarted(c, own, session, stop) =>
        DoRecordOpencodeExecStarted(t, c, own, session, stop) == (u, Done)
      case Prove(dir, seen, observerReady, stop) => DoProve(t, dir, seen, observerReady, stop) == (u, Done)
      case Retire(dir, stop) => DoRetire(t, dir, stop) == (u, Done)
      case _ => false
    ensures Goes(t, e, u)
  {
  }

  lemma Begins(s: Store, p: Plan) returns (t: Store)
    requires Inv(s) && Feasible(s, p)
    ensures Performs(s, Beginning(p), t)
    ensures Underway(s, t, p, ProviderPreparation, PreparationFence(OwnOf(p, 4), p.c.provider))
  {
    var materialize, prepare := Materialize(p.c.dir, p.slot, Finish), Prepare(p.c, p.id, p.token, p.now, p.expiry, Finish);
    var consume, record := Consume(p.c, p.token, p.later, Finish), RecordPreparation(p.c, OwnOf(p, 3), Finish);
    var made := Makes(s, p);
    var offered := Issues(s, made, p);
    var owned := Transfers(s, offered, p);
    t := PreparesProvider(s, owned, p);
    AllIndexed(s, s, p);
    AllIndexed(s, made, p);
    AllIndexed(s, offered, p);
    AllIndexed(s, owned, p);
    DoneGoes(s, materialize, made);
    DoneGoes(made, prepare, offered);
    DoneGoes(offered, consume, owned);
    DoneGoes(owned, record, t);
    PerformsOne(s, materialize, made);
    PerformsNext(s, [materialize], made, prepare, offered);
    PerformsNext(s, [materialize] + [prepare], offered, consume, owned);
    PerformsNext(s, [materialize] + [prepare] + [consume], owned, record, t);
  }

  lemma RecordsEffect(s: Store, t: Store, p: Plan, session: nat, port: nat, version: string) returns (u: Store)
    requires Underway(s, t, p, ProviderPreparation, PreparationFence(OwnOf(p, 4), OpenCode)) && p.c.provider == OpenCode
    requires port > 0
    ensures Performs(t, EffectRecords(p, session, port, version), u)
    ensures Underway(s, u, p, ExternalEffectStarted, HandleFence(OwnOf(p, 5), session))
  {
    var effect, bind := RecordEffect(p.c, OwnOf(p, 4), OpenCode, Finish), RecordSession(p.c, OwnOf(p, 5), session, Finish);
    var handle := RecordHandle(p.c, OwnOf(p, 5), session, port, version, Finish);
    NoSessionYet(s, t, p, PreparationFence(OwnOf(p, 4), OpenCode));
    var started := StartsEffect(s, t, p);
    var bound := BindsSession(s, started, p, session);
    u := RecordsHandle(s, bound, p, session, port, version);
    AllIndexed(s, t, p);
    AllIndexed(s, started, p);
    AllIndexed(s, bound, p);
    DoneGoes(t, effect, started);
    DoneGoes(started, bind, bound);
    DoneGoes(bound, handle, u);
    PerformsOne(t, effect, started);
    PerformsNext(t, [effect], started, bind, bound);
    PerformsNext(t, [effect] + [bind], bound, handle, u);
  }

  /** From a start that is on record to the end. */
  lemma Closes(s: Store, t: Store, p: Plan, f: Fence) returns (u: Store)
    requires Underway(s, t, p, ProviderExecStarted, f)
    ensures Performs(t, Closing(p), u) && Completed(s, u, p)
  {
    var prove, retire := Prove(p.c.dir, true, true, Finish), Retire(p.c.dir, Finish);
    var proven := Proves(s, t, p, f);
    u := Retires(s, proven, p);
    AllIndexed(s, t, p);
    AllIndexed(s, proven, p);
    DoneGoes(t, prove, proven);
    DoneGoes(proven, retire, u);
    PerformsOne(t, prove, proven);
    PerformsNext(t, [prove], proven, retire, u);
  }

  lemma BeginsCodex(s: Store, p: Plan) returns (t: Store)
    requires Inv(s) && Feasible(s, p) && p.c.provider == Codex
    ensures Performs(s, Beginning(p) + [RecordCodexExecStarted(p.c, OwnOf(p, 4), Codex, Finish)], t)
    ensures Underway(s, t, p, ProviderExecStarted, ExecFence(OwnOf(p, 5), Codex))
  {
    var prepared := Begins(s, p);
    t := StartsCodex(s, prepared, p);
    AllIndexed(s, prepared, p);
    DoneGoes(prepared, RecordCodexExecStarted(p.c, OwnOf(p, 4), Codex, Finish), t);
    PerformsNext(s, Beginning(p), prepared, RecordCodexExecStarted(p.c, OwnOf(p, 4), Codex, Finish), t);
  }

  /** In every reachable state, a fresh Codex candidate whose calls are made one after the other in a live
      context comes to be proven and retired, with no effect on record; everything else in both stores
      is as it was. */
  lemma CodexCompletes(s: Store, p: Plan) returns (t: Store)
    requires Inv(s) && Feasible(s, p) && p.c.provider == Codex
    ensures Performs(s, Beginning(p) + [RecordCodexExecStarted(p.c, OwnOf(p, 4), Codex, Finish)] + Closing(p), t)
    ensures Completed(s, t, p) && t.ops[p.id].trail == [Reserved, Owned, Prepared, ExecStarted, ExecProven]
  {
    var started := BeginsCodex(s, p);
    t := Closes(s, started, p, ExecFence(OwnOf(p, 5), Codex));
    PerformsThen(s, Beginning(p) + [RecordCodexExecStarted(p.c, OwnOf(p, 4), Codex, Finish)], started, Closing(p), t);
    CompletedTrail(s, t, p);
  }

  lemma BeginsOpencode(s: Store, p: Plan, session: nat, port: nat, version: string) returns (t: Store)
    requires Inv(s) && Feasible(s, p) && p.c.provider == OpenCode && port > 0
    ensures Performs(s, Beginning(p) + EffectRecords(p, session, port, version)
                        + [RecordOpencodeExecStarted(p.c, OwnOf(p, 5), session, Finish)], t)
    ensures Underway(s, t, p, ProviderExecStarted, ExecFence(OwnOf(p, 6), OpenCode))
  {
    var prepared := Begins(s, p);
    var recorded := RecordsEffect(s, prepared, p, session, port, version);
    PerformsThen(s, Beginning(p), prepared, EffectRecords(p, session, port, version), recorded);
    t := StartsOpencode(s, recorded, p, session);
    AllIndexed(s, recorded, p);
    DoneGoes(recorded, RecordOpencodeExecStarted(p.c, OwnOf(p, 5), session, Finish), t);
    PerformsNext(s, Beginning(p) + EffectRecords(p, session, port, version), recorded,
                 RecordOpencodeExecStarted(p.c, OwnOf(p, 5), session, Finish), t);
  }

  /** Likewise for OpenCode, with its effect, the session it returned and the observer of that session
      on record before the start. */
  lemma OpencodeCompletes(s: Store, p: Plan, session: nat, port: nat, version: string) returns (t: Store)
    requires Inv(s) && Feasible(s, p) && p.c.provider == OpenCode && port > 0
    ensures Performs(s, Beginning(p) + EffectRecords(p, session, port, version)
                        + [RecordOpencodeExecStarted(p.c, OwnOf(p, 5), session, Finish)] + Closing(p), t)
    ensures Completed(s, t, p)
    ensures t.ops[p.id].trail ==
      [Reserved, Owned, Prepared, EffectStarted, SessionBound, HandleRecorded, ExecStarted, ExecProven]
  {
    var started := BeginsOpencode(s, p, session, port, version);
    t := Closes(s, started, p, ExecFence(OwnOf(p, 6), OpenCode));
    PerformsThen(s, Beginning(p) + EffectRecords(p, session, port, version)
                    + [RecordOpencodeExecStarted(p.c, OwnOf(p, 5), session, Finish)], started, Closing(p), t);
    CompletedTrail(s, t, p);
  }
}
