/** The broker and helper calls themselves (src/onboarding_broker.rs, src/onboarding_helper.rs). Each
    runs under the provisional lease and updates the two stores in place; each is one of the steps
    whose runs OnboardingRuns is about, keeps their invariant, changes nothing when it is refused, and
    says what stands when it is done. */
module Broker {
  import opened Bytes
  import opened Providers
  import opened Onboarding
  import opened OnboardingSafety
  import opened OnboardingRuns

  // What stands after a call that is done

  /** The invariant of every run holds, and a refused call changed nothing. */
  ghost predicate Kept(s: Store, t: Store, o: Outcome) {
    Inv(t) && (o.Refused? ==> t == s)
  }

  /** The marker of the context's directory carries the operation's identity, and the operation is in
      this phase with this record. */
  predicate Stands(s: Store, c: Context, id: nat, slotPhases: set<SlotPhase>, phase: Phase, trail: seq<Mark>) {
    && c.dir in s.markers && s.markers[c.dir].Whole? && id in s.ops
    && var slot, op := s.markers[c.dir].slot, s.ops[id];
       && slot.presentation == c.binding && slot.lease == c.lease && slot.phase in slotPhases
       && SameIdentity(op.request, slot) && op.request.provider == c.provider && op.request.lease == c.lease
       && op.phase == phase && op.trail == trail
  }

  /** The one reservation of a fresh candidate, handed out by its marker. */
  predicate Issued(s: Store, c: Context, id: nat, token: nat, expiry: int) {
    && Stands(s, c, id, {HandoffIssued}, CapabilityIssued, [Reserved])
    && s.markers[c.dir].slot.handoff == Some(id) && s.ops[id].token == token && s.ops[id].expiry == expiry
  }

  /** The fence is held and is the latest word on its operation. */
  predicate Holds(s: Store, f: Fence) {
    f in s.fences && f.own.op in s.ops && f.own == OwnershipOf(s, f.own.op)
  }

  const ANY_LIVE: set<SlotPhase> := {Materialized, HandoffIssued, SlotOwned}

  /** A rebuilt request is the marker's own: its presentation, generation and Runtime, under the lease
      of both, for a live shell with a managed command in a worktree. */
  lemma RequestIsTheMarkers(s: Store, c: Context)
    ensures RequestFromContext(s, c).Ok? <==>
      && c.dir in s.markers && s.markers[c.dir].Whole?
      && var slot := s.markers[c.dir].slot;
         slot.presentation == c.binding && slot.lease == c.lease && slot.phase in ANY_LIVE
         && c.shellLive && c.managed && c.inWorktree
    ensures RequestFromContext(s, c).Ok? ==>
      var (slot, r) := RequestFromContext(s, c).value;
      && s.markers[c.dir] == Whole(slot) && SameIdentity(r, slot) && r.lease == slot.lease
      && KeyOf(r) == Key(c.binding.id, slot.generation) && r.provider == c.provider && r.details == c.details
  {
  }

  /** After a reservation, a rebuilt request is the reserved one exactly when the provider and every other
      piece of evidence are what they were. */
  lemma RebuiltRequestBinds(s: Store, c: Context, id: nat, token: nat, expiry: int, again: Context)
    requires Issued(s, c, id, token, expiry) && again.dir == c.dir && RequestFromContext(s, again).Ok?
    ensures RequestFromContext(s, again).value.1 == s.ops[id].request
       <==> again.provider == c.provider && again.details == s.ops[id].request.details
  {
  }

  lemma PrepareIssues(s: Store, c: Context, id: nat, token: nat, now: int, expiry: int, stop: Stop)
    requires Inv(s) && DoPrepare(s, c, id, token, now, expiry, stop).1 == Done
    ensures Issued(DoPrepare(s, c, id, token, now, expiry, stop).0, c, id, token, expiry)
    ensures id !in s.ops && LifetimeAllowed(now, expiry)
  {
  }

  /** The capability is consumed: the marker, the journal and the fence speak of one ownership. */
  predicate Transferred(s: Store, c: Context, own: Ownership) {
    && Stands(s, c, own.op, {SlotOwned}, RuntimeOwnedLaunching, [Reserved, Owned])
    && s.markers[c.dir].slot.handoff == Some(own.op) && Holds(s, OwnedFence(own))
  }

  lemma ConsumedRecord(s: Store, r: Request, token: nat, now: int)
    requires Inv(s) && ConsumeCapability(s, r, token, now).Ok?
    ensures var (id, t) := ConsumeCapability(s, r, token, now).value;
      && id in s.ops && s.ops[id].token == token && 0 <= now < s.ops[id].expiry
      && t.ops[id].request == r && t.ops[id].phase == RuntimeOwnedLaunching && t.ops[id].trail == [Reserved, Owned]
      && t.markers == s.markers
  {
    assert OpOk(s, s.keys[KeyOf(r)]);
  }

  lemma ConsumeTransfers(s: Store, c: Context, token: nat, now: int, stop: Stop)
    requires Inv(s) && DoConsume(s, c, token, now, stop).1 == Done
    ensures var t := DoConsume(s, c, token, now, stop).0;
      && c.dir in t.markers && t.markers[c.dir].Whole? && t.markers[c.dir].slot.handoff.Some?
      && var id := t.markers[c.dir].slot.handoff.value;
         && id in t.ops && Transferred(t, c, OwnershipOf(t, id))
         && id in s.ops && s.ops[id].token == token && 0 <= now < s.ops[id].expiry
  {
    var r := RequestFromContext(s, c).value.1;
    ConsumedRecord(s, r, token, now);
  }

  /** The operation a fence is about moved on by one advance, under the marker of the context. */
  predicate MovedOn(s: Store, t: Store, c: Context, own: Ownership, a: Advance) {
    && own.op in s.ops && own.op in t.ops && t.ops[own.op] == Advanced(s.ops[own.op], a)
    && own == OwnershipOf(s, own.op) && Permits(s.ops[own.op].phase, Next(a).0)
    && Stands(t, c, own.op, ANY_LIVE, Next(a).0, s.ops[own.op].trail + [Next(a).1])
  }

  function Later(own: Ownership): Ownership {
    own.(revision := own.revision + 1)
  }

  lemma AdvanceMovesOn(s: Store, c: Context, own: Ownership, a: Advance, stop: Stop)
    requires DoAdvance(s, c, own, a, stop).1 == Done
    ensures MovedOn(s, DoAdvance(s, c, own, a, stop).0, c, own, a)
    ensures DoAdvance(s, c, own, a, stop).2 == Some(Later(own))
  {
  }

  /** What the record of an operation is on its way to a start. */
  predicate OnItsWay(op: Operation) {
    match op.phase
    case RuntimeOwnedLaunching => op.trail == [Reserved, Owned]
    case ProviderPreparation => op.trail == [Reserved, Owned, Prepared] && op.watermark == NoEffect
    case ExternalEffectStarted => op.request.provider == OpenCode
    case ProviderExecStarted => op.request.provider == Codex ==> op.trail == CODEX_START
    case _ => true
  }

  lemma RecordOnItsWay(s: Store, id: nat)
    requires Inv(s) && id in s.ops
    ensures OnItsWay(s.ops[id])
  {
    assert OpOk(s, id);
  }

  /** With an observer recorded, an effect that has not led to a start has its whole record. */
  lemma RecordBeforeStart(s: Store, own: Ownership, session: nat)
    requires Inv(s) && HandleFence(own, session) in s.fences
    ensures own.op in s.ops && s.ops[own.op].request.provider == OpenCode
    ensures s.ops[own.op].phase == ExternalEffectStarted ==>
      s.ops[own.op].trail == [Reserved, Owned, Prepared, EffectStarted, SessionBound, HandleRecorded]
  {
    assert FenceOk(s, HandleFence(own, session)) && OpOk(s, own.op);
  }

  lemma FenceProvider(s: Store, f: Fence)
    requires Inv(s) && f in s.fences
    ensures f.own.op in s.ops
    ensures f.PreparationFence? || f.ExecFence? ==> s.ops[f.own.op].request.provider == f.provider
  {
    assert FenceOk(s, f);
  }

  lemma PreparationStands(s: Store, c: Context, own: Ownership, stop: Stop)
    requires Inv(s) && DoRecordPreparation(s, c, own, stop).1 == Done
    ensures var t := DoRecordPreparation(s, c, own, stop).0;
      && Stands(t, c, own.op, ANY_LIVE, ProviderPreparation, [Reserved, Owned, Prepared])
      && Holds(t, PreparationFence(Later(own), c.provider))
  {
    AdvanceMovesOn(s, c, own, ToPreparation, stop);
    RecordOnItsWay(s, own.op);
  }

  lemma EffectStands(s: Store, c: Context, own: Ownership, provider: Provider, stop: Stop)
    requires Inv(s) && DoRecordEffect(s, c, own, provider, stop).1 == Done
    ensures var t := DoRecordEffect(s, c, own, provider, stop).0;
      && Stands(t, c, own.op, ANY_LIVE, ExternalEffectStarted, [Reserved, Owned, Prepared, EffectStarted])
      && t.ops[own.op].request.provider == OpenCode && Holds(t, EffectFence(Later(own)))
  {
    AdvanceMovesOn(s, c, own, ToEffect, stop);
    RecordOnItsWay(s, own.op);
  }

  lemma SessionStands(s: Store, c: Context, own: Ownership, session: nat, stop: Stop)
    requires Inv(s) && DoRecordSession(s, c, own, session, stop).1 == Done
    ensures var t := DoRecordSession(s, c, own, session, stop).0;
      && Holds(t, SessionFence(own, session)) && t.ops[own.op].phase == ExternalEffectStarted
      && own.runtime in t.runtimes && t.runtimes[own.runtime].session == Some(session)
  {
    assert FenceOk(s, EffectFence(own));
  }

  lemma HandleStands(s: Store, c: Context, own: Ownership, session: nat, port: nat, version: string, stop: Stop)
    requires Inv(s) && DoRecordHandle(s, c, own, session, port, version, stop).1 == Done
    ensures var t := DoRecordHandle(s, c, own, session, port, version, stop).0;
      && Holds(t, HandleFence(own, session))
      && Stands(t, c, own.op, ANY_LIVE, ExternalEffectStarted,
                [Reserved, Owned, Prepared, EffectStarted, SessionBound, HandleRecorded])
      && own.runtime in t.runtimes && t.runtimes[own.runtime].observer == Some(Observer(port, version, session))
      && port != 0
  {
    assert FenceOk(s, SessionFence(own, session)) && OpOk(s, own.op);
  }

  lemma CodexStartStands(s: Store, c: Context, own: Ownership, provider: Provider, stop: Stop)
    requires Inv(s) && DoRecordCodexExecStarted(s, c, own, provider, stop).1 == Done
    ensures var t := DoRecordCodexExecStarted(s, c, own, provider, stop).0;
      Stands(t, c, own.op, ANY_LIVE, ProviderExecStarted, CODEX_START) && Holds(t, ExecFence(Later(own), Codex))
  {
    AdvanceMovesOn(s, c, own, ToExecStarted, stop);
    FenceProvider(s, PreparationFence(own, provider));
    RecordOnItsWay(s, own.op);
  }

  lemma OpencodeStartStands(s: Store, c: Context, own: Ownership, session: nat, stop: Stop)
    requires Inv(s) && DoRecordOpencodeExecStarted(s, c, own, session, stop).1 == Done
    ensures var t := DoRecordOpencodeExecStarted(s, c, own, session, stop).0;
      Stands(t, c, own.op, ANY_LIVE, ProviderExecStarted, OPENCODE_START) && Holds(t, ExecFence(Later(own), OpenCode))
  {
    AdvanceMovesOn(s, c, own, ToExecStarted, stop);
    RecordBeforeStart(s, own, session);
    RecordOnItsWay(s, own.op);
  }

  lemma RecoveryStands(s: Store, c: Context, fence: Fence, stop: Stop)
    requires DoRecordRecovery(s, c, fence, stop).1 == Done
    ensures MovedOn(s, DoRecordRecovery(s, c, fence, stop).0, c, fence.own, ToRecovery)
  {
    AdvanceMovesOn(s, c, fence.own, ToRecovery, stop);
  }

  lemma AbsenceStands(s: Store, c: Context, own: Ownership, provider: Provider, stop: Stop)
    requires Inv(s) && DoRecordKnownAbsent(s, c, own, provider, stop).1 == Done
    ensures Stands(DoRecordKnownAbsent(s, c, own, provider, stop).0, c, own.op, ANY_LIVE, KnownAbsentExec,
                   CODEX_START + [KnownAbsent])
  {
    AdvanceMovesOn(s, c, own, ToKnownAbsent, stop);
    FenceProvider(s, ExecFence(own, provider));
    RecordOnItsWay(s, own.op);
  }

  class Host {
    var ops: map<nat, Operation>
    var keys: map<Key, nat>
    var runtimes: map<nat, RuntimeRow>
    var targets: map<nat, Provider>
    var markers: map<nat, Marker>
    var fences: set<Fence>

    constructor ()
      ensures View() == EMPTY && Inv(View())
    {
      ops, keys, runtimes, targets, markers, fences := map[], map[], map[], map[], map[], {};
      new;
      EmptyKeeps();
    }

    ghost function View(): Store
      reads this
    {
      Store(ops, keys, runtimes, targets, markers, fences)
    }

    // The two stores, step by step

    /** Reads the marker and the live evidence again. */
    method RequestFrom(c: Context) returns (r: Result<(Slot, Request)>)
      ensures r == RequestFromContext(View(), c)
      ensures r.Ok? <==>
        && c.dir in markers && markers[c.dir].Whole? && c.shellLive && c.managed && c.inWorktree
        && var slot := markers[c.dir].slot;
           slot.presentation == c.binding && slot.lease == c.lease && slot.phase in ANY_LIVE
      ensures r.Ok? ==>
        && markers[c.dir] == Whole(r.value.0) && SameIdentity(r.value.1, r.value.0)
        && r.value.1.lease == r.value.0.lease == c.lease && r.value.1.provider == c.provider
    {
      if c.dir !in markers {
        return Err(MarkerUnavailable);
      }
      if markers[c.dir].Torn? {
        return Err(MarkerMalformed);
      }
      var slot := markers[c.dir].slot;
      if slot.presentation != c.binding {
        return Err(BindingMismatch);
      }
      if slot.lease != c.lease {
        return Err(LeaseMismatch);
      }
      if slot.phase !in {Materialized, HandoffIssued, SlotOwned} || !c.shellLive {
        return Err(ShellUnavailable);
      }
      if !c.managed {
        return Err(CommandRefused);
      }
      if !c.inWorktree {
        return Err(RepositoryUnavailable);
      }
      r := Ok((slot, Request(slot.presentation, slot.generation, slot.runtime, c.provider, c.lease, c.details)));
    }

    /** Truncates and rewrites a marker; false when the call stops before it is over. */
    method RewriteMarker(dir: nat, slot: Slot, stop: Stop) returns (done: bool)
      modifies this`markers
      ensures View() == UpdateMarker(old(View()), dir, slot, stop) && done == (stop == Finish)
    {
      if stop == AfterState {
        return false;
      }
      markers := markers[dir := Torn];
      if stop == InMarker {
        return false;
      }
      markers := markers[dir := Whole(slot)];
      done := stop == Finish;
    }

    method FindExisting(r: Request) returns (found: Result<Option<nat>>)
      requires Indexed(View())
      ensures found == LoadExisting(View(), r)
    {
      var key := KeyOf(r);
      if key !in keys {
        return Ok(None);
      }
      var id := keys[key];
      if ops[id].phase != CapabilityIssued {
        return Err(OperationUnavailable);
      }
      if ops[id].request != r {
        return Err(RequestMismatch);
      }
      found := Ok(Some(id));
    }

    method PrepareStep(c: Context, id: nat, token: nat, now: int, expiry: int, stop: Stop) returns (o: Outcome)
      requires Indexed(View())
      modifies this
      ensures (View(), o) == DoPrepare(old(View()), c, id, token, now, expiry, stop)
    {
      var context := RequestFrom(c);
      if context.Err? {
        return Refused(context.reason);
      }
      var (slot, r) := context.value;
      var existing := FindExisting(r);
      if existing.Err? {
        return Refused(existing.reason);
      }
      if existing.value.Some? {
        return Refused(ExistingOperation);
      }
      if r.runtime in runtimes || !LifetimeAllowed(now, expiry) {
        return Refused(InvalidPreparation);
      }
      if id in ops {
        return Refused(StorageRefused);
      }
      ops := ops[id := Operation(r, CapabilityIssued, 2, token, expiry, NoEffect, [Reserved])];
      keys := keys[KeyOf(r) := id];
      runtimes := runtimes[r.runtime := RuntimeRow(r.provider, None, None)];
      if stop == AfterState {
        return Died;
      }
      if slot.phase != Materialized || slot.handoff.Some? {
        return Refused(HandoffUnavailable);
      }
      var done := RewriteMarker(c.dir, slot.(phase := HandoffIssued, handoff := Some(id)), stop);
      o := if done then Done else Died;
    }

    method ConsumeStep(c: Context, token: nat, now: int, stop: Stop) returns (o: Outcome, own: Option<Ownership>)
      requires Indexed(View())
      modifies this
      ensures (View(), o) == DoConsume(old(View()), c, token, now, stop)
      ensures o == Done <==> own.Some?
      ensures own.Some? ==>
        && c.dir in markers && markers[c.dir].Whole? && markers[c.dir].slot.handoff == Some(own.value.op)
        && own.value.op in ops && own.value == OwnershipOf(View(), own.value.op)
    {
      own := None;
      var context := RequestFrom(c);
      if context.Err? {
        return Refused(context.reason), None;
      }
      var (slot, r) := context.value;
      if slot.phase != HandoffIssued {
        return Refused(HandoffUnavailable), None;
      }
      var existing := FindExisting(r);
      if existing.Err? {
        return Refused(existing.reason), None;
      }
      if existing.value.None? {
        return Refused(MissingOperation), None;
      }
      var id := existing.value.value;
      var op := ops[id];
      if !(0 <= now < op.expiry) {
        return Refused(CapabilityExpired), None;
      }
      if token != op.token {
        return Refused(CapabilityRejected), None;
      }
      ops := ops[id := Moved(op, RuntimeOwnedLaunching, Owned)];
      if stop == AfterState {
        return Died, None;
      }
      if slot.handoff != Some(id) {
        return Refused(HandoffMismatch), None;
      }
      var done := RewriteMarker(c.dir, slot.(phase := SlotOwned), stop);
      if !done {
        return Died, None;
      }
      own := Some(Ownership(id, r.runtime, op.revision + 1));
      fences := fences + {OwnedFence(own.value)};
      o := Done;
    }

    /** Moves one journal row after repeating every durable check. */
    method AdvanceOnboarding(c: Context, own: Ownership, a: Advance, stop: Stop)
      returns (o: Outcome, next: Option<Ownership>)
      modifies this
      ensures (View(), o, next) == DoAdvance(old(View()), c, own, a, stop)
    {
      next := None;
      var context := RequestFrom(c);
      if context.Err? {
        return Refused(context.reason), None;
      }
      var (_, r) := context.value;
      if own.op !in ops {
        return Refused(UnknownOperation), None;
      }
      var op := ops[own.op];
      if op.request != r || r.runtime != own.runtime {
        return Refused(RequestMismatch), None;
      }
      if own.runtime !in runtimes || runtimes[own.runtime].provider != r.provider {
        return Refused(MalformedSchema), None;
      }
      if op.revision != own.revision {
        return Refused(ConcurrentWrite), None;
      }
      if !Permits(op.phase, Next(a).0) {
        return Refused(TransitionInvalid), None;
      }
      var row := runtimes[own.runtime];
      var evidenced := match a
        case ToPreparation | ToRecovery => true
        case ToEffect => row.provider == OpenCode && op.watermark == NoEffect
        case ToExecStarted =>
          && row.provider == r.provider && own.op in targets && targets[own.op] == r.provider
          && op.watermark == (if r.provider == Codex then NoEffect else OpencodeEffectStarted)
        case ToKnownAbsent => row.provider == Codex && row.session.None? && op.watermark == NoEffect;
      if !evidenced {
        return Refused(OperationUnavailable), None;
      }
      if a == ToPreparation {
        if own.op in targets {
          return Refused(StorageRefused), None;
        }
        targets := targets[own.op := r.provider];
      }
      ops := ops[own.op := Advanced(op, a)];
      if stop != Finish {
        return Died, None;
      }
      o, next := Done, Some(own.(revision := own.revision + 1));
    }

    method PreparationStep(c: Context, own: Ownership, stop: Stop) returns (o: Outcome)
      modifies this
      ensures (View(), o) == DoRecordPreparation(old(View()), c, own, stop)
    {
      if OwnedFence(own) !in fences {
        return Refused(FenceMissing);
      }
      var next;
      o, next := AdvanceOnboarding(c, own, ToPreparation, stop);
      if next.Some? {
        fences := fences + {PreparationFence(next.value, c.provider)};
      }
    }

    method EffectStep(c: Context, own: Ownership, provider: Provider, stop: Stop)
      returns (o: Outcome)
      requires PreparationFence(own, provider) in fences
      modifies this
      ensures (View(), o) == DoRecordEffect(old(View()), c, own, provider, stop)
    {
      if provider != OpenCode {
        return Refused(ProviderMismatch);
      }
      var next;
      o, next := AdvanceOnboarding(c, own, ToEffect, stop);
      if next.Some? {
        fences := fences + {EffectFence(next.value)};
      }
    }

    /** The durable checks of a step that leaves its journal row in place. */
    method ValidateOwnership(c: Context, own: Ownership) returns (r: Result<Operation>)
      ensures r == match RequestFromContext(View(), c) case Err(e) => Err(e) case Ok((_, q)) => ValidateOwned(View(), q, own)
      ensures r.Ok? ==> own.op in ops && r.value == ops[own.op] && own.runtime in runtimes
    {
      var context := RequestFrom(c);
      if context.Err? {
        return Err(context.reason);
      }
      var (_, q) := context.value;
      if own.op !in ops {
        return Err(UnknownOperation);
      }
      if ops[own.op].request != q || q.runtime != own.runtime {
        return Err(RequestMismatch);
      }
      if own.runtime !in runtimes || runtimes[own.runtime].provider != q.provider {
        return Err(MalformedSchema);
      }
      if ops[own.op].revision != own.revision {
        return Err(ConcurrentWrite);
      }
      r := Ok(ops[own.op]);
    }

    method SessionStep(c: Context, own: Ownership, session: nat, stop: Stop) returns (o: Outcome)
      requires EffectFence(own) in fences
      modifies this
      ensures (View(), o) == DoRecordSession(old(View()), c, own, session, stop)
    {
      var valid := ValidateOwnership(c, own);
      if valid.Err? {
        return Refused(valid.reason);
      }
      var op, row := valid.value, runtimes[own.runtime];
      if op.phase != ExternalEffectStarted || c.provider != OpenCode {
        return Refused(OperationUnavailable);
      }
      if row.session.Some? && row.session != Some(session) {
        return Refused(ProviderMismatch);
      }
      if row.session.None? {
        runtimes := runtimes[own.runtime := row.(session := Some(session))];
        ops := ops[own.op := op.(trail := op.trail + [SessionBound])];
      }
      if stop != Finish {
        return Died;
      }
      fences := fences + {SessionFence(own, session)};
      o := Done;
    }

    method HandleStep(c: Context, own: Ownership, session: nat, port: nat, version: string, stop: Stop)
      returns (o: Outcome)
      requires SessionFence(own, session) in fences
      modifies this
      ensures (View(), o) == DoRecordHandle(old(View()), c, own, session, port, version, stop)
    {
      var context := RequestFrom(c);
      if context.Err? {
        return Refused(context.reason);
      }
      if port == 0 {
        return Refused(ProviderMismatch);
      }
      var valid := ValidateOwnership(c, own);
      if valid.Err? {
        return Refused(valid.reason);
      }
      var op, row, observer := valid.value, runtimes[own.runtime], Observer(port, version, session);
      if op.phase != ExternalEffectStarted || c.provider != OpenCode {
        return Refused(OperationUnavailable);
      }
      if row.session != Some(session) {
        return Refused(ProviderMismatch);
      }
      if row.observer.Some? && row.observer != Some(observer) {
        return Refused(ConcurrentWrite);
      }
      if row.observer.None? {
        runtimes := runtimes[own.runtime := row.(observer := Some(observer))];
        ops := ops[own.op := op.(trail := op.trail + [HandleRecorded])];
      }
      if stop != Finish {
        return Died;
      }
      fences := fences + {HandleFence(own, session)};
      o := Done;
    }

    method CodexStartStep(c: Context, own: Ownership, provider: Provider, stop: Stop)
      returns (o: Outcome)
      requires PreparationFence(own, provider) in fences
      modifies this
      ensures (View(), o) == DoRecordCodexExecStarted(old(View()), c, own, provider, stop)
    {
      if provider != Codex {
        return Refused(ProviderMismatch);
      }
      var next;
      o, next := AdvanceOnboarding(c, own, ToExecStarted, stop);
      if next.Some? {
        fences := fences + {ExecFence(next.value, Codex)};
      }
    }

    method OpencodeStartStep(c: Context, own: Ownership, session: nat, stop: Stop)
      returns (o: Outcome)
      requires HandleFence(own, session) in fences
      modifies this
      ensures (View(), o) == DoRecordOpencodeExecStarted(old(View()), c, own, session, stop)
    {
      var next;
      o, next := AdvanceOnboarding(c, own, ToExecStarted, stop);
      if next.Some? {
        fences := fences + {ExecFence(next.value, OpenCode)};
      }
    }

    method RecoveryStep(c: Context, fence: Fence, stop: Stop) returns (o: Outcome)
      requires fence in fences
      modifies this
      ensures (View(), o) == DoRecordRecovery(old(View()), c, fence, stop)
    {
      if fence.ExecFence? && fence.provider != OpenCode {
        return Refused(ProviderMismatch);
      }
      var next;
      o, next := AdvanceOnboarding(c, fence.own, ToRecovery, stop);
    }

    method AbsenceStep(c: Context, own: Ownership, provider: Provider, stop: Stop)
      returns (o: Outcome)
      requires ExecFence(own, provider) in fences
      modifies this
      ensures (View(), o) == DoRecordKnownAbsent(old(View()), c, own, provider, stop)
    {
      if provider != Codex {
        return Refused(ProviderMismatch);
      }
      var next;
      o, next := AdvanceOnboarding(c, own, ToKnownAbsent, stop);
    }

    // The calls

    /** Prepares exactly one launch: the journal first, the marker second. */
    method Prepare(c: Context, id: nat, token: nat, now: int, expiry: int, stop: Stop) returns (o: Outcome)
      requires Inv(View())
      modifies this
      ensures (View(), o) == DoPrepare(old(View()), c, id, token, now, expiry, stop)
      ensures Kept(old(View()), View(), o)
      ensures o == Done ==> id !in old(ops) && LifetimeAllowed(now, expiry) && Issued(View(), c, id, token, expiry)
    {
      ghost var s := View();
      PrepareKeeps(s, c, id, token, now, expiry, stop);
      o := PrepareStep(c, id, token, now, expiry, stop);
      if o == Done {
        PrepareIssues(s, c, id, token, now, expiry, stop);
      }
    }

    /** Consumes a capability: the journal first, the marker second. */
    method Consume(c: Context, token: nat, now: int, stop: Stop) returns (o: Outcome, own: Option<Ownership>)
      requires Inv(View())
      modifies this
      ensures (View(), o) == DoConsume(old(View()), c, token, now, stop)
      ensures Kept(old(View()), View(), o) && (o == Done <==> own.Some?)
      ensures own.Some? ==>
        && Transferred(View(), c, own.value)
        && own.value.op in old(ops) && old(ops)[own.value.op].token == token && 0 <= now < old(ops)[own.value.op].expiry
    {
      ghost var s := View();
      ConsumeKeeps(s, c, token, now, stop);
      o, own := ConsumeStep(c, token, now, stop);
      if o == Done {
        ConsumeTransfers(s, c, token, now, stop);
      }
    }

    /** Consumes the handoff and records the provider-preparation fence. */
    method BeginProviderPreparation(c: Context, token: nat, now: int, consumeStop: Stop, stop: Stop)
      returns (o: Outcome, fence: Option<Fence>)
      requires Inv(View())
      modifies this
      ensures Inv(View()) && (o == Done <==> fence.Some?)
      ensures var (s, consumed) := DoConsume(old(View()), c, token, now, consumeStop);
        if consumed != Done then View() == s && o == consumed && (o.Refused? ==> View() == old(View()))
        else exists own :: OwnedFence(own) in s.fences && (View(), o) == DoRecordPreparation(s, c, own, stop)
      ensures fence.Some? ==>
        && fence.value.PreparationFence? && fence.value.provider == c.provider && Holds(View(), fence.value)
        && Stands(View(), c, fence.value.own.op, ANY_LIVE, ProviderPreparation, [Reserved, Owned, Prepared])
    {
      var own;
      fence := None;
      o, own := Consume(c, token, now, consumeStop);
      if own.Some? {
        ghost var s := View();
        o, fence := RecordPreparation(c, own.value, stop);
        assert OwnedFence(own.value) in s.fences && (View(), o) == DoRecordPreparation(s, c, own.value, stop);
      }
    }

    method RecordPreparation(c: Context, own: Ownership, stop: Stop) returns (o: Outcome, fence: Option<Fence>)
      requires Inv(View())
      modifies this
      ensures (View(), o) == DoRecordPreparation(old(View()), c, own, stop)
      ensures Kept(old(View()), View(), o) && (o == Done <==> fence == Some(PreparationFence(Later(own), c.provider)))
      ensures o != Done ==> fence.None?
      ensures o == Done ==>
        && Holds(View(), PreparationFence(Later(own), c.provider))
        && Stands(View(), c, own.op, ANY_LIVE, ProviderPreparation, [Reserved, Owned, Prepared])
    {
      ghost var s := View();
      RecordPreparationKeeps(s, c, own, stop);
      o := PreparationStep(c, own, stop);
      fence := None;
      if o == Done {
        PreparationStands(s, c, own, stop);
        fence := Some(PreparationFence(Later(own), c.provider));
      }
    }

    /** Records the OpenCode effect fence, before anything could be posted. */
    method RecordOpencodeExternalEffectStarted(c: Context, own: Ownership, provider: Provider, stop: Stop)
      returns (o: Outcome, fence: Option<Fence>)
      requires Inv(View()) && PreparationFence(own, provider) in fences
      modifies this
      ensures (View(), o) == DoRecordEffect(old(View()), c, own, provider, stop)
      ensures Kept(old(View()), View(), o) && fence == if o == Done then Some(EffectFence(Later(own))) else None
      ensures o == Done ==>
        && Holds(View(), EffectFence(Later(own))) && provider == OpenCode
        && Stands(View(), c, own.op, ANY_LIVE, ExternalEffectStarted, [Reserved, Owned, Prepared, EffectStarted])
    {
      ghost var s := View();
      RecordEffectKeeps(s, c, own, provider, stop);
      o := EffectStep(c, own, provider, stop);
      fence := if o == Done then Some(EffectFence(Later(own))) else None;
      if o == Done {
        EffectStands(s, c, own, provider, stop);
      }
    }

    /** Binds the session that the recorded POST returned. */
    method RecordOpencodeCreatedSession(c: Context, own: Ownership, session: nat, stop: Stop)
      returns (o: Outcome, fence: Option<Fence>)
      requires Inv(View()) && EffectFence(own) in fences
      modifies this
      ensures (View(), o) == DoRecordSession(old(View()), c, own, session, stop)
      ensures Kept(old(View()), View(), o) && fence == if o == Done then Some(SessionFence(own, session)) else None
      ensures o == Done ==>
        && Holds(View(), SessionFence(own, session)) && ops[own.op].phase == ExternalEffectStarted
        && own.runtime in runtimes && runtimes[own.runtime].session == Some(session)
    {
      ghost var s := View();
      RecordSessionKeeps(s, c, own, session, stop);
      o := SessionStep(c, own, session, stop);
      fence := if o == Done then Some(SessionFence(own, session)) else None;
      if o == Done {
        SessionStands(s, c, own, session, stop);
      }
    }

    /** Records the endpoint of the bound session as the future observer's handle. */
    method RecordOpencodeRuntimeHandle(c: Context, own: Ownership, session: nat, port: nat, version: string, stop: Stop)
      returns (o: Outcome, fence: Option<Fence>)
      requires Inv(View()) && SessionFence(own, session) in fences
      modifies this
      ensures (View(), o) == DoRecordHandle(old(View()), c, own, session, port, version, stop)
      ensures Kept(old(View()), View(), o) && fence == if o == Done then Some(HandleFence(own, session)) else None
      ensures o == Done ==>
        && Holds(View(), HandleFence(own, session)) && port != 0
        && own.runtime in runtimes && runtimes[own.runtime].observer == Some(Observer(port, version, session))
        && Stands(View(), c, own.op, ANY_LIVE, ExternalEffectStarted,
                  [Reserved, Owned, Prepared, EffectStarted, SessionBound, HandleRecorded])
    {
      ghost var s := View();
      RecordHandleKeeps(s, c, own, session, port, version, stop);
      o := HandleStep(c, own, session, port, version, stop);
      fence := if o == Done then Some(HandleFence(own, session)) else None;
      if o == Done {
        HandleStands(s, c, own, session, port, version, stop);
      }
    }

    /** Records the final fence before Codex is executed. */
    method RecordCodexProviderExecStarted(c: Context, own: Ownership, provider: Provider, stop: Stop)
      returns (o: Outcome, fence: Option<Fence>)
      requires Inv(View()) && PreparationFence(own, provider) in fences
      modifies this
      ensures (View(), o) == DoRecordCodexExecStarted(old(View()), c, own, provider, stop)
      ensures Kept(old(View()), View(), o) && fence == if o == Done then Some(ExecFence(Later(own), Codex)) else None
      ensures o == Done ==>
        && Holds(View(), ExecFence(Later(own), Codex)) && provider == Codex
        && Stands(View(), c, own.op, ANY_LIVE, ProviderExecStarted, CODEX_START)
    {
      ghost var s := View();
      RecordCodexExecStartedKeeps(s, c, own, provider, stop);
      o := CodexStartStep(c, own, provider, stop);
      fence := if o == Done then Some(ExecFence(Later(own), Codex)) else None;
      if o == Done {
        CodexStartStands(s, c, own, provider, stop);
      }
    }

    /** Takes a Codex handoff through all of its fences; OpenCode has to bind a session first. */
    method AdvanceCodexToProviderExecFence(c: Context, token: nat, now: int, consumeStop: Stop, prepareStop: Stop, stop: Stop)
      returns (o: Outcome, fence: Option<Fence>)
      requires Inv(View())
      modifies this
      ensures Inv(View()) && (o == Done <==> fence.Some?)
      ensures c.provider != Codex ==> o == Refused(ProviderMismatch) && View() == old(View())
      ensures fence.Some? ==>
        && fence.value.ExecFence? && fence.value.provider == Codex && Holds(View(), fence.value)
        && Stands(View(), c, fence.value.own.op, ANY_LIVE, ProviderExecStarted, CODEX_START)
    {
      if c.provider != Codex {
        return Refused(ProviderMismatch), None;
      }
      o, fence := BeginProviderPreparation(c, token, now, consumeStop, prepareStop);
      if fence.Some? {
        o, fence := RecordCodexProviderExecStarted(c, fence.value.own, fence.value.provider, stop);
      }
    }

    /** Records the final fence before OpenCode is executed. */
    method RecordOpencodeProviderExecStarted(c: Context, own: Ownership, session: nat, stop: Stop)
      returns (o: Outcome, fence: Option<Fence>)
      requires Inv(View()) && HandleFence(own, session) in fences
      modifies this
      ensures (View(), o) == DoRecordOpencodeExecStarted(old(View()), c, own, session, stop)
      ensures Kept(old(View()), View(), o) && fence == if o == Done then Some(ExecFence(Later(own), OpenCode)) else None
      ensures o == Done ==>
        && Holds(View(), ExecFence(Later(own), OpenCode))
        && Stands(View(), c, own.op, ANY_LIVE, ProviderExecStarted, OPENCODE_START)
    {
      ghost var s := View();
      RecordOpencodeExecStartedKeeps(s, c, own, session, stop);
      o := OpencodeStartStep(c, own, session, stop);
      fence := if o == Done then Some(ExecFence(Later(own), OpenCode)) else None;
      if o == Done {
        OpencodeStartStands(s, c, own, session, stop);
      }
    }

    /** The four recovery recorders: after an effect, before one, after a session, after an exec. */
    method RecordRecoveryRequired(c: Context, fence: Fence, stop: Stop) returns (o: Outcome)
      requires Inv(View()) && fence in fences
      modifies this
      ensures (View(), o) == DoRecordRecovery(old(View()), c, fence, stop)
      ensures Kept(old(View()), View(), o)
      ensures o == Done ==> MovedOn(old(View()), View(), c, fence.own, ToRecovery)
    {
      ghost var s := View();
      RecordRecoveryKeeps(s, c, fence, stop);
      o := RecoveryStep(c, fence, stop);
      if o == Done {
        RecoveryStands(s, c, fence, stop);
      }
    }

    /** Records that Codex was proved not to have been executed. */
    method RecordCodexExecFailedKnownAbsent(c: Context, own: Ownership, provider: Provider, stop: Stop)
      returns (o: Outcome)
      requires Inv(View()) && ExecFence(own, provider) in fences
      modifies this
      ensures (View(), o) == DoRecordKnownAbsent(old(View()), c, own, provider, stop)
      ensures Kept(old(View()), View(), o)
      ensures o == Done ==>
        provider == Codex && Stands(View(), c, own.op, ANY_LIVE, KnownAbsentExec, CODEX_START + [KnownAbsent])
    {
      ghost var s := View();
      RecordKnownAbsentKeeps(s, c, own, provider, stop);
      o := AbsenceStep(c, own, provider, stop);
      if o == Done {
        AbsenceStands(s, c, own, provider, stop);
      }
    }
  }

  /** The capability a finished preparation issued is consumed by exactly its token, from clock zero
      until its expiry, while the evidence stays what it was. */
  lemma PreparedIsConsumable(s: Store, c: Context, id: nat, token: nat, now: int, expiry: int, presented: nat, later: int)
    requires Inv(s) && DoPrepare(s, c, id, token, now, expiry, Finish).1 == Done
    ensures var t := DoPrepare(s, c, id, token, now, expiry, Finish).0;
      Inv(t) && (DoConsume(t, c, presented, later, Finish).1 == Done <==> presented == token && 0 <= later < expiry)
  {
    PrepareKeeps(s, c, id, token, now, expiry, Finish);
  }
}
