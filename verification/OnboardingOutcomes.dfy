/** Exactly when a step of an onboarding succeeds in a reachable state, what reconciliation does to
    every kind of marker, and the two complete courses from a fresh candidate to a retired marker. */
module OnboardingOutcomes {
  import opened Bytes
  import opened Providers
  import opened Onboarding
  import opened OnboardingSafety
  import opened OnboardingRuns
  import opened Broker

  // Reconciliation

  /** Nothing but the marker of an owned operation is completed. */
  predicate OnlyCompletes(s: Store, t: Store, dir: nat, stop: Stop) {
    && dir in s.markers && s.markers[dir].Whole? && s.markers[dir].slot.phase == HandoffIssued
    && s.markers[dir].slot.handoff.Some? && s.markers[dir].slot.handoff.value in s.ops
    && s.ops[s.markers[dir].slot.handoff.value].phase !in {CapabilityIssued, RolledBack}
    && t == UpdateMarker(s, dir, s.markers[dir].slot.(phase := SlotOwned), stop)
  }

  /** While its shell may live, reconciliation changes neither journal nor marker, save to complete the
      marker of an operation that was consumed. */
  lemma LiveShellIsLeftAlone(s: Store, dir: nat, lease: int, stop: Stop)
    requires Inv(s)
    ensures var (t, o) := DoReconcile(s, dir, lease, false, stop);
      (t == s && o.Refused?) || (OnlyCompletes(s, t, dir, stop) && o == if stop == Finish then Done else Died)
  {
    if dir in s.markers && s.markers[dir].Whole? {
      assert SlotOk(s, s.markers[dir].slot);
    }
  }

  /** The operation is the marker's: the one it hands out, or the one its key leads to. */
  predicate Belongs(s: Store, slot: Slot, id: nat) {
    && id in s.ops
    && match slot.handoff
       case Some(other) => id == other
       case None =>
         Key(slot.presentation.id, slot.generation) in s.keys && s.keys[Key(slot.presentation.id, slot.generation)] == id
  }

  /** The operation is cancelled and its Runtime row is gone. */
  predicate TakenBack(s: Store, t: Store, id: nat) {
    && id in s.ops && id in t.ops && t.ops == s.ops[id := t.ops[id]]
    && t.ops[id] == s.ops[id].(phase := RolledBack, revision := s.ops[id].revision + 1, trail := [Reserved, Cancelled])
    && t.runtimes == s.runtimes - {s.ops[id].request.runtime}
    && t.keys == s.keys && t.targets == s.targets && t.fences == s.fences
  }

  predicate MarkerGone(s: Store, t: Store, dir: nat) {
    t.markers == s.markers - {dir}
  }

  /** What reconciliation that runs to its end does to a marker that is not owned yet, by the operation
      it belongs to: without one the marker goes with a missing server; a consumed one gets its marker
      completed; an issued one is cancelled and its marker removed, with a missing server, the lease it
      was issued under and no target; and a cancelled one leaves a marker that goes with a missing
      server. Otherwise nothing happens. */
  lemma ReconciledExactly(s: Store, dir: nat, lease: int, serverMissing: bool, id: nat)
    requires Inv(s) && dir in s.markers && s.markers[dir].Whole?
    requires s.markers[dir].slot.phase in {Materializing, Materialized, HandoffIssued}
    ensures var slot := s.markers[dir].slot;
      var (t, o) := DoReconcile(s, dir, lease, serverMissing, Finish);
      if Belongs(s, slot, id) then
        match s.ops[id].phase
        case CapabilityIssued =>
          if serverMissing && lease == s.ops[id].request.lease && id !in s.targets
          then o == Done && TakenBack(s, t, id) && MarkerGone(s, t, dir) else o.Refused? && t == s
        case RolledBack =>
          if serverMissing && slot.runtime !in s.runtimes
          then o == Done && t == s.(markers := s.markers - {dir}) else o.Refused? && t == s
        case _ => o == Done && t == s.(markers := s.markers[dir := Whole(slot.(phase := SlotOwned))])
      else if forall other :: !Belongs(s, slot, other) then
        if serverMissing && slot.runtime !in s.runtimes
        then o == Done && t == s.(markers := s.markers - {dir}) else o.Refused? && t == s
      else true
  {
    var slot := s.markers[dir].slot;
    assert SlotOk(s, slot);
    if Belongs(s, slot, id) {
      assert OpOk(s, id);
      assert MarkerOperation(s, slot) == Ok(Some(id));
    } else if forall other :: !Belongs(s, slot, other) {
      assert !Belongs(s, slot, if slot.handoff.Some? then slot.handoff.value else 0);
      var key := Key(slot.presentation.id, slot.generation);
      assert key in s.keys ==> !Belongs(s, slot, s.keys[key]);
      assert MarkerOperation(s, slot) == Ok(None);
    }
  }

  // The helper's steps

  /** The context still stands behind the operation, and the ownership is the latest word on it. */
  predicate Backed(s: Store, c: Context, own: Ownership) {
    && c.dir in s.markers && s.markers[c.dir].Whole? && c.shellLive && c.managed && c.inWorktree
    && own.op in s.ops
    && var slot, op := s.markers[c.dir].slot, s.ops[own.op];
       && slot.presentation == c.binding && slot.lease == c.lease && slot.phase in {Materialized, HandoffIssued, SlotOwned}
       && op.request == Request(slot.presentation, slot.generation, slot.runtime, c.provider, c.lease, c.details)
       && own == Ownership(own.op, op.request.runtime, op.revision)
  }

  lemma BackedExactly(s: Store, c: Context, own: Ownership)
    requires Inv(s)
    ensures Backed(s, c, own) <==>
      RequestFromContext(s, c).Ok? && own.op in s.ops && RequestFromContext(s, c).value.1 == s.ops[own.op].request
      && own == OwnershipOf(s, own.op)
    ensures Backed(s, c, own) ==>
      s.ops[own.op].phase == RolledBack || ValidateOwned(s, s.ops[own.op].request, own) == Ok(s.ops[own.op])
  {
    if own.op in s.ops {
      assert OpOk(s, own.op);
    }
  }

  /** From where an advance is open to a provider. */
  predicate Open(s: Store, id: nat, a: Advance)
    requires id in s.ops
  {
    var phase, provider := s.ops[id].phase, s.ops[id].request.provider;
    match a
    case ToPreparation => phase == RuntimeOwnedLaunching && id !in s.targets
    case ToEffect => phase == ProviderPreparation && provider == OpenCode
    case ToExecStarted =>
      && id in s.targets && s.targets[id] == provider
      && phase == (if provider == Codex then ProviderPreparation else ExternalEffectStarted)
    case ToRecovery =>
      phase in {RuntimeOwnedLaunching, ProviderPreparation, ExternalEffectStarted, ProviderExecStarted, KnownAbsentExec}
    case ToKnownAbsent => phase == ProviderExecStarted && provider == Codex
  }

  /** In a reachable state, the transition table and the evidence come to that. */
  lemma OpenExactly(s: Store, id: nat, a: Advance)
    requires id in s.ops && s.ops[id].phase != RolledBack && OpOk(s, id)
    ensures Open(s, id, a) <==>
      && Permits(s.ops[id].phase, Next(a).0) && s.ops[id].request.runtime in s.runtimes && Evidenced(s, s.ops[id], id, a)
      && (a == ToPreparation ==> id !in s.targets)
  {
  }

  /** The store after an advance of an operation. */
  function AfterAdvance(s: Store, id: nat, a: Advance): Store
    requires id in s.ops
  {
    s.(ops := s.ops[id := Advanced(s.ops[id], a)],
       targets := if a == ToPreparation then s.targets[id := s.ops[id].request.provider] else s.targets)
  }

  lemma JournalAdvances(s: Store, own: Ownership, a: Advance)
    requires Inv(s) && own.op in s.ops && own == OwnershipOf(s, own.op)
    ensures var r := s.ops[own.op].request;
      var result := AdvanceJournal(s, r, own, a);
      if Open(s, own.op, a) then result == Ok(AfterAdvance(s, own.op, a)) else result.Err?
  {
    assert OpOk(s, own.op);
    if s.ops[own.op].phase != RolledBack {
      OpenExactly(s, own.op, a);
    }
  }

  /** What is left of an advance once its request was rebuilt. */
  lemma RebuiltAdvances(s: Store, c: Context, own: Ownership, a: Advance)
    requires RequestFromContext(s, c).Ok?
    ensures DoAdvance(s, c, own, a, Finish) ==
      match AdvanceJournal(s, RequestFromContext(s, c).value.1, own, a)
      case Err(e) => (s, Refused(e), None)
      case Ok(t) => (t, Done, Some(own.(revision := own.revision + 1)))
  {
  }

  lemma UnbackedIsRefused(s: Store, c: Context, own: Ownership, a: Advance)
    requires RequestFromContext(s, c).Ok? && own.op in s.ops ==>
      RequestFromContext(s, c).value.1 != s.ops[own.op].request || own != OwnershipOf(s, own.op)
    ensures var (t, o, next) := DoAdvance(s, c, own, a, Finish); t == s && o.Refused? && next.None?
  {
  }

  /** An advance in a reachable state is done exactly when its context stands behind the operation and
      the operation is where the advance leads on from; it is recorded, and nothing else changes. */
  lemma AdvancedExactly(s: Store, c: Context, own: Ownership, a: Advance)
    requires Inv(s)
    ensures var (t, o, next) := DoAdvance(s, c, own, a, Finish);
      if Backed(s, c, own) && Open(s, own.op, a) then
        o == Done && next == Some(own.(revision := own.revision + 1)) && t == AfterAdvance(s, own.op, a)
      else t == s && o.Refused? && next.None?
  {
    BackedExactly(s, c, own);
    if Backed(s, c, own) {
      RebuiltAdvances(s, c, own, a);
      JournalAdvances(s, own, a);
    } else {
      UnbackedIsRefused(s, c, own, a);
    }
  }

  /** A fence of an operation leads on when it is held and its step is open. */
  predicate Leads(s: Store, c: Context, f: Fence, a: Advance) {
    f in s.fences && Backed(s, c, f.own) && Open(s, f.own.op, a)
  }

  /** Every recorder of the helper is done exactly when its own fence is held and leads on, for the one
      provider it is for. */
  lemma RecordersSucceedExactly(s: Store, c: Context, own: Ownership, provider: Provider, session: nat)
    requires Inv(s)
    ensures DoRecordPreparation(s, c, own, Finish).1 == Done <==> Leads(s, c, OwnedFence(own), ToPreparation)
    ensures DoRecordEffect(s, c, own, provider, Finish).1 == Done <==>
      provider == OpenCode && Leads(s, c, PreparationFence(own, OpenCode), ToEffect)
    ensures DoRecordCodexExecStarted(s, c, own, provider, Finish).1 == Done <==>
      provider == Codex && Leads(s, c, PreparationFence(own, Codex), ToExecStarted)
    ensures DoRecordOpencodeExecStarted(s, c, own, session, Finish).1 == Done <==>
      Leads(s, c, HandleFence(own, session), ToExecStarted)
  {
    AdvancedExactly(s, c, own, ToPreparation);
    AdvancedExactly(s, c, own, ToEffect);
    AdvancedExactly(s, c, own, ToExecStarted);
  }

  /** The failure recorders likewise: recovery from every fence but a Codex start, known absence from
      exactly that one. */
  lemma FailuresRecordedExactly(s: Store, c: Context, own: Ownership, provider: Provider, fence: Fence)
    requires Inv(s)
    ensures DoRecordRecovery(s, c, fence, Finish).1 == Done <==>
      Leads(s, c, fence, ToRecovery) && (fence.ExecFence? ==> fence.provider == OpenCode)
    ensures DoRecordKnownAbsent(s, c, own, provider, Finish).1 == Done <==>
      provider == Codex && Leads(s, c, ExecFence(own, Codex), ToKnownAbsent)
  {
    AdvancedExactly(s, c, fence.own, ToRecovery);
    AdvancedExactly(s, c, own, ToKnownAbsent);
  }

  /** A row and a mark are noted for the operation, and the fence for it is held. */
  function Recorded(s: Store, own: Ownership, row: RuntimeRow, mark: Mark, f: Fence): Store
    requires own.op in s.ops
  {
    s.(runtimes := s.runtimes[own.runtime := row],
       ops := s.ops[own.op := s.ops[own.op].(trail := s.ops[own.op].trail + [mark])],
       fences := s.fences + {f})
  }

  /** A session is recorded exactly while the effect it belongs to is the last thing on record and no
      other session is bound; it is noted the first time. */
  lemma SessionRecordedExactly(s: Store, c: Context, own: Ownership, session: nat)
    requires Inv(s)
    ensures var (t, o) := DoRecordSession(s, c, own, session, Finish);
      if EffectFence(own) in s.fences && Backed(s, c, own) && s.ops[own.op].phase == ExternalEffectStarted
         && own.runtime in s.runtimes && s.runtimes[own.runtime].session in {None, Some(session)}
      then
        var row := s.runtimes[own.runtime];
        && o == Done
        && t == if row.session.Some? then Hold(s, SessionFence(own, session))
                else Recorded(s, own, row.(session := Some(session)), SessionBound, SessionFence(own, session))
      else o.Refused? && t == s
  {
    BackedExactly(s, c, own);
    if own.op in s.ops {
      assert OpOk(s, own.op);
    }
  }

  /** An observer handle is recorded exactly for the bound session, on a real port, when no other one
      is; it is noted the first time. */
  lemma HandleRecordedExactly(s: Store, c: Context, own: Ownership, session: nat, port: nat, version: string)
    requires Inv(s)
    ensures var (t, o) := DoRecordHandle(s, c, own, session, port, version, Finish);
      var observer := Observer(port, version, session);
      if SessionFence(own, session) in s.fences && Backed(s, c, own) && s.ops[own.op].phase == ExternalEffectStarted
         && port > 0 && own.runtime in s.runtimes && s.runtimes[own.runtime].session == Some(session)
         && s.runtimes[own.runtime].observer in {None, Some(observer)}
      then
        var row := s.runtimes[own.runtime];
        && o == Done
        && t == if row.observer.Some? then Hold(s, HandleFence(own, session))
                else Recorded(s, own, row.(observer := Some(observer)), HandleRecorded, HandleFence(own, session))
      else o.Refused? && t == s
  {
    BackedExactly(s, c, own);
    if own.op in s.ops {
      assert OpOk(s, own.op);
    }
  }

  // The broker's steps, the proof and the end

  /** A candidate is new: its directory, its Runtime and its key are nobody's. */
  predicate Fresh(s: Store, dir: nat, slot: Slot) {
    && dir !in s.markers && slot.runtime !in s.runtimes && Key(slot.presentation.id, slot.generation) !in s.keys
    && forall d :: d in s.markers && s.markers[d].Whole? ==>
         s.markers[d].slot.runtime != slot.runtime
         && (s.markers[d].slot.presentation.id, s.markers[d].slot.generation) != (slot.presentation.id, slot.generation)
  }

  lemma MaterializedExactly(s: Store, dir: nat, slot: Slot)
    ensures var (t, o) := DoMaterialize(s, dir, slot, Finish);
      if Fresh(s, dir, slot) then
        o == Done && t == s.(markers := s.markers[dir := Whole(slot.(phase := Materialized, handoff := None))])
      else o.Refused? && t == s
  {
    assert (exists d :: d in s.markers && s.markers[d].Whole? && Clashes(s.markers[d].slot, slot)) <==>
      !(forall d :: d in s.markers && s.markers[d].Whole? ==> !Clashes(s.markers[d].slot, slot));
  }

  /** The context stands before a marker of this phase. */
  predicate Faces(s: Store, c: Context, phase: SlotPhase) {
    && c.dir in s.markers && s.markers[c.dir].Whole? && c.shellLive && c.managed && c.inWorktree
    && var slot := s.markers[c.dir].slot;
       slot.presentation == c.binding && slot.lease == c.lease && slot.phase == phase
  }

  function Requested(s: Store, c: Context): Request
    requires c.dir in s.markers && s.markers[c.dir].Whole?
  {
    var slot := s.markers[c.dir].slot;
    Request(c.binding, slot.generation, slot.runtime, c.provider, c.lease, c.details)
  }

  /** A preparation is done exactly before a materialized marker whose key and Runtime are unused, for at
      most a minute; it leaves one reservation, and a marker that hands it out. */
  lemma PreparedExactly(s: Store, c: Context, id: nat, token: nat, now: int, expiry: int)
    requires Inv(s)
    ensures var (t, o) := DoPrepare(s, c, id, token, now, expiry, Finish);
      if Faces(s, c, Materialized) && KeyOf(Requested(s, c)) !in s.keys && Requested(s, c).runtime !in s.runtimes
         && id !in s.ops && 0 <= now < expiry <= now + 60_000
      then
        var r := Requested(s, c);
        && o == Done
        && t == s.(ops := s.ops[id := Operation(r, CapabilityIssued, 2, token, expiry, NoEffect, [Reserved])],
                   keys := s.keys[KeyOf(r) := id],
                   runtimes := s.runtimes[r.runtime := RuntimeRow(c.provider, None, None)],
                   markers := s.markers[c.dir := Whole(s.markers[c.dir].slot.(phase := HandoffIssued, handoff := Some(id)))])
      else o.Refused? && t == s
  {
    PrepareKeeps(s, c, id, token, now, expiry, Finish);
    if c.dir in s.markers && s.markers[c.dir].Whole? {
      assert SlotOk(s, s.markers[c.dir].slot);
    }
  }

  /** The marker hands out an operation that was not consumed and that the context stands behind. */
  predicate Offers(s: Store, c: Context, id: nat) {
    && Faces(s, c, HandoffIssued) && s.markers[c.dir].slot.handoff == Some(id)
    && id in s.ops && s.ops[id].phase == CapabilityIssued && s.ops[id].request == Requested(s, c)
  }

  /** A consumption is done exactly for the operation that the marker hands out, by its token and within
      its lifetime; it moves the operation and the marker to ownership, and hands that to the helper. */
  lemma ConsumedExactly(s: Store, c: Context, token: nat, now: int, id: nat)
    requires Inv(s) && Faces(s, c, HandoffIssued) && s.markers[c.dir].slot.handoff == Some(id)
    ensures var (t, o) := DoConsume(s, c, token, now, Finish);
      if Offers(s, c, id) && token == s.ops[id].token && 0 <= now < s.ops[id].expiry then
        && o == Done
        && t == s.(ops := s.ops[id := s.ops[id].(phase := RuntimeOwnedLaunching, revision := s.ops[id].revision + 1,
                                                 trail := [Reserved, Owned])],
                   markers := s.markers[c.dir := Whole(s.markers[c.dir].slot.(phase := SlotOwned))],
                   fences := s.fences + {OwnedFence(Ownership(id, s.markers[c.dir].slot.runtime, s.ops[id].revision + 1))})
      else o.Refused? && t == s
  {
    ConsumeKeeps(s, c, token, now, Finish);
    assert SlotOk(s, s.markers[c.dir].slot);
    assert OpOk(s, id);
  }

  /** The marker is owned, by this operation. */
  predicate OwnedBy(s: Store, dir: nat, phase: SlotPhase, id: nat) {
    dir in s.markers && s.markers[dir].Whole? && s.markers[dir].slot.phase == phase && s.markers[dir].slot.handoff == Some(id)
  }

  /** A launch is proven exactly from its recorded start, by a native provider that was seen and, for
      OpenCode, an observer that answers; or again, once the journal says so. */
  lemma ProvenExactly(s: Store, dir: nat, seen: bool, observerReady: bool, id: nat)
    requires Inv(s) && OwnedBy(s, dir, SlotOwned, id)
    ensures id in s.ops
    ensures var (t, o) := DoProve(s, dir, seen, observerReady, Finish);
      var marked := s.(markers := s.markers[dir := Whole(s.markers[dir].slot.(phase := SlotProven))]);
      if s.ops[id].phase == ProviderExecProven then o == Done && t == marked
      else if s.ops[id].phase == ProviderExecStarted && seen && (s.ops[id].request.provider == Codex || observerReady) then
        o == Done && t == marked.(ops := s.ops[id := Moved(s.ops[id], ProviderExecProven, ExecProven)])
      else o.Refused? && t == s
  {
    assert SlotOk(s, s.markers[dir].slot);
    assert OpOk(s, id);
  }

  /** Proving a marker that is proven changes nothing and succeeds; before the handoff there is nothing
      to prove. */
  lemma ProvenAgain(s: Store, dir: nat, seen: bool, observerReady: bool, stop: Stop)
    requires Inv(s) && dir in s.markers && s.markers[dir].Whole? && s.markers[dir].slot.phase != SlotOwned
    ensures DoProve(s, dir, seen, observerReady, stop).0 == s
    ensures DoProve(s, dir, seen, observerReady, stop).1 == Done <==> s.markers[dir].slot.phase == SlotProven
  {
    assert SlotOk(s, s.markers[dir].slot);
  }

  /** A proven marker is always retired, and no other. */
  lemma RetiredExactly(s: Store, dir: nat)
    requires Inv(s)
    ensures var (t, o) := DoRetire(s, dir, Finish);
      if dir in s.markers && s.markers[dir].Whole? && s.markers[dir].slot.phase == SlotProven then
        o == Done && t == s.(markers := s.markers - {dir})
      else o.Refused? && t == s
  {
    if dir in s.markers && s.markers[dir].Whole? {
      assert SlotOk(s, s.markers[dir].slot);
    }
  }

  // Stops

  /** A step that stops after its commit has done the same and hands nothing on; one that is refused is
      refused whenever it would stop. */
  predicate StopsLike(s: Store, stopped: (Store, Outcome), finished: (Store, Outcome)) {
    if finished.1 == Done then stopped == (finished.0.(fences := s.fences), Died) else stopped == finished
  }

  lemma AdvanceStops(s: Store, c: Context, own: Ownership, a: Advance, stop: Stop)
    requires stop != Finish
    ensures var (t, o, next) := DoAdvance(s, c, own, a, stop);
      var (u, p, _) := DoAdvance(s, c, own, a, Finish);
      next.None? && t == u && u.fences == s.fences && o == if p == Done then Died else p
  {
  }

  /** Every recorder of the helper that stops after its commit leaves the record, and no fence. */
  lemma RecordersStop(s: Store, c: Context, own: Ownership, provider: Provider, session: nat, stop: Stop)
    requires stop != Finish
    ensures StopsLike(s, DoRecordPreparation(s, c, own, stop), DoRecordPreparation(s, c, own, Finish))
    ensures StopsLike(s, DoRecordEffect(s, c, own, provider, stop), DoRecordEffect(s, c, own, provider, Finish))
    ensures StopsLike(s, DoRecordCodexExecStarted(s, c, own, provider, stop),
                      DoRecordCodexExecStarted(s, c, own, provider, Finish))
    ensures StopsLike(s, DoRecordOpencodeExecStarted(s, c, own, session, stop),
                      DoRecordOpencodeExecStarted(s, c, own, session, Finish))
  {
    AdvanceStops(s, c, own, ToPreparation, stop);
    AdvanceStops(s, c, own, ToEffect, stop);
    AdvanceStops(s, c, own, ToExecStarted, stop);
  }

  lemma FailuresStop(s: Store, c: Context, own: Ownership, provider: Provider, fence: Fence, stop: Stop)
    requires stop != Finish
    ensures StopsLike(s, DoRecordRecovery(s, c, fence, stop), DoRecordRecovery(s, c, fence, Finish))
    ensures StopsLike(s, DoRecordKnownAbsent(s, c, own, provider, stop), DoRecordKnownAbsent(s, c, own, provider, Finish))
  {
    AdvanceStops(s, c, fence.own, ToRecovery, stop);
    AdvanceStops(s, c, own, ToKnownAbsent, stop);
  }

  lemma ObservationsStop(s: Store, c: Context, own: Ownership, session: nat, port: nat, version: string, stop: Stop)
    requires stop != Finish
    ensures StopsLike(s, DoRecordSession(s, c, own, session, stop), DoRecordSession(s, c, own, session, Finish))
    ensures StopsLike(s, DoRecordHandle(s, c, own, session, port, version, stop),
                      DoRecordHandle(s, c, own, session, port, version, Finish))
  {
  }

  /** What a step that rewrites a marker leaves of it when it stops: the old one, a truncated one, or the
      new one. */
  function MarkersAfter(before: map<nat, Marker>, after: map<nat, Marker>, dir: nat, stop: Stop): map<nat, Marker> {
    match stop
    case AfterState => before
    case InMarker => before[dir := Torn]
    case AfterMarker | Finish => after
  }

  /** A preparation, a consumption or a proof that stops has committed its journal row, left its marker in
      one of these states, and handed nothing on. */
  predicate StopsInMarker(s: Store, stopped: (Store, Outcome), finished: (Store, Outcome), dir: nat, stop: Stop) {
    if finished.1 == Done then
      stopped == (finished.0.(fences := s.fences, markers := MarkersAfter(s.markers, finished.0.markers, dir, stop)), Died)
    else stopped == finished
  }

  lemma PrepareStopsInMarker(s: Store, c: Context, id: nat, token: nat, now: int, expiry: int, stop: Stop)
    requires Inv(s) && stop != Finish
    ensures StopsInMarker(s, DoPrepare(s, c, id, token, now, expiry, stop),
                          DoPrepare(s, c, id, token, now, expiry, Finish), c.dir, stop)
  {
    PrepareKeeps(s, c, id, token, now, expiry, stop);
    PreparedExactly(s, c, id, token, now, expiry);
    if c.dir in s.markers && s.markers[c.dir].Whole? {
      assert SlotOk(s, s.markers[c.dir].slot);
    }
  }

  lemma ConsumeStopsInMarker(s: Store, c: Context, token: nat, now: int, stop: Stop)
    requires Inv(s) && stop != Finish
    ensures StopsInMarker(s, DoConsume(s, c, token, now, stop), DoConsume(s, c, token, now, Finish), c.dir, stop)
  {
    if c.dir in s.markers && s.markers[c.dir].Whole? {
      var slot := s.markers[c.dir].slot;
      assert SlotOk(s, slot);
      if Faces(s, c, HandoffIssued) && slot.handoff.Some? {
        ConsumedExactly(s, c, token, now, slot.handoff.value);
        assert OpOk(s, slot.handoff.value);
      }
    }
  }

  lemma ProveStopsInMarker(s: Store, dir: nat, seen: bool, observerReady: bool, stop: Stop)
    requires Inv(s) && stop != Finish && dir in s.markers && s.markers[dir].Whole? && s.markers[dir].slot.phase == SlotOwned
    ensures StopsInMarker(s, DoProve(s, dir, seen, observerReady, stop), DoProve(s, dir, seen, observerReady, Finish), dir, stop)
  {
    assert SlotOk(s, s.markers[dir].slot);
  }

  /** A marker that is to be removed is there until its removal, and gone after it. */
  lemma RetireStops(s: Store, dir: nat, stop: Stop)
    requires Inv(s)
    ensures var kept := if stop == AfterState || stop == InMarker then s.markers else s.markers - {dir};
      DoRetire(s, dir, Finish).1 == Done ==>
        DoRetire(s, dir, stop) == (s.(markers := kept), if stop == Finish then Done else Died)
  {
    RetiredExactly(s, dir);
  }

  /** A materialization that stops leaves a marker that is still being made, a truncated one, or the
      finished one. */
  lemma MaterializeStops(s: Store, dir: nat, slot: Slot, stop: Stop)
    requires Fresh(s, dir, slot) && stop != Finish
    ensures var blank := slot.(handoff := None);
      var marker := match stop
        case AfterState => Whole(blank.(phase := Materializing))
        case InMarker => Torn
        case _ => Whole(blank.(phase := Materialized));
      DoMaterialize(s, dir, slot, stop) == (s.(markers := s.markers[dir := marker]), Died)
  {
    MaterializedExactly(s, dir, slot);
  }

  predicate StopsInReconciliation(s: Store, stopped: (Store, Outcome), finished: (Store, Outcome), dir: nat, stop: Stop) {
    if finished.1 != Done then stopped == finished
    else
      var u := finished.0;
      stopped == (u.(markers := if dir in u.markers then MarkersAfter(s.markers, u.markers, dir, stop)
                                else if stop == AfterMarker then u.markers else s.markers), Died)
  }

  lemma ReconcileOperationStops(s: Store, dir: nat, slot: Slot, id: nat, lease: int, serverMissing: bool, stop: Stop)
    requires id in s.ops && dir in s.markers && stop != Finish
    ensures StopsInReconciliation(s, ReconcileOperation(s, dir, slot, id, lease, serverMissing, stop),
                                  ReconcileOperation(s, dir, slot, id, lease, serverMissing, Finish), dir, stop)
  {
  }

  /** A reconciliation that stops has committed what it does to the journal; the marker is then completed
      or removed like any other. */
  lemma ReconcileStops(s: Store, dir: nat, lease: int, serverMissing: bool, stop: Stop)
    requires Indexed(s) && stop != Finish
    ensures StopsInReconciliation(s, DoReconcile(s, dir, lease, serverMissing, stop),
                                  DoReconcile(s, dir, lease, serverMissing, Finish), dir, stop)
  {
    if dir in s.markers && s.markers[dir].Whole? {
      match MarkerOperation(s, s.markers[dir].slot)
      case Ok(Some(id)) => ReconcileOperationStops(s, dir, s.markers[dir].slot, id, lease, serverMissing, stop);
      case _ =>
    }
  }
}
