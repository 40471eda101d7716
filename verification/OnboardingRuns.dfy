/** The safety of whole onboarding runs. */
module OnboardingRuns {
  import opened Bytes
  import opened Providers
  import opened Onboarding
  import opened OnboardingSafety

  // Each step keeps the invariant

  /** A marker that a new reservation would contradict: none that is still being made may have its
      key, and a finished one must be its own. */
  predicate MarkersAllow(s: Store, r: Request) {
    forall d :: d in s.markers && s.markers[d].Whole? ==> SlotAllows(s.markers[d].slot, r)
  }

  predicate SlotAllows(slot: Slot, r: Request) {
    Key(slot.presentation.id, slot.generation) == KeyOf(r) ==>
      slot.phase != Materializing && (slot.phase == Materialized ==> SameIdentity(r, slot))
  }

  lemma ReservedOps(s: Store, r: Request, id: nat, token: nat, now: int, expiry: int)
    requires Inv(s) && Reserve(s, r, id, token, now, expiry).Ok?
    ensures var t := Reserve(s, r, id, token, now, expiry).value; KeysOk(t) && OpsOk(t)
  {
    var t := Reserve(s, r, id, token, now, expiry).value;
    forall x | x in t.ops ensures OpOk(t, x) {
      if x in s.ops {
        assert OpOk(s, x);
      }
    }
  }

  lemma ReservedApart(s: Store, r: Request, id: nat, token: nat, now: int, expiry: int)
    requires Inv(s) && Reserve(s, r, id, token, now, expiry).Ok?
    ensures RuntimesApart(Reserve(s, r, id, token, now, expiry).value)
  {
    var t := Reserve(s, r, id, token, now, expiry).value;
    forall a, b | a in t.ops && b in t.ops && Shares(t, a, b) ensures a == b {
      assert a in s.ops ==> OpOk(s, a);
      assert b in s.ops ==> OpOk(s, b);
      assert a in s.ops && b in s.ops ==> Shares(s, a, b);
    }
  }

  lemma ReservedMarkers(s: Store, r: Request, id: nat, token: nat, now: int, expiry: int)
    requires Inv(s) && MarkersAllow(s, r) && Reserve(s, r, id, token, now, expiry).Ok?
    ensures MarkersOk(Reserve(s, r, id, token, now, expiry).value)
  {
    var t := Reserve(s, r, id, token, now, expiry).value;
    forall d | d in t.markers && t.markers[d].Whole? ensures SlotOk(t, t.markers[d].slot) {
      assert SlotOk(s, s.markers[d].slot) && SlotAllows(s.markers[d].slot, r);
    }
  }

  lemma ReserveKeeps(s: Store, r: Request, id: nat, token: nat, now: int, expiry: int)
    requires Inv(s) && MarkersAllow(s, r) && Reserve(s, r, id, token, now, expiry).Ok?
    ensures Inv(Reserve(s, r, id, token, now, expiry).value)
  {
    ReservedOps(s, r, id, token, now, expiry);
    ReservedApart(s, r, id, token, now, expiry);
    ReservedMarkers(s, r, id, token, now, expiry);
    var t := Reserve(s, r, id, token, now, expiry).value;
    forall f | f in t.fences ensures FenceOk(t, f) {
      assert FenceOk(s, f);
    }
  }

  lemma PrepareKeeps(s: Store, c: Context, id: nat, token: nat, now: int, expiry: int, stop: Stop)
    requires Inv(s)
    ensures Inv(DoPrepare(s, c, id, token, now, expiry, stop).0)
    ensures DoPrepare(s, c, id, token, now, expiry, stop).1.Refused? ==>
      DoPrepare(s, c, id, token, now, expiry, stop).0 == s
  {
    if RequestFromContext(s, c).Ok? {
      var (slot, r) := RequestFromContext(s, c).value;
      assert SlotOk(s, slot);
      assert slot.handoff.Some? ==> OpOk(s, slot.handoff.value);
      if Reserve(s, r, id, token, now, expiry).Ok? {
        EarlyMarkersAre(s, c, slot, r);
        ReserveKeeps(s, r, id, token, now, expiry);
        var reserved := Reserve(s, r, id, token, now, expiry).value;
        UpdateKeeps(reserved, c.dir, slot.(phase := HandoffIssued, handoff := Some(id)), stop);
      }
    }
  }

  /** No other marker carries the key of a request. */
  lemma EarlyMarkersAre(s: Store, c: Context, slot: Slot, r: Request)
    requires Inv(s) && RequestFromContext(s, c) == Ok((slot, r))
    ensures forall d ::
      (d in s.markers && s.markers[d].Whole? && Key(s.markers[d].slot.presentation.id, s.markers[d].slot.generation) == KeyOf(r))
      ==> d == c.dir
    ensures SameIdentity(r, slot) && MarkersAllow(s, r)
  {
    forall d | d in s.markers && s.markers[d].Whole?
      && Key(s.markers[d].slot.presentation.id, s.markers[d].slot.generation) == KeyOf(r)
      ensures d == c.dir
    {
      assert Clashes(s.markers[d].slot, s.markers[c.dir].slot);
    }
  }

  lemma ConsumeJournalKeeps(s: Store, c: Context, slot: Slot, r: Request, token: nat, now: int)
    requires Inv(s) && RequestFromContext(s, c) == Ok((slot, r)) && slot.phase == HandoffIssued
    requires ConsumeCapability(s, r, token, now).Ok?
    ensures Inv(ConsumeCapability(s, r, token, now).value.1)
    ensures slot.handoff == Some(ConsumeCapability(s, r, token, now).value.0)
    ensures var (id, t) := ConsumeCapability(s, r, token, now).value;
      && id in s.ops && id in t.ops && OwnedPhase(t.ops[id].phase) && t.markers == s.markers
  {
    var (id, t) := ConsumeCapability(s, r, token, now).value;
    EarlyMarkersAre(s, c, slot, r);
    assert OpOk(s, id) && SlotOk(s, slot) && OpOk(s, slot.handoff.value);
    assert NoEarlyMarker(s, KeyOf(r));
    assert OpOk(t, id);
    OneMoves(s, t, id);
  }

  lemma CompleteKeeps(s: Store, dir: nat, slot: Slot, id: nat, stop: Stop)
    requires Inv(s) && dir in s.markers && s.markers[dir] == Whole(slot) && slot.handoff == Some(id)
    requires slot.phase == HandoffIssued && id in s.ops && OwnedPhase(s.ops[id].phase)
    ensures Inv(CompleteConsume(s, dir, slot, id, stop).0) && !CompleteConsume(s, dir, slot, id, stop).1.Refused?
  {
    assert SlotOk(s, slot) && OpOk(s, id);
    UpdateKeeps(s, dir, slot.(phase := SlotOwned), stop);
    HoldKeeps(UpdateMarker(s, dir, slot.(phase := SlotOwned), stop), OwnedFence(OwnershipOf(s, id)));
  }

  lemma ConsumeGranted(s: Store, c: Context, slot: Slot, r: Request, token: nat, now: int, stop: Stop)
    requires Inv(s) && RequestFromContext(s, c) == Ok((slot, r)) && slot.phase == HandoffIssued
    requires ConsumeCapability(s, r, token, now).Ok?
    ensures Inv(DoConsume(s, c, token, now, stop).0) && !DoConsume(s, c, token, now, stop).1.Refused?
  {
    ConsumeJournalKeeps(s, c, slot, r, token, now);
    var (id, consumed) := ConsumeCapability(s, r, token, now).value;
    CompleteKeeps(consumed, c.dir, slot, id, stop);
  }

  lemma ConsumeKeeps(s: Store, c: Context, token: nat, now: int, stop: Stop)
    requires Inv(s)
    ensures Inv(DoConsume(s, c, token, now, stop).0)
    ensures DoConsume(s, c, token, now, stop).1.Refused? ==> DoConsume(s, c, token, now, stop).0 == s
  {
    if RequestFromContext(s, c).Ok? {
      var (slot, r) := RequestFromContext(s, c).value;
      if slot.phase == HandoffIssued && ConsumeCapability(s, r, token, now).Ok? {
        ConsumeGranted(s, c, slot, r, token, now, stop);
      }
    }
  }

  /** The facts of a journal row that an advance relies on. */
  lemma AdvanceJournalKeeps(s: Store, r: Request, own: Ownership, a: Advance)
    requires Inv(s) && AdvanceJournal(s, r, own, a).Ok?
    requires own.op in s.ops && OwnedPhase(s.ops[own.op].phase)
    requires a == ToExecStarted && r.provider == OpenCode ==>
      r.runtime in s.runtimes && FullSession(s.runtimes[r.runtime])
    ensures var t := AdvanceJournal(s, r, own, a).value;
      && Inv(t) && t.fences == s.fences && own.op in t.ops
      && t.ops[own.op].request == r == s.ops[own.op].request && t.ops[own.op].revision == own.revision + 1
      && OwnedPhase(t.ops[own.op].phase) && own.runtime == r.runtime && t.runtimes == s.runtimes
      && r.runtime in t.runtimes
  {
    var t := AdvanceJournal(s, r, own, a).value;
    assert OpOk(s, own.op);
    AdvancedFits(s.ops[own.op], s.runtimes[r.runtime], a);
    assert OpOk(t, own.op);
    OneMoves(s, t, own.op);
  }

  lemma AdvancedFits(op: Operation, row: RuntimeRow, a: Advance)
    requires RecordFits(op, row) && OwnedPhase(op.phase) && Permits(op.phase, Next(a).0)
    requires a == ToEffect || a == ToKnownAbsent ==> row.provider == if a == ToEffect then OpenCode else Codex
    requires a == ToExecStarted ==>
      && op.watermark == (if op.request.provider == Codex then NoEffect else OpencodeEffectStarted)
      && (op.request.provider == OpenCode ==> FullSession(row))
    ensures RecordFits(Advanced(op, a), row)
  {
    var moved := Advanced(op, a);
    match a
    case ToPreparation => assert Reached(ProviderPreparation, moved, row);
    case ToEffect => assert Reached(ExternalEffectStarted, moved, row);
    case ToExecStarted => assert Reached(ProviderExecStarted, moved, row);
    case ToRecovery => assert FencedFrom(op.phase, moved, row);
    case ToKnownAbsent => assert Reached(KnownAbsentExec, moved, row);
  }

  /** A helper step that advances the journal, whatever fence it then holds. */
  lemma DoAdvanceKeeps(s: Store, c: Context, f: Fence, a: Advance, stop: Stop)
    requires Inv(s) && f in s.fences
    requires a == ToExecStarted && s.ops[f.own.op].request.provider == OpenCode ==> f.HandleFence?
    ensures var (t, outcome, next) := DoAdvance(s, c, f.own, a, stop);
      && Inv(t) && (outcome.Refused? ==> t == s && next.None?)
      && (next.Some? ==>
            && next.value.op in t.ops && t.ops[next.value.op].request == s.ops[f.own.op].request
            && t.ops[next.value.op].request.provider == c.provider && OwnedPhase(t.ops[next.value.op].phase)
            && FenceOk(t, OwnedFence(next.value))
            && (a == ToEffect ==> c.provider == OpenCode))
  {
    assert FenceOk(s, f) && OpOk(s, f.own.op);
    if RequestFromContext(s, c).Ok? {
      var r := RequestFromContext(s, c).value.1;
      if AdvanceJournal(s, r, f.own, a).Ok? {
        AdvanceJournalKeeps(s, r, f.own, a);
      }
    }
  }

  lemma RecordPreparationKeeps(s: Store, c: Context, own: Ownership, stop: Stop)
    requires Inv(s)
    ensures var (t, o) := DoRecordPreparation(s, c, own, stop); Inv(t) && (o.Refused? ==> t == s)
  {
    if OwnedFence(own) in s.fences {
      DoAdvanceKeeps(s, c, OwnedFence(own), ToPreparation, stop);
      var (t, _, next) := DoAdvance(s, c, own, ToPreparation, stop);
      if next.Some? {
        HoldKeeps(t, PreparationFence(next.value, c.provider));
      }
    }
  }

  lemma RecordEffectKeeps(s: Store, c: Context, own: Ownership, provider: Provider, stop: Stop)
    requires Inv(s)
    ensures var (t, o) := DoRecordEffect(s, c, own, provider, stop); Inv(t) && (o.Refused? ==> t == s)
  {
    if PreparationFence(own, provider) in s.fences && provider == OpenCode {
      DoAdvanceKeeps(s, c, PreparationFence(own, provider), ToEffect, stop);
      var (t, _, next) := DoAdvance(s, c, own, ToEffect, stop);
      if next.Some? {
        HoldKeeps(t, EffectFence(next.value));
      }
    }
  }

  lemma RecordCodexExecStartedKeeps(s: Store, c: Context, own: Ownership, provider: Provider, stop: Stop)
    requires Inv(s)
    ensures var (t, o) := DoRecordCodexExecStarted(s, c, own, provider, stop); Inv(t) && (o.Refused? ==> t == s)
  {
    if PreparationFence(own, provider) in s.fences && provider == Codex {
      assert FenceOk(s, PreparationFence(own, provider));
      DoAdvanceKeeps(s, c, PreparationFence(own, provider), ToExecStarted, stop);
      var (t, _, next) := DoAdvance(s, c, own, ToExecStarted, stop);
      if next.Some? {
        HoldKeeps(t, ExecFence(next.value, Codex));
      }
    }
  }

  lemma RecordOpencodeExecStartedKeeps(s: Store, c: Context, own: Ownership, session: nat, stop: Stop)
    requires Inv(s)
    ensures var (t, o) := DoRecordOpencodeExecStarted(s, c, own, session, stop); Inv(t) && (o.Refused? ==> t == s)
  {
    if HandleFence(own, session) in s.fences {
      assert FenceOk(s, HandleFence(own, session));
      DoAdvanceKeeps(s, c, HandleFence(own, session), ToExecStarted, stop);
      var (t, _, next) := DoAdvance(s, c, own, ToExecStarted, stop);
      if next.Some? {
        HoldKeeps(t, ExecFence(next.value, OpenCode));
      }
    }
  }

  lemma RecordRecoveryKeeps(s: Store, c: Context, fence: Fence, stop: Stop)
    requires Inv(s)
    ensures var (t, o) := DoRecordRecovery(s, c, fence, stop); Inv(t) && (o.Refused? ==> t == s)
  {
    if fence in s.fences {
      DoAdvanceKeeps(s, c, fence, ToRecovery, stop);
    }
  }

  lemma RecordKnownAbsentKeeps(s: Store, c: Context, own: Ownership, provider: Provider, stop: Stop)
    requires Inv(s)
    ensures var (t, o) := DoRecordKnownAbsent(s, c, own, provider, stop); Inv(t) && (o.Refused? ==> t == s)
  {
    if ExecFence(own, provider) in s.fences && provider == Codex {
      DoAdvanceKeeps(s, c, ExecFence(own, provider), ToKnownAbsent, stop);
    }
  }

  /** Noting a session or an observer in an operation that has started its effect. */
  lemma NotedKeeps(s: Store, id: nat, row: RuntimeRow, mark: Mark)
    requires Inv(s) && id in s.ops && s.ops[id].phase == ExternalEffectStarted
    requires s.ops[id].request.runtime in s.runtimes && RowGrows(s.runtimes[s.ops[id].request.runtime], row)
    requires var before := s.runtimes[s.ops[id].request.runtime];
      || (mark == SessionBound && before.session.None? && row == before.(session := row.session) && row.session.Some?)
      || (mark == HandleRecorded && before.session.Some? && before.observer.None?
          && row == before.(observer := row.observer) && FullSession(row))
    ensures Inv(Noted(s, id, row, mark))
    ensures forall f :: f in s.fences ==> FenceOk(Noted(s, id, row, mark), f)
  {
    var t := Noted(s, id, row, mark);
    assert OpOk(s, id);
    assert Reached(ExternalEffectStarted, t.ops[id], row);
    assert OpOk(t, id);
    OneMoves(s, t, id);
  }

  lemma BindSessionKeeps(s: Store, r: Request, own: Ownership, session: nat)
    requires Inv(s) && EffectFence(own) in s.fences && BindSession(s, r, own, session).Ok?
    ensures var t := BindSession(s, r, own, session).value; Inv(t) && FenceOk(t, SessionFence(own, session))
  {
    assert FenceOk(s, EffectFence(own)) && OpOk(s, own.op);
    var row := s.runtimes[own.runtime];
    if row.session.None? {
      NotedKeeps(s, own.op, row.(session := Some(session)), SessionBound);
      assert FenceOk(BindSession(s, r, own, session).value, EffectFence(own));
    }
  }

  lemma RecordSessionKeeps(s: Store, c: Context, own: Ownership, session: nat, stop: Stop)
    requires Inv(s)
    ensures var (t, o) := DoRecordSession(s, c, own, session, stop); Inv(t) && (o.Refused? ==> t == s)
  {
    if EffectFence(own) in s.fences && RequestFromContext(s, c).Ok? {
      var r := RequestFromContext(s, c).value.1;
      if BindSession(s, r, own, session).Ok? {
        BindSessionKeeps(s, r, own, session);
        HoldKeeps(BindSession(s, r, own, session).value, SessionFence(own, session));
      }
    }
  }

  lemma RecordObserverKeeps(s: Store, r: Request, own: Ownership, observer: Observer)
    requires Inv(s) && SessionFence(own, observer.session) in s.fences && RecordObserver(s, r, own, observer).Ok?
    ensures var t := RecordObserver(s, r, own, observer).value; Inv(t) && FenceOk(t, HandleFence(own, observer.session))
  {
    assert FenceOk(s, SessionFence(own, observer.session)) && OpOk(s, own.op);
    var row := s.runtimes[own.runtime];
    if row.observer.None? {
      NotedKeeps(s, own.op, row.(observer := Some(observer)), HandleRecorded);
      assert FenceOk(RecordObserver(s, r, own, observer).value, SessionFence(own, observer.session));
    }
  }

  lemma RecordHandleKeeps(s: Store, c: Context, own: Ownership, session: nat, port: nat, version: string, stop: Stop)
    requires Inv(s)
    ensures var (t, o) := DoRecordHandle(s, c, own, session, port, version, stop); Inv(t) && (o.Refused? ==> t == s)
  {
    if SessionFence(own, session) in s.fences && RequestFromContext(s, c).Ok? {
      var r, observer := RequestFromContext(s, c).value.1, Observer(port, version, session);
      if RecordObserver(s, r, own, observer).Ok? {
        RecordObserverKeeps(s, r, own, observer);
        HoldKeeps(RecordObserver(s, r, own, observer).value, HandleFence(own, session));
      }
    }
  }

  lemma MaterializeKeeps(s: Store, dir: nat, slot: Slot, stop: Stop)
    requires Inv(s)
    ensures var (t, o) := DoMaterialize(s, dir, slot, stop); Inv(t) && (o.Refused? ==> t == s)
  {
    var t := DoMaterialize(s, dir, slot, stop).0;
    if t != s {
      MarkersChange(s, t);
    }
  }

  lemma CancelKeeps(s: Store, id: nat, lease: int)
    requires Inv(s) && id in s.ops && CancelOperation(s, id, lease).Ok?
    ensures Inv(CancelOperation(s, id, lease).value)
    ensures CancelOperation(s, id, lease).value.markers == s.markers
  {
    var t := CancelOperation(s, id, lease).value;
    assert OpOk(s, id);
    assert OpOk(t, id);
    OneMoves(s, t, id);
  }

  lemma RepairKeeps(s: Store, dir: nat, stop: Stop)
    requires Inv(s) && dir in s.markers && s.markers[dir].Whole? && s.markers[dir].slot.phase == HandoffIssued
    requires s.markers[dir].slot.handoff.Some? && s.markers[dir].slot.handoff.value in s.ops
    requires OwnedPhase(s.ops[s.markers[dir].slot.handoff.value].phase)
    ensures Inv(UpdateMarker(s, dir, s.markers[dir].slot.(phase := SlotOwned), stop))
  {
    assert SlotOk(s, s.markers[dir].slot);
    UpdateKeeps(s, dir, s.markers[dir].slot.(phase := SlotOwned), stop);
  }

  lemma TakeBackKeeps(s: Store, id: nat, dir: nat, lease: int, stop: Stop)
    requires Inv(s) && id in s.ops && CancelOperation(s, id, lease).Ok?
    ensures Inv(RemoveMarker(CancelOperation(s, id, lease).value, dir, stop))
  {
    CancelKeeps(s, id, lease);
    RemoveKeeps(CancelOperation(s, id, lease).value, dir, stop);
  }

  lemma ReconcileOperationKeeps(s: Store, dir: nat, slot: Slot, id: nat, lease: int, serverMissing: bool, stop: Stop)
    requires Inv(s) && dir in s.markers && s.markers[dir] == Whole(slot) && id in s.ops
    requires slot.phase == HandoffIssued ==> slot.handoff == Some(id)
    ensures var (t, o) := ReconcileOperation(s, dir, slot, id, lease, serverMissing, stop);
      Inv(t) && (o.Refused? ==> t == s)
  {
    if slot.phase == HandoffIssued && OwnedPhase(s.ops[id].phase) {
      RepairKeeps(s, dir, stop);
    } else if s.ops[id].phase == RolledBack {
      RemoveKeeps(s, dir, stop);
    } else if CancelOperation(s, id, lease).Ok? {
      TakeBackKeeps(s, id, dir, lease, stop);
    }
  }

  lemma ReconcileKeeps(s: Store, dir: nat, lease: int, serverMissing: bool, stop: Stop)
    requires Inv(s)
    ensures var (t, o) := DoReconcile(s, dir, lease, serverMissing, stop); Inv(t) && (o.Refused? ==> t == s)
  {
    if dir in s.markers && s.markers[dir].Whole? {
      var slot := s.markers[dir].slot;
      assert SlotOk(s, slot);
      match MarkerOperation(s, slot)
      case Err(_) =>
      case Ok(None) => RemoveKeeps(s, dir, stop);
      case Ok(Some(id)) => ReconcileOperationKeeps(s, dir, slot, id, lease, serverMissing, stop);
    }
  }

  lemma ProvenKeeps(s: Store, id: nat)
    requires Inv(s) && id in s.ops && s.ops[id].phase == ProviderExecStarted
    ensures Inv(s.(ops := s.ops[id := Moved(s.ops[id], ProviderExecProven, ExecProven)]))
  {
    var t := s.(ops := s.ops[id := Moved(s.ops[id], ProviderExecProven, ExecProven)]);
    assert OpOk(s, id);
    assert Reached(ProviderExecProven, t.ops[id], s.runtimes[s.ops[id].request.runtime]);
    assert OpOk(t, id);
    OneMoves(s, t, id);
  }

  lemma CompletedMarkerKeeps(s: Store, dir: nat, id: nat, stop: Stop)
    requires Inv(s) && dir in s.markers && s.markers[dir].Whole? && s.markers[dir].slot.phase == SlotOwned
    requires s.markers[dir].slot.handoff == Some(id) && id in s.ops && s.ops[id].phase == ProviderExecProven
    ensures Inv(UpdateMarker(s, dir, s.markers[dir].slot.(phase := SlotProven), stop))
  {
    assert SlotOk(s, s.markers[dir].slot);
    UpdateKeeps(s, dir, s.markers[dir].slot.(phase := SlotProven), stop);
  }

  lemma ProveKeeps(s: Store, dir: nat, seen: bool, observerReady: bool, stop: Stop)
    requires Inv(s)
    ensures var (t, o) := DoProve(s, dir, seen, observerReady, stop); Inv(t) && (o.Refused? ==> t == s)
  {
    if dir in s.markers && s.markers[dir].Whole? && s.markers[dir].slot.phase == SlotOwned
      && s.markers[dir].slot.handoff.Some? && s.markers[dir].slot.handoff.value in s.ops
    {
      var id := s.markers[dir].slot.handoff.value;
      if s.ops[id].phase == ProviderExecProven {
        CompletedMarkerKeeps(s, dir, id, stop);
      } else if s.ops[id].phase == ProviderExecStarted {
        ProvenKeeps(s, id);
        CompletedMarkerKeeps(s.(ops := s.ops[id := Moved(s.ops[id], ProviderExecProven, ExecProven)]), dir, id, stop);
      }
    }
  }

  lemma KillKeeps(s: Store)
    requires Inv(s)
    ensures Inv(s.(fences := {}))
  {
    var t := s.(fences := {});
    forall id | id in t.ops ensures OpOk(t, id) {
      assert OpOk(s, id);
    }
    forall a, b | a in t.ops && b in t.ops && Shares(t, a, b) ensures a == b {
      assert Shares(s, a, b);
    }
    forall d | d in t.markers && t.markers[d].Whole? ensures SlotOk(t, t.markers[d].slot) {
      assert SlotOk(s, s.markers[d].slot);
    }
  }

  predicate HelperEvent(e: Event) {
    e.RecordPreparation? || e.RecordEffect? || e.RecordSession? || e.RecordHandle? || e.RecordCodexExecStarted?
    || e.RecordOpencodeExecStarted? || e.RecordRecovery? || e.RecordKnownAbsent? || e.KillHelper?
  }

  lemma HelperStepKeeps(s: Store, e: Event)
    requires Inv(s) && HelperEvent(e)
    ensures Inv(Step(s, e).0)
    ensures Step(s, e).1.Refused? ==> Step(s, e).0 == s
  {
    match e
    case RecordPreparation(c, own, stop) => RecordPreparationKeeps(s, c, own, stop);
    case RecordEffect(c, own, provider, stop) => RecordEffectKeeps(s, c, own, provider, stop);
    case RecordSession(c, own, session, stop) => RecordSessionKeeps(s, c, own, session, stop);
    case RecordHandle(c, own, session, port, version, stop) => RecordHandleKeeps(s, c, own, session, port, version, stop);
    case RecordCodexExecStarted(c, own, provider, stop) => RecordCodexExecStartedKeeps(s, c, own, provider, stop);
    case RecordOpencodeExecStarted(c, own, session, stop) => RecordOpencodeExecStartedKeeps(s, c, own, session, stop);
    case RecordRecovery(c, fence, stop) => RecordRecoveryKeeps(s, c, fence, stop);
    case RecordKnownAbsent(c, own, provider, stop) => RecordKnownAbsentKeeps(s, c, own, provider, stop);
    case KillHelper => KillKeeps(s);
  }

  /** Every step keeps the invariant, and a refused step has changed nothing at all: no call ever
      commits to the journal and is then refused by the marker. */
  lemma StepKeeps(s: Store, e: Event)
    requires Inv(s)
    ensures Inv(Step(s, e).0)
    ensures Step(s, e).1.Refused? ==> Step(s, e).0 == s
  {
    match e
    case Materialize(dir, slot, stop) => MaterializeKeeps(s, dir, slot, stop);
    case Prepare(c, id, token, now, expiry, stop) => PrepareKeeps(s, c, id, token, now, expiry, stop);
    case Consume(c, token, now, stop) => ConsumeKeeps(s, c, token, now, stop);
    case Reconcile(dir, lease, serverMissing, stop) => ReconcileKeeps(s, dir, lease, serverMissing, stop);
    case Prove(dir, seen, observerReady, stop) => ProveKeeps(s, dir, seen, observerReady, stop);
    case Retire(dir, stop) => RemoveKeeps(s, dir, stop);
    case _ => HelperStepKeeps(s, e);
  }

  lemma EmptyKeeps()
    ensures Inv(EMPTY)
  {
  }

  /** A whole run of steps. */
  ghost function Run(s: Store, events: seq<Event>): (t: Store)
    requires Inv(s)
    ensures Inv(t)
    decreases |events|
  {
    if events == [] then s
    else
      StepKeeps(s, events[0]);
      Run(Step(s, events[0]).0, events[1..])
  }

  ghost function After(events: seq<Event>): (t: Store)
    ensures Inv(t)
  {
    EmptyKeeps();
    Run(EMPTY, events)
  }

  // The two stores

  /** The marker never runs ahead of the journal, wherever steps stopped: an issued handoff has its
      reservation, an owned marker a consumed capability, a proven marker a proven launch; each of
      the very Runtime, presentation and generation the marker names. */
  lemma MarkerNeverAhead(events: seq<Event>, d: nat)
    requires var s := After(events);
      d in s.markers && s.markers[d].Whole? && s.markers[d].slot.phase !in {Materializing, Materialized}
    ensures var s := After(events); var slot := s.markers[d].slot;
      && slot.handoff.Some? && slot.handoff.value in s.ops
      && var op := s.ops[slot.handoff.value];
         && SameIdentity(op.request, slot) && |op.trail| > 0 && op.trail[0] == Reserved
         && (slot.phase != HandoffIssued ==> OwnedPhase(op.phase) && |op.trail| > 1 && op.trail[1] == Owned)
         && (slot.phase == SlotProven ==> op.phase == ProviderExecProven && op.trail[|op.trail| - 1] == ExecProven)
  {
    var s := After(events);
    var slot := s.markers[d].slot;
    assert SlotOk(s, slot);
    assert OpOk(s, slot.handoff.value);
    TrailOf(s, slot.handoff.value);
  }

  // The trail of one operation

  const OPENCODE_START: seq<Mark> := [Reserved, Owned, Prepared, EffectStarted, SessionBound, HandleRecorded, ExecStarted]
  const CODEX_START: seq<Mark> := [Reserved, Owned, Prepared, ExecStarted]

  /** Owned is recorded at most once, right after the reservation. */
  predicate OwnedOnce(op: Operation) {
    && |op.trail| > 0 && op.trail[0] == Reserved
    && (OwnedPhase(op.phase) ==> |op.trail| > 1 && op.trail[1] == Owned)
    && (forall i :: 0 <= i < |op.trail| && op.trail[i] == Owned ==> OwnedPhase(op.phase) && i == 1)
  }

  /** A start comes after everything its provider has to record first. */
  predicate StartsInOrder(op: Operation) {
    forall i :: 0 <= i < |op.trail| && op.trail[i] == ExecStarted ==>
      op.trail[..i + 1] == if op.request.provider == OpenCode then OPENCODE_START else CODEX_START
  }

  /** Codex never records an effect, and only Codex is ever recorded as absent. */
  predicate EffectsByProvider(op: Operation) {
    forall i :: 0 <= i < |op.trail| ==>
      && (op.trail[i] in {EffectStarted, SessionBound, HandleRecorded} ==> op.request.provider == OpenCode)
      && (op.trail[i] == KnownAbsent ==> op.request.provider == Codex && op.trail[..i] == CODEX_START)
  }

  predicate ProvenAtEnd(op: Operation) {
    op.phase == ProviderExecProven ==>
      |op.trail| > 1 && op.trail[|op.trail| - 1] == ExecProven && op.trail[|op.trail| - 2] == ExecStarted
  }

  predicate ProperTrail(op: Operation) {
    OwnedOnce(op) && StartsInOrder(op) && EffectsByProvider(op) && ProvenAtEnd(op)
  }

  lemma TrailOf(s: Store, id: nat)
    requires Inv(s) && id in s.ops
    ensures ProperTrail(s.ops[id])
  {
    assert OpOk(s, id);
    var op := s.ops[id];
    if op.phase != RolledBack {
      var row := s.runtimes[op.request.runtime];
      if op.phase == RecoveryRequired {
        FencedIsProper(op, row);
      } else {
        CourseIsProper(op, row);
      }
    }
  }

  lemma FencedIsProper(op: Operation, row: RuntimeRow)
    requires op.phase == RecoveryRequired && RecordFits(op, row)
    ensures ProperTrail(op)
  {
    var q :| FencedFrom(q, op, row);
    var before := op.(phase := q, trail := Course(q, op.request.provider, row));
    CourseIsProper(before, row);
    ExtendedIsProper(before, op, RecoveryFenced);
  }

  lemma ExtendedIsProper(before: Operation, op: Operation, mark: Mark)
    requires ProperTrail(before) && OwnedPhase(before.phase) && OwnedPhase(op.phase)
    requires op.request == before.request && op.trail == before.trail + [mark]
    requires mark == RecoveryFenced || mark == ExecProven
    requires op.phase == ProviderExecProven ==> mark == ExecProven && before.trail[|before.trail| - 1] == ExecStarted
    ensures ProperTrail(op)
  {
    var b, t := before.trail, op.trail;
    assert forall i :: 0 <= i < |b| ==> t[i] == b[i];
    assert forall i :: 0 <= i <= |b| ==> t[..i] == b[..i];
  }

  lemma CourseIsProper(op: Operation, row: RuntimeRow)
    requires Reached(op.phase, op, row) && RowFits(row) && op.phase != RecoveryRequired
    ensures ProperTrail(op)
  {
    if op.request.provider == Codex {
      CodexCourse(op, row);
    } else if op.phase == ExternalEffectStarted {
      EffectCourse(op, row);
    } else if op.phase == ProviderExecProven {
      var before := op.(phase := ProviderExecStarted, trail := Course(ProviderExecStarted, OpenCode, row));
      StartedCourse(before, row);
      ExtendedIsProper(before, op, ExecProven);
    } else if op.phase == ProviderExecStarted {
      StartedCourse(op, row);
    } else {
      EarlyCourse(op, row);
    }
  }

  lemma CodexCourse(op: Operation, row: RuntimeRow)
    requires Reached(op.phase, op, row) && op.phase != RecoveryRequired && op.request.provider == Codex
    ensures ProperTrail(op)
  {
    match op.phase
    case ProviderExecStarted => CodexStarted(op);
    case ProviderExecProven =>
      var before := op.(phase := ProviderExecStarted, trail := CODEX_START);
      CodexStarted(before);
      assert op.trail == before.trail + [ExecProven];
      ExtendedIsProper(before, op, ExecProven);
    case KnownAbsentExec => CodexAbsent(op);
    case _ => CodexEarly(op, row);
  }

  lemma CodexStarted(op: Operation)
    requires op.trail == CODEX_START && op.phase == ProviderExecStarted && op.request.provider == Codex
    ensures ProperTrail(op)
  {
    assert op.trail[..4] == op.trail;
  }

  lemma CodexAbsent(op: Operation)
    requires op.trail == CODEX_START + [KnownAbsent] && op.phase == KnownAbsentExec && op.request.provider == Codex
    ensures ProperTrail(op)
  {
    assert op.trail[..4] == CODEX_START;
  }

  lemma CodexEarly(op: Operation, row: RuntimeRow)
    requires Reached(op.phase, op, row) && op.request.provider == Codex
    requires op.phase in {CapabilityIssued, RuntimeOwnedLaunching, ProviderPreparation, RolledBack}
    ensures ProperTrail(op)
  {
  }

  lemma EffectCourse(op: Operation, row: RuntimeRow)
    requires Reached(op.phase, op, row) && op.phase == ExternalEffectStarted
    ensures ProperTrail(op)
  {
  }

  lemma StartedCourse(op: Operation, row: RuntimeRow)
    requires Reached(op.phase, op, row) && op.request.provider == OpenCode && op.phase == ProviderExecStarted
    ensures ProperTrail(op)
  {
    assert op.trail == [Reserved, Owned, Prepared, EffectStarted] + [SessionBound] + [HandleRecorded] + [ExecStarted];
    StartIsProper(op);
  }

  lemma StartIsProper(op: Operation)
    requires op.trail == OPENCODE_START && op.phase == ProviderExecStarted && op.request.provider == OpenCode
    ensures ProperTrail(op)
  {
    assert op.trail[..7] == op.trail;
  }

  lemma EarlyCourse(op: Operation, row: RuntimeRow)
    requires Reached(op.phase, op, row) && op.request.provider == OpenCode
    requires op.phase !in {RecoveryRequired, ExternalEffectStarted, ProviderExecStarted, ProviderExecProven}
    ensures ProperTrail(op)
  {
  }

  /** In every run, with helpers killed anywhere and fences used again: an OpenCode start comes after
      its effect, session and handle records, in this order; a Codex start never follows an effect; no
      OpenCode attempt is ever recorded as absent; and a capability is consumed at most once. */
  lemma FencesAreOrdered(events: seq<Event>, id: nat)
    requires id in After(events).ops
    ensures ProperTrail(After(events).ops[id])
    ensures After(events).ops[id].phase == KnownAbsentExec ==> After(events).ops[id].request.provider == Codex
  {
    TrailOf(After(events), id);
    assert OpOk(After(events), id);
  }
}
