/** What an onboarding step that stopped between its two writes leaves behind, and what becomes of
    it. */
module OnboardingCrashes {
  import opened Bytes
  import opened Providers
  import opened Onboarding
  import opened OnboardingSafety
  import opened OnboardingRuns

  // Crashes between the two writes

  /** A consumption whose marker write never happened is repaired, without touching the journal. */
  lemma StoppedConsumeIsRepaired(s: Store, c: Context, token: nat, now: int, lease: int, serverMissing: bool)
    requires Inv(s) && DoConsume(s, c, token, now, AfterState).1 == Died
    ensures var t := DoConsume(s, c, token, now, AfterState).0;
      && c.dir in s.markers && s.markers[c.dir].Whole? && t.markers == s.markers
      && DoReconcile(t, c.dir, lease, serverMissing, Finish)
         == (t.(markers := t.markers[c.dir := Whole(s.markers[c.dir].slot.(phase := SlotOwned))]), Done)
  {
    var (slot, r) := RequestFromContext(s, c).value;
    ConsumeJournalKeeps(s, c, slot, r, token, now);
    assert SlotOk(s, slot);
  }

  /** What a preparation leaves behind when it stops between its two writes. */
  predicate StoppedPrepare(s: Store, c: Context, id: nat) {
    && c.dir in s.markers && s.markers[c.dir].Whole? && s.markers[c.dir].slot.phase == Materialized
    && (var key := Key(s.markers[c.dir].slot.presentation.id, s.markers[c.dir].slot.generation);
        key in s.keys && s.keys[key] == id)
    && id in s.ops && s.ops[id].phase == CapabilityIssued && s.ops[id].request.lease == c.lease && id !in s.targets
  }

  lemma PrepareStops(s: Store, c: Context, id: nat, token: nat, now: int, expiry: int)
    requires Inv(s) && DoPrepare(s, c, id, token, now, expiry, AfterState).1 == Died
    ensures var t := DoPrepare(s, c, id, token, now, expiry, AfterState).0; Inv(t) && StoppedPrepare(t, c, id)
  {
    var (slot, r) := RequestFromContext(s, c).value;
    PrepareKeeps(s, c, id, token, now, expiry, AfterState);
    assert SlotOk(s, slot);
    assert slot.handoff.Some? ==> OpOk(s, slot.handoff.value);
  }

  /** A reservation whose marker write never happened is refused to its own presentation: neither
      consuming nor preparing again changes anything ... */
  lemma StoppedPrepareIsRefused(s: Store, c: Context, id: nat, token: nat, now: int, expiry: int, other: nat, stop: Stop)
    requires Inv(s) && StoppedPrepare(s, c, id)
    ensures DoConsume(s, c, token, now, stop).1.Refused? && DoConsume(s, c, token, now, stop).0 == s
    ensures DoPrepare(s, c, other, token, now, expiry, stop).1.Refused? && DoPrepare(s, c, other, token, now, expiry, stop).0 == s
  {
    ConsumeKeeps(s, c, token, now, stop);
    PrepareKeeps(s, c, other, token, now, expiry, stop);
  }

  /** ... and once its shell is gone it is cancelled and its marker removed. */
  lemma StoppedPrepareIsTakenBack(s: Store, c: Context, id: nat)
    requires Inv(s) && StoppedPrepare(s, c, id)
    ensures var (t, o) := DoReconcile(s, c.dir, c.lease, true, Finish);
      o == Done && c.dir !in t.markers && id in t.ops && t.ops[id].phase == RolledBack
  {
    assert OpOk(s, id) && SlotOk(s, s.markers[c.dir].slot);
    assert MarkerOperation(s, s.markers[c.dir].slot) == Ok(Some(id));
    assert CancelOperation(s, id, c.lease).Ok?;
  }

  // A reservation nobody hands out

  /** No marker names the operation. */
  predicate NotHandedOut(s: Store, id: nat) {
    forall d :: d in s.markers && s.markers[d].Whole? ==> s.markers[d].slot.handoff != Some(id)
  }

  /** An operation that was not consumed and that no marker hands out. */
  predicate Unhanded(s: Store, id: nat) {
    id in s.ops && !OwnedPhase(s.ops[id].phase) && NotHandedOut(s, id)
  }

  /** Unchanged, or cancelled. */
  predicate OnlyCancelled(before: Operation, after: Operation) {
    after == before || (before.phase == CapabilityIssued && after == Moved(before, RolledBack, Cancelled))
  }

  predicate StaysUnhanded(s: Store, t: Store, id: nat)
    requires id in s.ops
  {
    Unhanded(t, id) && OnlyCancelled(s.ops[id], t.ops[id])
  }

  /** Nothing in the store leads to the operation: no fence is its, and a marker that offers a handoff
      offers the operation of its own key, which is another one. */
  predicate Isolated(s: Store, id: nat) {
    && Unhanded(s, id) && Indexed(s)
    && (forall f :: f in s.fences ==> f.own.op != id)
    && (forall d :: d in s.markers && s.markers[d].Whole? && s.markers[d].slot.phase == HandoffIssued ==>
          OffersAnother(s, s.markers[d].slot, id))
  }

  predicate OffersAnother(s: Store, slot: Slot, id: nat) {
    var key := Key(slot.presentation.id, slot.generation);
    key in s.keys ==> s.keys[key] != id
  }

  lemma InvIsolates(s: Store, id: nat)
    requires Inv(s) && Unhanded(s, id)
    ensures Isolated(s, id)
  {
    forall f | f in s.fences ensures f.own.op != id {
      assert FenceOk(s, f);
    }
    forall d | d in s.markers && s.markers[d].Whole? && s.markers[d].slot.phase == HandoffIssued
      ensures OffersAnother(s, s.markers[d].slot, id)
    {
      assert SlotOk(s, s.markers[d].slot) && OpOk(s, s.markers[d].slot.handoff.value);
    }
  }

  lemma PrepareStaysUnhanded(s: Store, c: Context, other: nat, token: nat, now: int, expiry: int, stop: Stop, id: nat)
    requires Isolated(s, id)
    ensures StaysUnhanded(s, DoPrepare(s, c, other, token, now, expiry, stop).0, id)
  {
  }

  lemma ConsumeStaysUnhanded(s: Store, c: Context, token: nat, now: int, stop: Stop, id: nat)
    requires Isolated(s, id)
    ensures StaysUnhanded(s, DoConsume(s, c, token, now, stop).0, id)
  {
  }

  lemma AdvanceStaysUnhanded(s: Store, c: Context, f: Fence, a: Advance, stop: Stop, id: nat)
    requires Isolated(s, id) && f in s.fences
    ensures StaysUnhanded(s, DoAdvance(s, c, f.own, a, stop).0, id)
  {
  }

  lemma SessionStaysUnhanded(s: Store, c: Context, own: Ownership, session: nat, stop: Stop, id: nat)
    requires Isolated(s, id)
    ensures StaysUnhanded(s, DoRecordSession(s, c, own, session, stop).0, id)
  {
  }

  lemma HandleStaysUnhanded(s: Store, c: Context, own: Ownership, session: nat, port: nat, version: string, stop: Stop, id: nat)
    requires Isolated(s, id)
    ensures StaysUnhanded(s, DoRecordHandle(s, c, own, session, port, version, stop).0, id)
  {
  }

  lemma HelperStaysUnhanded(s: Store, e: Event, id: nat)
    requires Isolated(s, id) && HelperEvent(e)
    ensures StaysUnhanded(s, Step(s, e).0, id)
  {
    match e
    case RecordPreparation(c, own, stop) =>
      if OwnedFence(own) in s.fences {
        AdvanceStaysUnhanded(s, c, OwnedFence(own), ToPreparation, stop, id);
      }
    case RecordEffect(c, own, provider, stop) =>
      if PreparationFence(own, provider) in s.fences {
        AdvanceStaysUnhanded(s, c, PreparationFence(own, provider), ToEffect, stop, id);
      }
    case RecordSession(c, own, session, stop) => SessionStaysUnhanded(s, c, own, session, stop, id);
    case RecordHandle(c, own, session, port, version, stop) => HandleStaysUnhanded(s, c, own, session, port, version, stop, id);
    case RecordCodexExecStarted(c, own, provider, stop) =>
      if PreparationFence(own, provider) in s.fences {
        AdvanceStaysUnhanded(s, c, PreparationFence(own, provider), ToExecStarted, stop, id);
      }
    case RecordOpencodeExecStarted(c, own, session, stop) =>
      if HandleFence(own, session) in s.fences {
        AdvanceStaysUnhanded(s, c, HandleFence(own, session), ToExecStarted, stop, id);
      }
    case RecordRecovery(c, fence, stop) =>
      if fence in s.fences {
        AdvanceStaysUnhanded(s, c, fence, ToRecovery, stop, id);
      }
    case RecordKnownAbsent(c, own, provider, stop) =>
      if ExecFence(own, provider) in s.fences {
        AdvanceStaysUnhanded(s, c, ExecFence(own, provider), ToKnownAbsent, stop, id);
      }
    case KillHelper =>
  }

  lemma ReconciledStaysUnhanded(s: Store, dir: nat, slot: Slot, x: nat, lease: int, serverMissing: bool, stop: Stop, id: nat)
    requires Isolated(s, id) && dir in s.markers && s.markers[dir] == Whole(slot) && x in s.ops
    ensures StaysUnhanded(s, ReconcileOperation(s, dir, slot, x, lease, serverMissing, stop).0, id)
  {
    match CancelOperation(s, x, lease)
    case Err(_) =>
    case Ok(t) => assert OnlyCancelled(s.ops[id], t.ops[id]) && NotHandedOut(t, id);
  }

  lemma ReconcileStaysUnhanded(s: Store, dir: nat, lease: int, serverMissing: bool, stop: Stop, id: nat)
    requires Isolated(s, id)
    ensures StaysUnhanded(s, DoReconcile(s, dir, lease, serverMissing, stop).0, id)
  {
    if dir in s.markers && s.markers[dir].Whole? {
      var slot := s.markers[dir].slot;
      match MarkerOperation(s, slot)
      case Ok(Some(x)) => ReconciledStaysUnhanded(s, dir, slot, x, lease, serverMissing, stop, id);
      case _ =>
    }
  }

  lemma ProveStaysUnhanded(s: Store, dir: nat, seen: bool, observerReady: bool, stop: Stop, id: nat)
    requires Isolated(s, id)
    ensures StaysUnhanded(s, DoProve(s, dir, seen, observerReady, stop).0, id)
  {
  }

  lemma StepStaysUnhanded(s: Store, e: Event, id: nat)
    requires Isolated(s, id)
    ensures StaysUnhanded(s, Step(s, e).0, id)
  {
    match e
    case Materialize(dir, slot, stop) =>
    case Prepare(c, other, token, now, expiry, stop) => PrepareStaysUnhanded(s, c, other, token, now, expiry, stop, id);
    case Consume(c, token, now, stop) => ConsumeStaysUnhanded(s, c, token, now, stop, id);
    case Reconcile(dir, lease, serverMissing, stop) => ReconcileStaysUnhanded(s, dir, lease, serverMissing, stop, id);
    case Prove(dir, seen, observerReady, stop) => ProveStaysUnhanded(s, dir, seen, observerReady, stop, id);
    case Retire(dir, stop) =>
    case _ => HelperStaysUnhanded(s, e, id);
  }

  lemma {:induction false} RunStaysUnhanded(s: Store, events: seq<Event>, id: nat)
    requires Inv(s) && Unhanded(s, id)
    ensures StaysUnhanded(s, Run(s, events), id)
    decreases |events|
  {
    if events != [] {
      StepKeeps(s, events[0]);
      InvIsolates(s, id);
      StepStaysUnhanded(s, events[0], id);
      RunStaysUnhanded(Step(s, events[0]).0, events[1..], id);
    }
  }

  /** A preparation that stopped before its marker was whole issued a capability that is never
      consumed: whatever anybody does afterwards, in any context, with any token and any fence, its
      operation stays as it is or is cancelled. */
  lemma StoppedPrepareIsNeverConsumed(s: Store, c: Context, id: nat, token: nat, now: int, expiry: int, stop: Stop,
                                      later: seq<Event>)
    requires Inv(s) && (stop == AfterState || stop == InMarker)
    requires DoPrepare(s, c, id, token, now, expiry, stop).1 == Died
    ensures var t := DoPrepare(s, c, id, token, now, expiry, stop).0;
      && Inv(t) && id in t.ops && id in Run(t, later).ops
      && OnlyCancelled(t.ops[id], Run(t, later).ops[id])
      && Run(t, later).ops[id].phase in {CapabilityIssued, RolledBack}
      && Owned !in Run(t, later).ops[id].trail
  {
    var t := DoPrepare(s, c, id, token, now, expiry, stop).0;
    PrepareKeeps(s, c, id, token, now, expiry, stop);
    assert NotHandedOut(s, id) by {
      forall d | d in s.markers && s.markers[d].Whole? ensures s.markers[d].slot.handoff != Some(id) {
        assert SlotOk(s, s.markers[d].slot);
      }
    }
    RunStaysUnhanded(t, later, id);
    TrailOf(Run(t, later), id);
  }

  /** The whole course of a preparation that stopped between its writes: its presentation is refused
      until reconciliation takes it back, and then the capability is gone for good. */
  lemma StoppedPrepareEnds(s: Store, c: Context, id: nat, token: nat, now: int, expiry: int, later: seq<Event>)
    requires Inv(s) && DoPrepare(s, c, id, token, now, expiry, AfterState).1 == Died
    ensures var t := DoPrepare(s, c, id, token, now, expiry, AfterState).0;
      var u := DoReconcile(t, c.dir, c.lease, true, Finish).0;
      && Inv(t) && DoReconcile(t, c.dir, c.lease, true, Finish).1 == Done && Inv(u)
      && c.dir !in u.markers && id in u.ops && id in Run(u, later).ops
      && u.ops[id].phase == RolledBack && Run(u, later).ops[id] == u.ops[id]
  {
    PrepareStops(s, c, id, token, now, expiry);
    var t := DoPrepare(s, c, id, token, now, expiry, AfterState).0;
    StoppedPrepareIsTakenBack(t, c, id);
    ReconcileKeeps(t, c.dir, c.lease, true, Finish);
    var u := DoReconcile(t, c.dir, c.lease, true, Finish).0;
    StoppedPrepareIsUnhanded(t, c, id);
    InvIsolates(t, id);
    ReconcileStaysUnhanded(t, c.dir, c.lease, true, Finish, id);
    RunStaysUnhanded(u, later, id);
  }

  lemma StoppedPrepareIsUnhanded(s: Store, c: Context, id: nat)
    requires Inv(s) && StoppedPrepare(s, c, id)
    ensures Unhanded(s, id)
  {
    forall d | d in s.markers && s.markers[d].Whole? ensures s.markers[d].slot.handoff != Some(id) {
      assert SlotOk(s, s.markers[d].slot) && OpOk(s, id);
      assert SlotOk(s, s.markers[c.dir].slot);
      assert d != c.dir ==> !Clashes(s.markers[d].slot, s.markers[c.dir].slot);
    }
  }

  // A truncated marker

  /** The helper's steps never touch a marker. */
  lemma HelperKeepsMarkers(s: Store, e: Event)
    requires Indexed(s) && HelperEvent(e)
    ensures Step(s, e).0.markers == s.markers
  {
    match e
    case RecordPreparation(c, own, stop) => AdvanceKeepsMarkers(s, c, own, ToPreparation, stop);
    case RecordEffect(c, own, _, stop) => AdvanceKeepsMarkers(s, c, own, ToEffect, stop);
    case RecordSession(c, own, session, stop) => SessionKeepsMarkers(s, c, own, session, stop);
    case RecordHandle(c, own, session, port, version, stop) => HandleKeepsMarkers(s, c, own, session, port, version, stop);
    case RecordCodexExecStarted(c, own, _, stop) => AdvanceKeepsMarkers(s, c, own, ToExecStarted, stop);
    case RecordOpencodeExecStarted(c, own, _, stop) => AdvanceKeepsMarkers(s, c, own, ToExecStarted, stop);
    case RecordRecovery(c, fence, stop) => AdvanceKeepsMarkers(s, c, fence.own, ToRecovery, stop);
    case RecordKnownAbsent(c, own, _, stop) => AdvanceKeepsMarkers(s, c, own, ToKnownAbsent, stop);
    case _ =>
  }

  lemma SessionKeepsMarkers(s: Store, c: Context, own: Ownership, session: nat, stop: Stop)
    ensures DoRecordSession(s, c, own, session, stop).0.markers == s.markers
  {
  }

  lemma HandleKeepsMarkers(s: Store, c: Context, own: Ownership, session: nat, port: nat, version: string, stop: Stop)
    ensures DoRecordHandle(s, c, own, session, port, version, stop).0.markers == s.markers
  {
  }

  lemma AdvanceKeepsMarkers(s: Store, c: Context, own: Ownership, a: Advance, stop: Stop)
    ensures DoAdvance(s, c, own, a, stop).0.markers == s.markers
  {
  }

  lemma TornHelperIsRefused(s: Store, d: nat, e: Event)
    requires Indexed(s) && d in s.markers && s.markers[d].Torn? && HelperEvent(e) && !e.KillHelper? && e.c.dir == d
    ensures Step(s, e).0 == s && Step(s, e).1.Refused?
  {
  }

  lemma TornStays(s: Store, d: nat, e: Event)
    requires Indexed(s) && d in s.markers && s.markers[d].Torn?
    ensures d in Step(s, e).0.markers && Step(s, e).0.markers[d].Torn?
  {
    match e
    case Materialize(dir, slot, stop) =>
    case Prepare(c, id, token, now, expiry, stop) => PrepareKeepsTorn(s, d, c, id, token, now, expiry, stop);
    case Consume(c, token, now, stop) => ConsumeKeepsTorn(s, d, c, token, now, stop);
    case Reconcile(dir, lease, serverMissing, stop) => ReconcileKeepsTorn(s, d, dir, lease, serverMissing, stop);
    case Prove(dir, seen, observerReady, stop) => ProveKeepsTorn(s, d, dir, seen, observerReady, stop);
    case Retire(dir, stop) =>
    case _ => HelperKeepsMarkers(s, e);
  }

  /** A marker that was truncated stays so, and every call of its directory is refused and changes
      nothing: the broker's, the helper's, reconciliation's and another materialization. */
  lemma TornIsRefused(s: Store, d: nat, e: Event)
    requires Indexed(s) && d in s.markers && s.markers[d].Torn?
    ensures d in Step(s, e).0.markers && Step(s, e).0.markers[d].Torn?
    ensures (e.Prepare? || e.Consume?) && e.c.dir == d ==> Step(s, e) == (s, Refused(MarkerMalformed))
    ensures (e.Reconcile? || e.Prove? || e.Retire?) && e.dir == d ==> Step(s, e) == (s, Refused(MarkerMalformed))
    ensures e.Materialize? && e.dir == d ==> Step(s, e) == (s, Refused(CandidateInUse))
    ensures HelperEvent(e) && !e.KillHelper? && e.c.dir == d ==> Step(s, e).0 == s && Step(s, e).1.Refused?
  {
    TornStays(s, d, e);
    if HelperEvent(e) && !e.KillHelper? && e.c.dir == d {
      TornHelperIsRefused(s, d, e);
    }
  }

  lemma PrepareKeepsTorn(s: Store, d: nat, c: Context, id: nat, token: nat, now: int, expiry: int, stop: Stop)
    requires Indexed(s) && d in s.markers && s.markers[d].Torn?
    ensures var t := DoPrepare(s, c, id, token, now, expiry, stop).0; d in t.markers && t.markers[d].Torn?
  {
  }

  lemma ConsumeKeepsTorn(s: Store, d: nat, c: Context, token: nat, now: int, stop: Stop)
    requires Indexed(s) && d in s.markers && s.markers[d].Torn?
    ensures var t := DoConsume(s, c, token, now, stop).0; d in t.markers && t.markers[d].Torn?
  {
  }

  lemma ReconcileKeepsTorn(s: Store, d: nat, dir: nat, lease: int, serverMissing: bool, stop: Stop)
    requires Indexed(s) && d in s.markers && s.markers[d].Torn?
    ensures var t := DoReconcile(s, dir, lease, serverMissing, stop).0; d in t.markers && t.markers[d].Torn?
  {
  }

  lemma ProveKeepsTorn(s: Store, d: nat, dir: nat, seen: bool, observerReady: bool, stop: Stop)
    requires Indexed(s) && d in s.markers && s.markers[d].Torn?
    ensures var t := DoProve(s, dir, seen, observerReady, stop).0; d in t.markers && t.markers[d].Torn?
  {
  }

  /** ... over every later run. */
  lemma {:induction false} TornForever(s: Store, events: seq<Event>, d: nat)
    requires Inv(s) && d in s.markers && s.markers[d].Torn?
    ensures d in Run(s, events).markers && Run(s, events).markers[d].Torn?
    decreases |events|
  {
    if events != [] {
      StepKeeps(s, events[0]);
      TornIsRefused(s, d, events[0]);
      TornForever(Step(s, events[0]).0, events[1..], d);
    }
  }
}
