/** What every run of the onboarding steps keeps, through any stops. */
module OnboardingSafety {
  import opened Bytes
  import opened Providers
  import opened Onboarding

  // What the journal says of each operation

  /** The record of an operation that reached a phase without being fenced for recovery. */
  function Course(phase: Phase, provider: Provider, row: RuntimeRow): seq<Mark> {
    var effect :=
      [Reserved, Owned, Prepared, EffectStarted]
      + (if row.session.Some? then [SessionBound] else []) + (if row.observer.Some? then [HandleRecorded] else []);
    var started := (if provider == Codex then [Reserved, Owned, Prepared] else effect) + [ExecStarted];
    match phase
    case CapabilityIssued => [Reserved]
    case RuntimeOwnedLaunching => [Reserved, Owned]
    case ProviderPreparation => [Reserved, Owned, Prepared]
    case ExternalEffectStarted => effect
    case ProviderExecStarted => started
    case ProviderExecProven => started + [ExecProven]
    case KnownAbsentExec => started + [KnownAbsent]
    case RecoveryRequired => [RecoveryFenced]
    case RolledBack => [Reserved, Cancelled]
  }

  predicate NoSession(row: RuntimeRow) {
    row.session.None? && row.observer.None?
  }

  predicate FullSession(row: RuntimeRow) {
    row.observer.Some? && row.session == Some(row.observer.value.session)
  }

  predicate RowFits(row: RuntimeRow) {
    row.observer.Some? ==> FullSession(row)
  }

  /** The watermark and the session that go with a phase. */
  predicate Fits(phase: Phase, op: Operation, row: RuntimeRow) {
    match phase
    case CapabilityIssued | RuntimeOwnedLaunching | ProviderPreparation =>
      op.watermark == NoEffect && NoSession(row)
    case ExternalEffectStarted =>
      op.request.provider == OpenCode && op.watermark == OpencodeEffectStarted
    case ProviderExecStarted | ProviderExecProven =>
      if op.request.provider == Codex then op.watermark == NoEffect && NoSession(row)
      else op.watermark == OpencodeEffectStarted && FullSession(row)
    case KnownAbsentExec =>
      op.request.provider == Codex && op.watermark == CodexKnownAbsent && NoSession(row)
    case RecoveryRequired | RolledBack => true
  }

  predicate Reached(phase: Phase, op: Operation, row: RuntimeRow) {
    Fits(phase, op, row) && op.trail == Course(phase, op.request.provider, row)
  }

  /** Fenced for recovery out of some phase after the ownership fence. */
  predicate FencedFrom(phase: Phase, op: Operation, row: RuntimeRow) {
    && OwnedPhase(phase) && phase != RecoveryRequired && phase != ProviderExecProven
    && Fits(phase, op, row) && op.trail == Course(phase, op.request.provider, row) + [RecoveryFenced]
  }

  predicate RecordFits(op: Operation, row: RuntimeRow) {
    && RowFits(row) && row.provider == op.request.provider
    && if op.phase == RecoveryRequired then exists q :: FencedFrom(q, op, row) else Reached(op.phase, op, row)
  }

  predicate OpOk(s: Store, id: nat)
    requires id in s.ops
  {
    var op := s.ops[id];
    && KeyOf(op.request) in s.keys && s.keys[KeyOf(op.request)] == id
    && if op.phase == RolledBack then op.trail == [Reserved, Cancelled]
       else op.request.runtime in s.runtimes && RecordFits(op, s.runtimes[op.request.runtime])
  }

  predicate OpsOk(s: Store) {
    forall id :: id in s.ops ==> OpOk(s, id)
  }

  predicate KeysOk(s: Store) {
    forall k :: k in s.keys ==> s.keys[k] in s.ops && KeyOf(s.ops[s.keys[k]].request) == k
  }

  predicate Shares(s: Store, a: nat, b: nat)
    requires a in s.ops && b in s.ops
  {
    s.ops[a].phase != RolledBack && s.ops[b].phase != RolledBack && s.ops[a].request.runtime == s.ops[b].request.runtime
  }

  /** No two live operations share a Runtime. */
  predicate RuntimesApart(s: Store) {
    forall a, b :: a in s.ops && b in s.ops && Shares(s, a, b) ==> a == b
  }

  // What the fences prove

  predicate FenceOk(s: Store, f: Fence) {
    && f.own.op in s.ops
    && var op := s.ops[f.own.op];
       && f.own.revision <= op.revision && OwnedPhase(op.phase)
       && f.own.runtime == op.request.runtime && op.request.runtime in s.runtimes
       && var row := s.runtimes[op.request.runtime];
          match f
          case OwnedFence(_) => true
          case PreparationFence(_, provider) => op.request.provider == provider
          case EffectFence(_) => op.request.provider == OpenCode
          case SessionFence(_, session) => op.request.provider == OpenCode && row.session == Some(session)
          case HandleFence(_, session) =>
            op.request.provider == OpenCode && row.session == Some(session) && row.observer.Some?
          case ExecFence(_, provider) => op.request.provider == provider
  }

  predicate FencesOk(s: Store) {
    forall f :: f in s.fences ==> FenceOk(s, f)
  }

  // How the markers stand to the journal

  predicate SlotOk(s: Store, slot: Slot) {
    var key := Key(slot.presentation.id, slot.generation);
    match slot.phase
    case Materializing => slot.handoff.None? && key !in s.keys
    case Materialized =>
      && slot.handoff.None?
      && (key in s.keys ==>
            && s.keys[key] in s.ops && SameIdentity(s.ops[s.keys[key]].request, slot)
            && !OwnedPhase(s.ops[s.keys[key]].phase))
    case HandoffIssued | SlotOwned | SlotProven =>
      && slot.handoff.Some? && slot.handoff.value in s.ops
      && var op := s.ops[slot.handoff.value];
         && SameIdentity(op.request, slot)
         && (slot.phase == SlotOwned ==> OwnedPhase(op.phase))
         && (slot.phase == SlotProven ==> op.phase == ProviderExecProven)
  }

  predicate MarkersOk(s: Store) {
    forall d :: d in s.markers && s.markers[d].Whole? ==> SlotOk(s, s.markers[d].slot)
  }

  predicate MarkersApart(markers: map<nat, Marker>) {
    forall a, b ::
      (a in markers && b in markers && markers[a].Whole? && markers[b].Whole? && Clashes(markers[a].slot, markers[b].slot))
      ==> a == b
  }

  predicate Inv(s: Store) {
    && s.targets.Keys <= s.ops.Keys && KeysOk(s) && OpsOk(s) && RuntimesApart(s)
    && FencesOk(s) && MarkersOk(s) && MarkersApart(s.markers)
  }

  // Frames: what changing one thing leaves alone

  /** A row only gains a session and an observer. */
  predicate RowGrows(a: RuntimeRow, b: RuntimeRow) {
    && a.provider == b.provider
    && (a.session.Some? ==> b.session == a.session) && (a.observer.Some? ==> b.observer == a.observer)
  }

  /** One operation moved, together with its own Runtime row. */
  ghost predicate MovesOnly(s: Store, t: Store, id: nat) {
    && id in s.ops && id in t.ops && t.ops == s.ops[id := t.ops[id]]
    && t.ops[id].request == s.ops[id].request && s.ops[id].revision <= t.ops[id].revision
    && t.targets.Keys <= s.targets.Keys + {id} && t.keys == s.keys && t.markers == s.markers && t.fences == s.fences
    && (forall r :: r != s.ops[id].request.runtime ==>
          (r in s.runtimes <==> r in t.runtimes) && (r in s.runtimes ==> t.runtimes[r] == s.runtimes[r]))
  }

  /** The markers and fences that rest on the operation still do. */
  predicate KeepsPromises(s: Store, t: Store, id: nat)
    requires id in s.ops && id in t.ops
  {
    var op, moved := s.ops[id], t.ops[id];
    && op.phase != RolledBack
    && (OwnedPhase(op.phase) ==>
          OwnedPhase(moved.phase) && op.request.runtime in s.runtimes && op.request.runtime in t.runtimes
          && RowGrows(s.runtimes[op.request.runtime], t.runtimes[op.request.runtime]))
    && (op.phase == ProviderExecProven ==> moved.phase == ProviderExecProven)
    && (OwnedPhase(moved.phase) ==> OwnedPhase(op.phase) || NoEarlyMarker(s, KeyOf(op.request)))
  }

  predicate NoEarlyMarker(s: Store, key: Key) {
    forall d :: d in s.markers && s.markers[d].Whole? && s.markers[d].slot.phase == Materialized ==>
      Key(s.markers[d].slot.presentation.id, s.markers[d].slot.generation) != key
  }

  lemma OthersKeepOk(s: Store, t: Store, id: nat)
    requires Inv(s) && MovesOnly(s, t, id) && s.ops[id].phase != RolledBack && OpOk(t, id)
    ensures OpsOk(t) && KeysOk(t) && RuntimesApart(t)
  {
    forall x | x in t.ops ensures OpOk(t, x) {
      if x != id {
        assert OpOk(s, x) && t.ops[x] == s.ops[x];
        assert s.ops[x].phase != RolledBack ==> !Shares(s, x, id);
      }
    }
    forall a, b | a in t.ops && b in t.ops && Shares(t, a, b) ensures a == b {
      assert Shares(s, a, b);
    }
  }

  lemma FencesStay(s: Store, t: Store, id: nat)
    requires Inv(s) && MovesOnly(s, t, id) && KeepsPromises(s, t, id)
    ensures FencesOk(t)
  {
    forall f | f in t.fences ensures FenceOk(t, f) {
      assert FenceOk(s, f);
      if f.own.op != id {
        assert OpOk(s, f.own.op) && OpOk(s, id);
        assert !Shares(s, f.own.op, id);
      }
    }
  }

  lemma MarkersStay(s: Store, t: Store, id: nat)
    requires Inv(s) && MovesOnly(s, t, id) && KeepsPromises(s, t, id)
    ensures MarkersOk(t)
  {
    forall d | d in t.markers && t.markers[d].Whole? ensures SlotOk(t, t.markers[d].slot) {
      var slot := s.markers[d].slot;
      assert SlotOk(s, slot);
      if slot.phase == Materialized {
        var key := Key(slot.presentation.id, slot.generation);
        if key in s.keys && s.keys[key] == id {
          assert KeyOf(s.ops[id].request) == key;
        }
      }
    }
  }

  lemma OneMoves(s: Store, t: Store, id: nat)
    requires Inv(s) && MovesOnly(s, t, id) && KeepsPromises(s, t, id) && OpOk(t, id)
    ensures Inv(t)
  {
    OthersKeepOk(s, t, id);
    FencesStay(s, t, id);
    MarkersStay(s, t, id);
  }

  lemma HoldKeeps(s: Store, f: Fence)
    requires Inv(s) && FenceOk(s, f)
    ensures Inv(Hold(s, f))
  {
    var t := Hold(s, f);
    forall g | g in t.fences ensures FenceOk(t, g) {
      assert g == f || g in s.fences;
    }
    forall id | id in t.ops ensures OpOk(t, id) {
      assert OpOk(s, id);
    }
    forall a, b | a in t.ops && b in t.ops && Shares(t, a, b) ensures a == b {
      assert Shares(s, a, b);
    }
    forall d | d in t.markers && t.markers[d].Whole? ensures SlotOk(t, t.markers[d].slot) {
      assert SlotOk(s, s.markers[d].slot);
    }
  }

  /** Only the markers changed. */
  lemma MarkersChange(s: Store, t: Store)
    requires Inv(s) && t == s.(markers := t.markers) && MarkersApart(t.markers)
    requires forall d :: d in t.markers && t.markers[d].Whole? ==> SlotOk(s, t.markers[d].slot)
    ensures Inv(t)
  {
    forall id | id in t.ops ensures OpOk(t, id) {
      assert OpOk(s, id);
    }
    forall a, b | a in t.ops && b in t.ops && Shares(t, a, b) ensures a == b {
      assert Shares(s, a, b);
    }
    forall f | f in t.fences ensures FenceOk(t, f) {
      assert FenceOk(s, f);
    }
    forall d | d in t.markers && t.markers[d].Whole? ensures SlotOk(t, t.markers[d].slot) {
      assert SlotOk(s, t.markers[d].slot);
    }
  }

  lemma UpdateKeeps(s: Store, dir: nat, slot: Slot, stop: Stop)
    requires Inv(s) && dir in s.markers && s.markers[dir].Whole? && SlotOk(s, slot)
    requires forall other :: Clashes(other, slot) ==> Clashes(other, s.markers[dir].slot)
    requires forall other :: Clashes(slot, other) ==> Clashes(s.markers[dir].slot, other)
    ensures Inv(UpdateMarker(s, dir, slot, stop))
  {
    if stop != AfterState {
      MarkersChange(s, UpdateMarker(s, dir, slot, stop));
    }
  }

  lemma RemoveKeeps(s: Store, dir: nat, stop: Stop)
    requires Inv(s)
    ensures Inv(RemoveMarker(s, dir, stop))
  {
    MarkersChange(s, RemoveMarker(s, dir, stop));
  }
}
