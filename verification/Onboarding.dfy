/** The two stores of an onboarding: the durable journal (src/state/current/onboarding.rs) and the
    presentation markers (src/provisional.rs), with the steps the broker (src/onboarding_broker.rs),
    the helper (src/onboarding_helper.rs) and reconciliation (src/provider_reconcile.rs) take under
    the provisional lease. A step may stop, by death or by a lost lease, after its journal commit, in
    the middle of its marker write, or after it. */
module Onboarding {
  import opened Bytes
  import opened Providers
  import Capability

  // The presentation markers

  datatype Presentation = Presentation(id: nat, revision: nat)

  datatype SlotPhase = Materializing | Materialized | HandoffIssued | SlotOwned | SlotProven

  datatype Slot = Slot(presentation: Presentation, generation: nat, lease: int, runtime: nat,
                       phase: SlotPhase, handoff: Option<nat>)

  /** A marker file; an interrupted rewrite leaves one that no reader accepts. */
  datatype Marker = Torn | Whole(slot: Slot)

  // The journal

  datatype Phase =
    | CapabilityIssued | RuntimeOwnedLaunching | ProviderPreparation | ExternalEffectStarted
    | ProviderExecStarted | ProviderExecProven | KnownAbsentExec | RecoveryRequired | RolledBack

  /** Everything a capability is bound to. `details` stands for the claims that no step takes apart:
      paths, shell identity, argument digest and boot. Equal claims and equal requests are the same
      thing up to a collision of the claim digest. */
  datatype Request = Request(presentation: Presentation, generation: nat, runtime: nat, provider: Provider,
                             lease: int, details: nat)

  datatype Key = Key(presentation: nat, generation: nat)

  function KeyOf(r: Request): Key {
    Key(r.presentation.id, r.generation)
  }

  datatype Watermark = NoEffect | OpencodeEffectStarted | CodexKnownAbsent

  /** What one operation has durably recorded, in order. It is kept for reasoning only. */
  datatype Mark = Reserved | Owned | Prepared | EffectStarted | SessionBound | HandleRecorded | ExecStarted
                | ExecProven | KnownAbsent | RecoveryFenced | Cancelled

  datatype Operation = Operation(request: Request, phase: Phase, revision: nat, token: nat, expiry: int,
                                 watermark: Watermark, trail: seq<Mark>)

  datatype Observer = Observer(port: nat, version: string, session: nat)

  datatype RuntimeRow = RuntimeRow(provider: Provider, session: Option<nat>, observer: Option<Observer>)

  /** What a step hands to the next one, in memory only. */
  datatype Ownership = Ownership(op: nat, runtime: nat, revision: nat)

  datatype Fence =
    | OwnedFence(own: Ownership)
    | PreparationFence(own: Ownership, provider: Provider)
    | EffectFence(own: Ownership)
    | SessionFence(own: Ownership, session: nat)
    | HandleFence(own: Ownership, session: nat)
    | ExecFence(own: Ownership, provider: Provider)

  datatype Store = Store(
    ops: map<nat, Operation>,       // by operation id
    keys: map<Key, nat>,            // the unique index on request keys
    runtimes: map<nat, RuntimeRow>,
    targets: map<nat, Provider>,    // executable targets, by operation id
    markers: map<nat, Marker>,      // by presentation directory
    fences: set<Fence>)             // what the live helper holds

  // What a caller brings

  /** The context of one broker or helper call, with what its probes find. */
  datatype Context = Context(dir: nat, binding: Presentation, lease: int, provider: Provider, details: nat,
                             shellLive: bool, managed: bool, inWorktree: bool)

  datatype Stop = Finish | AfterState | InMarker | AfterMarker

  datatype Refusal =
    | MarkerUnavailable | MarkerMalformed | BindingMismatch | LeaseMismatch | ShellUnavailable
    | CommandRefused | RepositoryUnavailable
    | OperationUnavailable | RequestMismatch | InvalidPreparation | ExistingOperation | StorageRefused
    | MissingOperation | CapabilityRejected | CapabilityExpired | HandoffUnavailable | HandoffMismatch
    | UnknownOperation | MalformedSchema | ConcurrentWrite | TransitionInvalid
    | ProviderMismatch | FenceMissing | Ambiguous | SlotNotReady | CandidateInUse | Unchanged

  datatype Outcome = Done | Refused(reason: Refusal) | Died

  datatype Result<+T> = Ok(value: T) | Err(reason: Refusal)

  /** Rebuilds the request from the live marker, shell, grammar and worktree evidence. */
  function RequestFromContext(s: Store, c: Context): (r: Result<(Slot, Request)>) {
    if c.dir !in s.markers then Err(MarkerUnavailable)
    else
      match s.markers[c.dir]
      case Torn => Err(MarkerMalformed)
      case Whole(slot) =>
        if slot.presentation != c.binding then Err(BindingMismatch)
        else if slot.lease != c.lease then Err(LeaseMismatch)
        else if slot.phase !in {Materialized, HandoffIssued, SlotOwned} || !c.shellLive then Err(ShellUnavailable)
        else if !c.managed then Err(CommandRefused)
        else if !c.inWorktree then Err(RepositoryUnavailable)
        else Ok((slot, Request(slot.presentation, slot.generation, slot.runtime, c.provider, c.lease, c.details)))
  }

  /** Rewrites a marker in place. */
  function UpdateMarker(s: Store, dir: nat, slot: Slot, stop: Stop): Store {
    match stop
    case AfterState => s
    case InMarker => s.(markers := s.markers[dir := Torn])
    case AfterMarker | Finish => s.(markers := s.markers[dir := Whole(slot)])
  }

  function RemoveMarker(s: Store, dir: nat, stop: Stop): Store {
    if stop == AfterState || stop == InMarker then s else s.(markers := s.markers - {dir})
  }

  function Ending(stop: Stop): Outcome {
    if stop == Finish then Done else Died
  }

  // Preparing

  function LoadExisting(s: Store, r: Request): (found: Result<Option<nat>>)
    requires forall k :: k in s.keys ==> s.keys[k] in s.ops
  {
    if KeyOf(r) !in s.keys then Ok(None)
    else
      var id := s.keys[KeyOf(r)];
      if s.ops[id].phase != CapabilityIssued then Err(OperationUnavailable)
      else if s.ops[id].request != r then Err(RequestMismatch)
      else Ok(Some(id))
  }

  predicate LifetimeAllowed(now: int, expiry: int) {
    0 <= now < expiry <= now + Capability.MAX_CAPABILITY_LIFETIME_MILLIS
  }

  /** Reserves the Runtime and issues the capability in one transaction. */
  function Reserve(s: Store, r: Request, id: nat, token: nat, now: int, expiry: int): Result<Store>
    requires Indexed(s)
  {
    match LoadExisting(s, r)
    case Err(e) => Err(e)
    case Ok(Some(_)) => Err(ExistingOperation)
    case Ok(None) =>
      if r.runtime in s.runtimes || !LifetimeAllowed(now, expiry) then Err(InvalidPreparation)
      else if id in s.ops then Err(StorageRefused)
      else
        Ok(s.(ops := s.ops[id := Operation(r, CapabilityIssued, 2, token, expiry, NoEffect, [Reserved])],
              keys := s.keys[KeyOf(r) := id],
              runtimes := s.runtimes[r.runtime := RuntimeRow(r.provider, None, None)]))
  }

  /** Every indexed key leads to a row. */
  predicate Indexed(s: Store) {
    forall k :: k in s.keys ==> s.keys[k] in s.ops
  }

  function DoPrepare(s: Store, c: Context, id: nat, token: nat, now: int, expiry: int, stop: Stop): (Store, Outcome)
    requires Indexed(s)
  {
    match RequestFromContext(s, c)
    case Err(e) => (s, Refused(e))
    case Ok((slot, r)) =>
      match Reserve(s, r, id, token, now, expiry)
      case Err(e) => (s, Refused(e))
      case Ok(reserved) =>
        if stop == AfterState then (reserved, Died)
        else if slot.phase != Materialized || slot.handoff.Some? then (reserved, Refused(HandoffUnavailable))
        else (UpdateMarker(reserved, c.dir, slot.(phase := HandoffIssued, handoff := Some(id)), stop), Ending(stop))
  }

  // Consuming

  function Moved(op: Operation, phase: Phase, mark: Mark): Operation {
    op.(phase := phase, revision := op.revision + 1, trail := op.trail + [mark])
  }

  /** Consumes the capability in one transaction. */
  function ConsumeCapability(s: Store, r: Request, token: nat, now: int): (result: Result<(nat, Store)>)
    requires Indexed(s)
    ensures result.Ok? ==> result.value.0 in result.value.1.ops
  {
    match LoadExisting(s, r)
    case Err(e) => Err(e)
    case Ok(None) => Err(MissingOperation)
    case Ok(Some(id)) =>
      var op := s.ops[id];
      if !(0 <= now < op.expiry) then Err(CapabilityExpired)
      else if token != op.token then Err(CapabilityRejected)
      else Ok((id, s.(ops := s.ops[id := Moved(op, RuntimeOwnedLaunching, Owned)])))
  }

  function OwnershipOf(s: Store, id: nat): Ownership
    requires id in s.ops
  {
    Ownership(id, s.ops[id].request.runtime, s.ops[id].revision)
  }

  function DoConsume(s: Store, c: Context, token: nat, now: int, stop: Stop): (Store, Outcome)
    requires Indexed(s)
  {
    match RequestFromContext(s, c)
    case Err(e) => (s, Refused(e))
    case Ok((slot, r)) =>
      if slot.phase != HandoffIssued then (s, Refused(HandoffUnavailable))
      else
        match ConsumeCapability(s, r, token, now)
        case Err(e) => (s, Refused(e))
        case Ok((id, consumed)) =>
          CompleteConsume(consumed, c.dir, slot, id, stop)
  }

  /** Moves the marker after a consumption, and hands its ownership to the helper. */
  function CompleteConsume(s: Store, dir: nat, slot: Slot, id: nat, stop: Stop): (Store, Outcome)
    requires id in s.ops
  {
    if stop == AfterState then (s, Died)
    else if slot.handoff != Some(id) then (s, Refused(HandoffMismatch))
    else
      var marked := UpdateMarker(s, dir, slot.(phase := SlotOwned), stop);
      if stop != Finish then (marked, Died) else (Hold(marked, OwnedFence(OwnershipOf(s, id))), Done)
  }

  // Advancing the journal

  function Hold(s: Store, fence: Fence): Store {
    s.(fences := s.fences + {fence})
  }

  /** The journal transitions of src/domain/mod.rs. */
  predicate Permits(from: Phase, to: Phase) {
    match from
    case CapabilityIssued => to == RuntimeOwnedLaunching || to == RolledBack
    case RuntimeOwnedLaunching => to == ProviderPreparation || to == RecoveryRequired
    case ProviderPreparation => to == ExternalEffectStarted || to == ProviderExecStarted || to == RecoveryRequired
    case ExternalEffectStarted => to == ProviderExecStarted || to == RecoveryRequired
    case ProviderExecStarted => to == ProviderExecProven || to == KnownAbsentExec || to == RecoveryRequired
    case KnownAbsentExec => to == RolledBack || to == RecoveryRequired
    case RecoveryRequired => to == ProviderExecProven || to == RolledBack
    case ProviderExecProven | RolledBack => false
  }

  /** Repeats every durable check of a transferred capability. */
  function ValidateOwned(s: Store, r: Request, own: Ownership): Result<Operation> {
    if own.op !in s.ops then Err(UnknownOperation)
    else
      var op := s.ops[own.op];
      if op.request != r || r.runtime != own.runtime then Err(RequestMismatch)
      else if own.runtime !in s.runtimes || s.runtimes[own.runtime].provider != r.provider then Err(MalformedSchema)
      else if op.revision != own.revision then Err(ConcurrentWrite)
      else Ok(op)
  }

  datatype Advance = ToPreparation | ToEffect | ToExecStarted | ToRecovery | ToKnownAbsent

  function Next(a: Advance): (Phase, Mark) {
    match a
    case ToPreparation => (ProviderPreparation, Prepared)
    case ToEffect => (ExternalEffectStarted, EffectStarted)
    case ToExecStarted => (ProviderExecStarted, ExecStarted)
    case ToRecovery => (RecoveryRequired, RecoveryFenced)
    case ToKnownAbsent => (KnownAbsentExec, KnownAbsent)
  }

  /** The evidence each kind of advance asks for, beyond the transition itself. */
  predicate Evidenced(s: Store, op: Operation, id: nat, a: Advance)
    requires op.request.runtime in s.runtimes
  {
    var row := s.runtimes[op.request.runtime];
    match a
    case ToPreparation | ToRecovery => true
    case ToEffect => row.provider == OpenCode && op.watermark == NoEffect
    case ToExecStarted =>
      && row.provider == op.request.provider
      && op.watermark == (if op.request.provider == Codex then NoEffect else OpencodeEffectStarted)
      && id in s.targets && s.targets[id] == op.request.provider
    case ToKnownAbsent => row.provider == Codex && row.session.None? && op.watermark == NoEffect
  }

  function Advanced(op: Operation, a: Advance): Operation {
    var watermark := match a
      case ToEffect => OpencodeEffectStarted
      case ToKnownAbsent => CodexKnownAbsent
      case _ => op.watermark;
    Moved(op, Next(a).0, Next(a).1).(watermark := watermark)
  }

  function AdvanceJournal(s: Store, r: Request, own: Ownership, a: Advance): Result<Store> {
    match ValidateOwned(s, r, own)
    case Err(e) => Err(e)
    case Ok(op) =>
      if !Permits(op.phase, Next(a).0) then Err(TransitionInvalid)
      else if !Evidenced(s, op, own.op, a) then Err(OperationUnavailable)
      else if a == ToPreparation && own.op in s.targets then Err(StorageRefused)
      else
        Ok(s.(ops := s.ops[own.op := Advanced(op, a)],
              targets := if a == ToPreparation then s.targets[own.op := r.provider] else s.targets))
  }

  /** A helper step: rebuild the request, advance the journal, and hold the next fence unless the
      step stops after the commit. */
  function DoAdvance(s: Store, c: Context, own: Ownership, a: Advance, stop: Stop): (Store, Outcome, Option<Ownership>) {
    match RequestFromContext(s, c)
    case Err(e) => (s, Refused(e), None)
    case Ok((_, r)) =>
      match AdvanceJournal(s, r, own, a)
      case Err(e) => (s, Refused(e), None)
      case Ok(t) =>
        if stop == Finish then (t, Done, Some(own.(revision := own.revision + 1))) else (t, Died, None)
  }

  function Holding(result: (Store, Outcome, Option<Ownership>), fence: Ownership -> Fence): (Store, Outcome) {
    match result.2
    case None => (result.0, result.1)
    case Some(own) => (Hold(result.0, fence(own)), result.1)
  }

  /** Begins provider preparation for a helper that has just consumed. */
  function DoRecordPreparation(s: Store, c: Context, own: Ownership, stop: Stop): (Store, Outcome) {
    if OwnedFence(own) !in s.fences then (s, Refused(FenceMissing))
    else Holding(DoAdvance(s, c, own, ToPreparation, stop), o => PreparationFence(o, c.provider))
  }

  function DoRecordEffect(s: Store, c: Context, own: Ownership, provider: Provider, stop: Stop): (Store, Outcome) {
    if PreparationFence(own, provider) !in s.fences then (s, Refused(FenceMissing))
    else if provider != OpenCode then (s, Refused(ProviderMismatch))
    else Holding(DoAdvance(s, c, own, ToEffect, stop), o => EffectFence(o))
  }

  function DoRecordCodexExecStarted(s: Store, c: Context, own: Ownership, provider: Provider, stop: Stop): (Store, Outcome) {
    if PreparationFence(own, provider) !in s.fences then (s, Refused(FenceMissing))
    else if provider != Codex then (s, Refused(ProviderMismatch))
    else Holding(DoAdvance(s, c, own, ToExecStarted, stop), o => ExecFence(o, Codex))
  }

  function DoRecordOpencodeExecStarted(s: Store, c: Context, own: Ownership, session: nat, stop: Stop): (Store, Outcome) {
    if HandleFence(own, session) !in s.fences then (s, Refused(FenceMissing))
    else Holding(DoAdvance(s, c, own, ToExecStarted, stop), o => ExecFence(o, OpenCode))
  }

  /** Fences an attempt for recovery. A failed Codex exec has its own recorder. */
  function DoRecordRecovery(s: Store, c: Context, fence: Fence, stop: Stop): (Store, Outcome) {
    if fence !in s.fences then (s, Refused(FenceMissing))
    else if fence.ExecFence? && fence.provider != OpenCode then (s, Refused(ProviderMismatch))
    else
      var (t, outcome, _) := DoAdvance(s, c, fence.own, ToRecovery, stop);
      (t, outcome)
  }

  function DoRecordKnownAbsent(s: Store, c: Context, own: Ownership, provider: Provider, stop: Stop): (Store, Outcome) {
    if ExecFence(own, provider) !in s.fences then (s, Refused(FenceMissing))
    else if provider != Codex then (s, Refused(ProviderMismatch))
    else
      var (t, outcome, _) := DoAdvance(s, c, own, ToKnownAbsent, stop);
      (t, outcome)
  }

  function Noted(s: Store, id: nat, row: RuntimeRow, mark: Mark): Store
    requires id in s.ops
  {
    var op := s.ops[id];
    s.(runtimes := s.runtimes[op.request.runtime := row], ops := s.ops[id := op.(trail := op.trail + [mark])])
  }

  /** Binds the session the POST returned. The journal row itself does not move. */
  function BindSession(s: Store, r: Request, own: Ownership, session: nat): Result<Store> {
    match ValidateOwned(s, r, own)
    case Err(e) => Err(e)
    case Ok(op) =>
      var row := s.runtimes[own.runtime];
      if op.phase != ExternalEffectStarted || r.provider != OpenCode then Err(OperationUnavailable)
      else if row.session.Some? && row.session != Some(session) then Err(ProviderMismatch)
      else if row.session.Some? then Ok(s)
      else Ok(Noted(s, own.op, row.(session := Some(session)), SessionBound))
  }

  function DoRecordSession(s: Store, c: Context, own: Ownership, session: nat, stop: Stop): (Store, Outcome) {
    if EffectFence(own) !in s.fences then (s, Refused(FenceMissing))
    else
      match RequestFromContext(s, c)
      case Err(e) => (s, Refused(e))
      case Ok((_, r)) =>
        match BindSession(s, r, own, session)
        case Err(e) => (s, Refused(e))
        case Ok(t) => if stop == Finish then (Hold(t, SessionFence(own, session)), Done) else (t, Died)
  }

  /** Records the observer handle of the bound session. */
  function RecordObserver(s: Store, r: Request, own: Ownership, observer: Observer): Result<Store> {
    if observer.port == 0 then Err(ProviderMismatch)
    else
      match ValidateOwned(s, r, own)
      case Err(e) => Err(e)
      case Ok(op) =>
        var row := s.runtimes[own.runtime];
        if op.phase != ExternalEffectStarted || r.provider != OpenCode then Err(OperationUnavailable)
        else if row.session != Some(observer.session) then Err(ProviderMismatch)
        else if row.observer == Some(observer) then Ok(s)
        else if row.observer.Some? then Err(ConcurrentWrite)
        else Ok(Noted(s, own.op, row.(observer := Some(observer)), HandleRecorded))
  }

  function DoRecordHandle(s: Store, c: Context, own: Ownership, session: nat, port: nat, version: string, stop: Stop)
    : (Store, Outcome)
  {
    if SessionFence(own, session) !in s.fences then (s, Refused(FenceMissing))
    else
      match RequestFromContext(s, c)
      case Err(e) => (s, Refused(e))
      case Ok((_, r)) =>
        match RecordObserver(s, r, own, Observer(port, version, session))
        case Err(e) => (s, Refused(e))
        case Ok(t) => if stop == Finish then (Hold(t, HandleFence(own, session)), Done) else (t, Died)
  }

  // Around the handoff

  /** Creates the marker of a fresh candidate. Candidate and generation are drawn at random, so they
      are new. */
  function DoMaterialize(s: Store, dir: nat, slot: Slot, stop: Stop): (Store, Outcome) {
    if dir in s.markers || slot.runtime in s.runtimes || Key(slot.presentation.id, slot.generation) in s.keys
      || (exists d :: d in s.markers && s.markers[d].Whole? && Clashes(s.markers[d].slot, slot))
    then (s, Refused(CandidateInUse))
    else
      var blank := slot.(phase := Materializing, handoff := None);
      match stop
      case InMarker => (s.(markers := s.markers[dir := Torn]), Died)
      case AfterState => (s.(markers := s.markers[dir := Whole(blank)]), Died)
      case _ => (s.(markers := s.markers[dir := Whole(blank.(phase := Materialized))]), Ending(stop))
  }

  predicate Clashes(a: Slot, b: Slot) {
    a.runtime == b.runtime || (a.presentation.id == b.presentation.id && a.generation == b.generation)
  }

  predicate OwnedPhase(p: Phase) {
    p != CapabilityIssued && p != RolledBack
  }

  /** The operation that belongs to a marker. */
  function MarkerOperation(s: Store, slot: Slot): Result<Option<nat>>
    requires Indexed(s)
  {
    match slot.handoff
    case Some(id) =>
      if id !in s.ops then Err(OperationUnavailable)
      else if !SameIdentity(s.ops[id].request, slot) then Err(RequestMismatch)
      else Ok(Some(id))
    case None =>
      var key := Key(slot.presentation.id, slot.generation);
      if key !in s.keys then Ok(None)
      else if !SameIdentity(s.ops[s.keys[key]].request, slot) then Err(RequestMismatch)
      else Ok(Some(s.keys[key]))
  }

  predicate SameIdentity(r: Request, slot: Slot) {
    r.presentation == slot.presentation && r.generation == slot.generation && r.runtime == slot.runtime
  }

  /** Takes back an unconsumed attempt in one transaction. */
  function CancelOperation(s: Store, id: nat, lease: int): Result<Store>
    requires id in s.ops
  {
    var op := s.ops[id];
    if op.phase != CapabilityIssued || op.watermark != NoEffect then Err(OperationUnavailable)
    else if op.request.lease != lease then Err(RequestMismatch)
    else if op.request.runtime !in s.runtimes then Err(MalformedSchema)
    else
      var row := s.runtimes[op.request.runtime];
      if row.provider != op.request.provider || row.session.Some? || row.observer.Some? || id in s.targets
      then Err(OperationUnavailable)
      else Ok(s.(ops := s.ops[id := Moved(op, RolledBack, Cancelled)], runtimes := s.runtimes - {op.request.runtime}))
  }

  /** Reconciles a marker that has not crossed the ownership fence: repairs it, cleans it up, or
      leaves it alone while its shell may live. */
  function DoReconcile(s: Store, dir: nat, lease: int, serverMissing: bool, stop: Stop): (Store, Outcome)
    requires Indexed(s)
  {
    if dir !in s.markers then (s, Refused(Unchanged))
    else if s.markers[dir].Torn? then (s, Refused(MarkerMalformed))
    else
      var slot := s.markers[dir].slot;
      if slot.phase == SlotOwned || slot.phase == SlotProven then (s, Refused(Unchanged))
      else
        match MarkerOperation(s, slot)
        case Err(e) => (s, Refused(e))
        case Ok(None) =>
          if slot.runtime in s.runtimes then (s, Refused(Ambiguous))
          else if !serverMissing then (s, Refused(Unchanged))
          else (RemoveMarker(s, dir, stop), Ending(stop))
        case Ok(Some(id)) =>
          ReconcileOperation(s, dir, slot, id, lease, serverMissing, stop)
  }

  function ReconcileOperation(s: Store, dir: nat, slot: Slot, id: nat, lease: int, serverMissing: bool, stop: Stop)
    : (Store, Outcome)
    requires id in s.ops
  {
    var phase := s.ops[id].phase;
    if slot.phase == Materializing then (s, Refused(Ambiguous))
    else if slot.phase == HandoffIssued && OwnedPhase(phase) then
      if slot.runtime !in s.runtimes then (s, Refused(Ambiguous))
      else (UpdateMarker(s, dir, slot.(phase := SlotOwned), stop), Ending(stop))
    else if slot.runtime in s.runtimes && phase != CapabilityIssued then (s, Refused(Ambiguous))
    else if !serverMissing then (s, Refused(Unchanged))
    else if phase == RolledBack then (RemoveMarker(s, dir, stop), Ending(stop))
    else
      match CancelOperation(s, id, lease)
      case Err(e) => (s, Refused(e))
      case Ok(t) => (RemoveMarker(t, dir, stop), Ending(stop))
  }

  /** Records that the native provider was seen running, in the journal and then in the marker. When
      the journal already says so, only the marker is completed; when both do, there is nothing to do. */
  function DoProve(s: Store, dir: nat, seen: bool, observerReady: bool, stop: Stop): (Store, Outcome) {
    if dir !in s.markers then (s, Refused(MarkerUnavailable))
    else if s.markers[dir].Torn? then (s, Refused(MarkerMalformed))
    else
      var slot := s.markers[dir].slot;
      if slot.handoff.None? then (s, Refused(HandoffUnavailable))
      else if slot.phase != SlotOwned && slot.phase != SlotProven then (s, Refused(SlotNotReady))
      else
        var id := slot.handoff.value;
        if id !in s.ops then (s, Refused(UnknownOperation))
        else if s.ops[id].request.runtime != slot.runtime then (s, Refused(ProviderMismatch))
        else if slot.phase == SlotProven then
          if s.ops[id].phase == ProviderExecProven then (s, Done) else (s, Refused(OperationUnavailable))
        else if s.ops[id].phase == ProviderExecProven then
          (UpdateMarker(s, dir, slot.(phase := SlotProven), stop), Ending(stop))
        else if s.ops[id].phase != ProviderExecStarted then (s, Refused(OperationUnavailable))
        else if slot.runtime !in s.runtimes || !seen then (s, Refused(ProviderMismatch))
        else if s.ops[id].request.provider == OpenCode && (s.runtimes[slot.runtime].observer.None? || !observerReady)
        then (s, Refused(OperationUnavailable))
        else
          var proven := s.(ops := s.ops[id := Moved(s.ops[id], ProviderExecProven, ExecProven)]);
          (UpdateMarker(proven, dir, slot.(phase := SlotProven), stop), Ending(stop))
  }

  /** Retires the marker of a proven launch. */
  function DoRetire(s: Store, dir: nat, stop: Stop): (Store, Outcome) {
    if dir !in s.markers then (s, Refused(MarkerUnavailable))
    else if s.markers[dir].Torn? then (s, Refused(MarkerMalformed))
    else
      var slot := s.markers[dir].slot;
      if slot.phase != SlotProven || slot.handoff.None? || slot.handoff.value !in s.ops
        || s.ops[slot.handoff.value].phase != ProviderExecProven
        || s.ops[slot.handoff.value].request.runtime != slot.runtime
      then (s, Refused(Ambiguous))
      else (RemoveMarker(s, dir, stop), Ending(stop))
  }

  // Runs

  datatype Event =
    | Materialize(dir: nat, slot: Slot, stop: Stop)
    | Prepare(c: Context, id: nat, token: nat, now: int, expiry: int, stop: Stop)
    | Consume(c: Context, token: nat, now: int, stop: Stop)
    | RecordPreparation(c: Context, own: Ownership, stop: Stop)
    | RecordEffect(c: Context, own: Ownership, provider: Provider, stop: Stop)
    | RecordSession(c: Context, own: Ownership, session: nat, stop: Stop)
    | RecordHandle(c: Context, own: Ownership, session: nat, port: nat, version: string, stop: Stop)
    | RecordCodexExecStarted(c: Context, own: Ownership, provider: Provider, stop: Stop)
    | RecordOpencodeExecStarted(c: Context, own: Ownership, session: nat, stop: Stop)
    | RecordRecovery(c: Context, fence: Fence, stop: Stop)
    | RecordKnownAbsent(c: Context, own: Ownership, provider: Provider, stop: Stop)
    | Reconcile(dir: nat, lease: int, serverMissing: bool, stop: Stop)
    | Prove(dir: nat, seen: bool, observerReady: bool, stop: Stop)
    | Retire(dir: nat, stop: Stop)
    | KillHelper

  function Step(s: Store, e: Event): (Store, Outcome)
    requires Indexed(s)
  {
    match e
    case Materialize(dir, slot, stop) => DoMaterialize(s, dir, slot, stop)
    case Prepare(c, id, token, now, expiry, stop) => DoPrepare(s, c, id, token, now, expiry, stop)
    case Consume(c, token, now, stop) => DoConsume(s, c, token, now, stop)
    case RecordPreparation(c, own, stop) => DoRecordPreparation(s, c, own, stop)
    case RecordEffect(c, own, provider, stop) => DoRecordEffect(s, c, own, provider, stop)
    case RecordSession(c, own, session, stop) => DoRecordSession(s, c, own, session, stop)
    case RecordHandle(c, own, session, port, version, stop) => DoRecordHandle(s, c, own, session, port, version, stop)
    case RecordCodexExecStarted(c, own, provider, stop) => DoRecordCodexExecStarted(s, c, own, provider, stop)
    case RecordOpencodeExecStarted(c, own, session, stop) => DoRecordOpencodeExecStarted(s, c, own, session, stop)
    case RecordRecovery(c, fence, stop) => DoRecordRecovery(s, c, fence, stop)
    case RecordKnownAbsent(c, own, provider, stop) => DoRecordKnownAbsent(s, c, own, provider, stop)
    case Reconcile(dir, lease, serverMissing, stop) => DoReconcile(s, dir, lease, serverMissing, stop)
    case Prove(dir, seen, observerReady, stop) => DoProve(s, dir, seen, observerReady, stop)
    case Retire(dir, stop) => DoRetire(s, dir, stop)
    case KillHelper => (s.(fences := {}), Done)
  }

  const EMPTY: Store := Store(map[], map[], map[], map[], map[], {})
}
