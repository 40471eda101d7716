/** The provider-effect journal (spikes/d17-provider-effect-journal.py): one POST that cannot be
    repeated, behind a phase record that is written before it. The caller may die inside any write
    (leaving a truncated file), after any write, and after the POST went out. */
module EffectJournal {
  import opened Bytes
  import opened Providers

  datatype Phase =
    | Issued | RuntimeOwnedLaunching | CodexReady | OpencodePostAttempted | OpencodeBindingKnown
    | ProviderExecStarted | ProviderExecProven
    | RolledBackNoEffect | StoppedBindingRecovery | RecoveryRequired

  datatype PostOutcome = NoPost | Known | Unknown

  /** The journal file: truncated by an interrupted write, or a whole record. */
  datatype File = Torn | Intact(phase: Phase, outcome: PostOutcome)

  datatype Store = Store(provider: Provider, file: File, posts: nat)

  /** Where the caller dies: inside or right after its n-th write, or right after the request. */
  datatype Crash = Survives | InWrite(n: nat) | AfterWrite(n: nat) | AfterPost

  /** What becomes of a request: it may never arrive, and its answer may be lost or unreadable. */
  datatype Request = Request(arrives: bool, answered: bool)

  datatype Event =
    | Promote(crash: Crash)
    | CodexPrepare(crash: Crash)
    | OpencodePrepare(request: Request, crash: Crash)
    | BeginExec(crash: Crash)
    | ProveExec(crash: Crash)
    | KnownAbsentExecError(crash: Crash)
    | PassiveRecover(crash: Crash)

  datatype Refusal =
    | JournalMalformed | CapabilityUnavailable | CodexPrepareUnavailable | OpencodePrepareUnavailable
    | ProviderExecUnavailable | ProofUnavailable | ExecErrorUnavailable | PassiveRecoveryUnavailable

  datatype Outcome = Done | Refused(reason: Refusal) | Died

  class Endpoint {
    var posts: nat

    constructor ()
      ensures posts == 0
    {
      posts := 0;
    }

    /** Sends one blank-session request. A binding is returned only when the request arrived and its
        answer was understood. */
    method PostBlankSession(request: Request) returns (binding: bool)
      modifies this
      ensures posts == old(posts) + (if request.arrives then 1 else 0)
      ensures binding <==> request.arrives && request.answered
    {
      if request.arrives {
        posts := posts + 1;
      }
      binding := request.arrives && request.answered;
    }
  }

  class Journal {
    const provider: Provider
    var file: File

    constructor (p: Provider, crash: Crash)
      ensures provider == p && file == Written(Issued, NoPost, 0, crash)
    {
      provider := p;
      file := if crash == InWrite(0) then Torn else Intact(Issued, NoPost);
    }

    ghost function View(endpoint: Endpoint): Store
      reads this, endpoint
    {
      Store(provider, file, endpoint.posts)
    }

    /** Truncates the file and writes the record; `false` when the caller died meanwhile. */
    method Write(phase: Phase, outcome: PostOutcome, n: nat, crash: Crash) returns (alive: bool)
      modifies this
      ensures file == Written(phase, outcome, n, crash)
      ensures alive <==> crash != InWrite(n) && crash != AfterWrite(n)
    {
      file := Torn;
      if crash == InWrite(n) {
        return false;
      }
      file := Intact(phase, outcome);
      alive := crash != AfterWrite(n);
    }

    method Promote(endpoint: Endpoint, crash: Crash) returns (o: Outcome)
      modifies this
      ensures (View(endpoint), o) == Step(old(View(endpoint)), Event.Promote(crash))
    {
      if file.Torn? {
        return Refused(JournalMalformed);
      }
      if file.phase != Issued {
        return Refused(CapabilityUnavailable);
      }
      var alive := Write(RuntimeOwnedLaunching, NoPost, 0, crash);
      o := if alive then Done else Died;
    }

    method ActionAllowed() returns (o: Outcome)
      ensures file.Torn? ==> o == Refused(JournalMalformed)
      ensures o == Done <==> Released(file)
    {
      if file.Torn? {
        return Refused(JournalMalformed);
      }
      o := if file.phase == ProviderExecProven then Done else Refused(ProofUnavailable);
    }

    method CodexPrepare(endpoint: Endpoint, crash: Crash) returns (o: Outcome)
      modifies this
      ensures (View(endpoint), o) == Step(old(View(endpoint)), Event.CodexPrepare(crash))
    {
      if provider != Codex {
        return Refused(CodexPrepareUnavailable);
      }
      if file.Torn? {
        return Refused(JournalMalformed);
      }
      if file.phase != RuntimeOwnedLaunching {
        return Refused(CodexPrepareUnavailable);
      }
      var alive := Write(CodexReady, NoPost, 0, crash);
      o := if alive then Done else Died;
    }

    method OpencodePrepare(endpoint: Endpoint, request: Request, crash: Crash) returns (o: Outcome)
      modifies this, endpoint
      ensures (View(endpoint), o) == Step(old(View(endpoint)), Event.OpencodePrepare(request, crash))
    {
      if provider != OpenCode {
        return Refused(OpencodePrepareUnavailable);
      }
      if file.Torn? {
        return Refused(JournalMalformed);
      }
      if file.phase != RuntimeOwnedLaunching {
        return Refused(OpencodePrepareUnavailable);
      }
      // the attempt is on disk before the request that cannot be repeated
      var alive := Write(OpencodePostAttempted, Unknown, 0, crash);
      if !alive {
        return Died;
      }
      var binding := endpoint.PostBlankSession(request);
      if crash == AfterPost {
        return Died;
      }
      if binding {
        alive := Write(OpencodeBindingKnown, Known, 1, crash);
      } else {
        alive := Write(RecoveryRequired, Unknown, 1, crash);
      }
      o := if alive then Done else Died;
    }

    method BeginExec(endpoint: Endpoint, crash: Crash) returns (o: Outcome)
      modifies this
      ensures (View(endpoint), o) == Step(old(View(endpoint)), Event.BeginExec(crash))
    {
      if file.Torn? {
        return Refused(JournalMalformed);
      }
      var expected := if provider == Codex then CodexReady else OpencodeBindingKnown;
      if file.phase != expected {
        return Refused(ProviderExecUnavailable);
      }
      var alive := Write(ProviderExecStarted, file.outcome, 0, crash);
      o := if alive then Done else Died;
    }

    method ProveExec(endpoint: Endpoint, crash: Crash) returns (o: Outcome)
      modifies this
      ensures (View(endpoint), o) == Step(old(View(endpoint)), Event.ProveExec(crash))
    {
      if file.Torn? {
        return Refused(JournalMalformed);
      }
      if file.phase != ProviderExecStarted {
        return Refused(ProofUnavailable);
      }
      var alive := Write(ProviderExecProven, file.outcome, 0, crash);
      o := if alive then Done else Died;
    }

    method KnownAbsentExecError(endpoint: Endpoint, crash: Crash) returns (o: Outcome)
      modifies this
      ensures (View(endpoint), o) == Step(old(View(endpoint)), Event.KnownAbsentExecError(crash))
    {
      if file.Torn? {
        return Refused(JournalMalformed);
      }
      if file.phase != ProviderExecStarted {
        return Refused(ExecErrorUnavailable);
      }
      var alive;
      if provider == Codex {
        alive := Write(RolledBackNoEffect, NoPost, 0, crash);
      } else {
        alive := Write(StoppedBindingRecovery, Known, 0, crash);
      }
      o := if alive then Done else Died;
    }

    method PassiveRecover(endpoint: Endpoint, crash: Crash) returns (o: Outcome)
      modifies this
      ensures (View(endpoint), o) == Step(old(View(endpoint)), Event.PassiveRecover(crash))
    {
      if file.Torn? {
        return Refused(JournalMalformed);
      }
      if file.phase == RuntimeOwnedLaunching {
        var alive := Write(RolledBackNoEffect, NoPost, 0, crash);
        o := if alive then Done else Died;
      } else if file.phase == RecoveryRequired {
        o := Done;
      } else {
        o := Refused(PassiveRecoveryUnavailable);
      }
    }
  }

  // One step of the journal and its endpoint

  function Written(phase: Phase, outcome: PostOutcome, n: nat, crash: Crash): File {
    if crash == InWrite(n) then Torn else Intact(phase, outcome)
  }

  function Ending(n: nat, crash: Crash): Outcome {
    if crash == InWrite(n) || crash == AfterWrite(n) then Died else Done
  }

  /** The phase an event moves the journal to, or why it is refused. The request of an OpenCode
      preparation is accounted for in `Posted`. */
  function Target(s: Store, event: Event): (r: (Option<(Phase, PostOutcome)>, Refusal)) {
    if s.file.Torn? then (None, JournalMalformed)
    else
      var phase := s.file.phase;
      match event
      case Promote(_) =>
        (if phase == Issued then Some((RuntimeOwnedLaunching, NoPost)) else None, CapabilityUnavailable)
      case CodexPrepare(_) =>
        (if s.provider == Codex && phase == RuntimeOwnedLaunching then Some((CodexReady, NoPost)) else None,
         CodexPrepareUnavailable)
      case OpencodePrepare(_, _) =>
        (if s.provider == OpenCode && phase == RuntimeOwnedLaunching then Some((OpencodePostAttempted, Unknown)) else None,
         OpencodePrepareUnavailable)
      case BeginExec(_) =>
        (if phase == (if s.provider == Codex then CodexReady else OpencodeBindingKnown)
         then Some((ProviderExecStarted, s.file.outcome)) else None,
         ProviderExecUnavailable)
      case ProveExec(_) =>
        (if phase == ProviderExecStarted then Some((ProviderExecProven, s.file.outcome)) else None, ProofUnavailable)
      case KnownAbsentExecError(_) =>
        (if phase != ProviderExecStarted then None
         else if s.provider == Codex then Some((RolledBackNoEffect, NoPost))
         else Some((StoppedBindingRecovery, Known)),
         ExecErrorUnavailable)
      case PassiveRecover(_) =>
        (if phase == RuntimeOwnedLaunching then Some((RolledBackNoEffect, NoPost)) else None, PassiveRecoveryUnavailable)
  }

  /** The rest of an OpenCode preparation, once its attempt is on disk and the caller is alive. */
  function Posted(s: Store, request: Request, crash: Crash): (Store, Outcome) {
    var sent := s.(posts := s.posts + if request.arrives then 1 else 0);
    if crash == AfterPost then (sent, Died)
    else
      var file := if request.arrives && request.answered then Written(OpencodeBindingKnown, Known, 1, crash)
                  else Written(RecoveryRequired, Unknown, 1, crash);
      (sent.(file := file), Ending(1, crash))
  }

  function Step(s: Store, event: Event): (Store, Outcome) {
    var (target, refusal) := Target(s, event);
    if target.None? then
      if event.PassiveRecover? && s.file.Intact? && s.file.phase == RecoveryRequired then (s, Done)
      else if event.CodexPrepare? && s.provider != Codex then (s, Refused(CodexPrepareUnavailable))
      else if event.OpencodePrepare? && s.provider != OpenCode then (s, Refused(OpencodePrepareUnavailable))
      else (s, Refused(refusal))
    else
      var (phase, outcome) := target.value;
      var first := s.(file := Written(phase, outcome, 0, event.crash));
      if event.OpencodePrepare? && Ending(0, event.crash) == Done then Posted(first, event.request, event.crash)
      else (first, Ending(0, event.crash))
  }

  function Run(s: Store, events: seq<Event>): Store
    decreases |events|
  {
    if events == [] then s else Run(Step(s, events[0]).0, events[1..])
  }

  /** A new journal: its first write may have been interrupted. */
  predicate Initial(s: Store) {
    s.posts == 0 && (s.file == Torn || s.file == Intact(Issued, NoPost))
  }

  ghost predicate Reachable(s: Store) {
    exists s0: Store, events :: Initial(s0) && Run(s0, events) == s
  }

  predicate Released(file: File) {
    file.Intact? && file.phase == ProviderExecProven
  }

  // What every run keeps

  /** What the record says about the requests that were sent. */
  predicate Honest(s: Store) {
    && s.posts <= 1
    && (s.provider == Codex ==> s.posts == 0)
    && (s.file.Intact? ==>
      match s.file.phase
      case Issued | RuntimeOwnedLaunching | RolledBackNoEffect => s.file.outcome == NoPost && s.posts == 0
      case CodexReady => s.provider == Codex && s.file.outcome == NoPost
      case OpencodePostAttempted | RecoveryRequired => s.provider == OpenCode && s.file.outcome == Unknown
      case OpencodeBindingKnown | StoppedBindingRecovery =>
        s.provider == OpenCode && s.file.outcome == Known && s.posts == 1
      case ProviderExecStarted | ProviderExecProven =>
        if s.provider == Codex then s.file.outcome == NoPost else s.file.outcome == Known && s.posts == 1)
  }

  lemma StepKeepsHonest(s: Store, event: Event)
    requires Honest(s)
    ensures Honest(Step(s, event).0) && Step(s, event).0.provider == s.provider
  {
  }

  lemma {:induction false} RunKeepsHonest(s: Store, events: seq<Event>)
    requires Honest(s)
    ensures Honest(Run(s, events)) && Run(s, events).provider == s.provider
    decreases |events|
  {
    if events != [] {
      StepKeepsHonest(s, events[0]);
      RunKeepsHonest(Step(s, events[0]).0, events[1..]);
    }
  }

  /** Through any crashes: at most one request is ever sent, a rolled-back journal sent none, and a
      journal that claims a known outcome sent exactly one. */
  lemma AtMostOnePost(s: Store)
    requires Reachable(s)
    ensures s.posts <= 1
    ensures s.file.Intact? && s.file.phase == RolledBackNoEffect ==> s.posts == 0
    ensures s.file.Intact? && s.file.outcome == Known ==> s.posts == 1
    ensures s.file.Intact? && s.file.outcome == NoPost ==> s.posts == 0
    ensures Released(s.file) ==> s.posts == if s.provider == Codex then 0 else 1
  {
    var s0: Store, events :| Initial(s0) && Run(s0, events) == s;
    RunKeepsHonest(s0, events);
  }

  // Progress

  function Rank(file: File): nat {
    match file
    case Torn => 6
    case Intact(phase, _) =>
      match phase
      case Issued => 0
      case RuntimeOwnedLaunching => 1
      case CodexReady | OpencodePostAttempted => 2
      case OpencodeBindingKnown => 3
      case ProviderExecStarted => 4
      case ProviderExecProven | RolledBackNoEffect | StoppedBindingRecovery | RecoveryRequired => 5
  }

  /** Refusals change nothing; everything else moves the journal strictly forward, except for the
      recovery of a journal that already needs recovery, which changes nothing. */
  lemma StepsMoveForward(s: Store, event: Event)
    ensures Step(s, event).1.Refused? ==> Step(s, event).0 == s
    ensures !Step(s, event).1.Refused? ==>
      if event.PassiveRecover? && s.file.Intact? && s.file.phase == RecoveryRequired then Step(s, event) == (s, Done)
      else Rank(s.file) < Rank(Step(s, event).0.file)
  {
  }

  function Changes(s: Store, events: seq<Event>): nat
    decreases |events|
  {
    if events == [] then 0
    else (if Step(s, events[0]).0 == s then 0 else 1) + Changes(Step(s, events[0]).0, events[1..])
  }

  /** However long a run is, the journal changes at most six times. */
  lemma {:induction false} ChangesAreBounded(s: Store, events: seq<Event>)
    ensures Changes(s, events) + Rank(s.file) <= Rank(Run(s, events).file) <= 6
    decreases |events|
  {
    if events != [] {
      StepsMoveForward(s, events[0]);
      ChangesAreBounded(Step(s, events[0]).0, events[1..]);
    }
  }

  /** The phases nothing leads out of. The attempted phase is one: a caller that dies between its
      attempt and its answer leaves a journal that no operation, recovery included, ever resolves. */
  predicate Final(file: File) {
    file.Torn? || file.phase in
      {OpencodePostAttempted, ProviderExecProven, RolledBackNoEffect, StoppedBindingRecovery, RecoveryRequired}
  }

  /** The event that moves a journal on. */
  function Exit(s: Store): Event
    requires !Final(s.file)
  {
    match s.file.phase
    case Issued => Promote(Survives)
    case RuntimeOwnedLaunching => PassiveRecover(Survives)
    case CodexReady | OpencodeBindingKnown => BeginExec(Survives)
    case _ => ProveExec(Survives)
  }

  lemma FinalExactly(s: Store)
    requires Honest(s)
    ensures Final(s.file) <==> forall event :: Step(s, event).0 == s
  {
    if !Final(s.file) {
      assert Step(s, Exit(s)).0 != s;
    }
  }

  lemma {:induction false} FinalStays(s: Store, events: seq<Event>)
    requires Honest(s) && Final(s.file)
    ensures Run(s, events) == s
    decreases |events|
  {
    if events != [] {
      FinalExactly(s);
      FinalStays(s, events[1..]);
    }
  }

  /** A request that went out and whose caller died is never repeated and never resolved. */
  lemma LostAnswerIsForever(s: Store, request: Request, crash: Crash, events: seq<Event>)
    requires Reachable(s) && s.provider == OpenCode && s.file == Intact(RuntimeOwnedLaunching, NoPost)
    requires crash == AfterPost || crash == AfterWrite(0)
    ensures var t := Step(s, OpencodePrepare(request, crash)).0;
      Run(t, events) == t && t.file == Intact(OpencodePostAttempted, Unknown)
      && t.posts == if crash == AfterPost && request.arrives then 1 else 0
  {
    var s0: Store, before :| Initial(s0) && Run(s0, before) == s;
    RunKeepsHonest(s0, before);
    var event := OpencodePrepare(request, crash);
    StepKeepsHonest(s, event);
    FinalStays(Step(s, event).0, events);
  }

  /** Such a journal exists: promoted, with its one request out and its caller gone. */
  lemma LostAnswerHappens()
    ensures exists s ::
      && Reachable(s) && s.provider == OpenCode && s.file == Intact(RuntimeOwnedLaunching, NoPost)
      && Step(s, OpencodePrepare(Request(true, true), AfterPost)).0
         == Store(OpenCode, Intact(OpencodePostAttempted, Unknown), 1)
  {
    var s0, promote := Store(OpenCode, Intact(Issued, NoPost), 0), Promote(Survives);
    var s := Step(s0, promote).0;
    assert [promote][1..] == [] && Run(s0, [promote]) == Run(s, []);
    assert Initial(s0) && Run(s0, [promote]) == s;
    assert Reachable(s);
  }

  // The action fence

  /** The events at these positions promoted, prepared, started and proved the launch, in order. */
  predicate Promoted(events: seq<Event>, i: nat) {
    i < |events| && events[i].Promote?
  }

  predicate Prepared(events: seq<Event>, i: nat, j: nat) {
    Promoted(events, i) && i < j < |events| && (events[j].CodexPrepare? || events[j].OpencodePrepare?)
  }

  predicate Started(events: seq<Event>, i: nat, j: nat, k: nat) {
    Prepared(events, i, j) && j < k < |events| && events[k].BeginExec?
  }

  predicate Proved(events: seq<Event>, i: nat, j: nat, k: nat, l: nat) {
    Started(events, i, j, k) && k < l < |events| && events[l].ProveExec?
  }

  /** How far the events of a run have come, by the phase they left. */
  ghost predicate Along(file: File, events: seq<Event>) {
    file.Intact? ==>
      match file.phase
      case RuntimeOwnedLaunching => exists i :: Promoted(events, i)
      case CodexReady | OpencodeBindingKnown => exists i, j :: Prepared(events, i, j)
      case ProviderExecStarted => exists i, j, k :: Started(events, i, j, k)
      case ProviderExecProven => exists i, j, k, l :: Proved(events, i, j, k, l)
      case _ => true
  }

  lemma AlongStep(s: Store, events: seq<Event>, event: Event)
    requires Along(s.file, events)
    ensures Along(Step(s, event).0.file, events + [event])
  {
    var all, last := events + [event], |events|;
    assert all[last] == event && forall i :: 0 <= i < last ==> all[i] == events[i];
    if s.file.Intact? {
      match s.file.phase
      case Issued =>
        assert event.Promote? ==> Promoted(all, last);
      case RuntimeOwnedLaunching =>
        var i: nat :| Promoted(events, i);
        assert Promoted(all, i);
        assert event.CodexPrepare? || event.OpencodePrepare? ==> Prepared(all, i, last);
      case CodexReady | OpencodeBindingKnown =>
        var i: nat, j: nat :| Prepared(events, i, j);
        assert Prepared(all, i, j);
        assert event.BeginExec? ==> Started(all, i, j, last);
      case ProviderExecStarted =>
        var i: nat, j: nat, k: nat :| Started(events, i, j, k);
        assert Started(all, i, j, k);
        assert event.ProveExec? ==> Proved(all, i, j, k, last);
      case ProviderExecProven =>
        var i: nat, j: nat, k: nat, l: nat :| Proved(events, i, j, k, l);
        assert Proved(all, i, j, k, l);
      case _ =>
    }
  }

  lemma {:induction false} AlongRun(s: Store, before: seq<Event>, events: seq<Event>)
    requires Along(s.file, before)
    ensures Along(Run(s, events).file, before + events)
    decreases |events|
  {
    if events == [] {
      assert before + events == before;
    } else {
      AlongStep(s, before, events[0]);
      AlongRun(Step(s, events[0]).0, before + [events[0]], events[1..]);
      assert before + [events[0]] + events[1..] == before + events;
    }
  }

  /** Actions are released only by a promotion, a preparation, a start and a proof, in this order. */
  lemma ReleasedOnlyInOrder(s0: Store, events: seq<Event>)
    requires Initial(s0) && Released(Run(s0, events).file)
    ensures exists i, j, k, l :: Proved(events, i, j, k, l)
  {
    AlongRun(s0, [], events);
    assert [] + events == events;
  }
}
