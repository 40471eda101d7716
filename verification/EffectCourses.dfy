/** Which calls of the provider-effect journal succeed, what each leaves behind, and the courses of a
    launch from its issue to its end (spikes/d17-provider-effect-journal.py). */
module EffectCourses {
  import opened Bytes
  import opened Providers
  import opened EffectJournal

  /** The phases a call may start from. */
  predicate Ready(s: Store, event: Event) {
    && s.file.Intact?
    && match event
       case Promote(_) => s.file.phase == Issued
       case CodexPrepare(_) => s.provider == Codex && s.file.phase == RuntimeOwnedLaunching
       case OpencodePrepare(_, _) => s.provider == OpenCode && s.file.phase == RuntimeOwnedLaunching
       case BeginExec(_) =>
         (s.provider == Codex && s.file.phase == CodexReady) || (s.provider == OpenCode && s.file.phase == OpencodeBindingKnown)
       case ProveExec(_) | KnownAbsentExecError(_) => s.file.phase == ProviderExecStarted
       case PassiveRecover(_) => s.file.phase == RuntimeOwnedLaunching || s.file.phase == RecoveryRequired
  }

  function Surviving(event: Event): Event {
    match event
    case Promote(_) => Promote(Survives)
    case CodexPrepare(_) => CodexPrepare(Survives)
    case OpencodePrepare(request, _) => OpencodePrepare(request, Survives)
    case BeginExec(_) => BeginExec(Survives)
    case ProveExec(_) => ProveExec(Survives)
    case KnownAbsentExecError(_) => KnownAbsentExecError(Survives)
    case PassiveRecover(_) => PassiveRecover(Survives)
  }

  /** A call is refused exactly when it does not find its phase, by a reason of its own unless the file
      cannot be read. */
  lemma RefusedExactly(s: Store, event: Event)
    ensures Step(s, event).1.Refused? <==> !Ready(s, event)
    ensures Step(s, event).1.Refused? ==> Step(s, event) == (s, Refused(
      match event
      case CodexPrepare(_) => if s.file.Torn? && s.provider == Codex then JournalMalformed else CodexPrepareUnavailable
      case OpencodePrepare(_, _) =>
        if s.file.Torn? && s.provider == OpenCode then JournalMalformed else OpencodePrepareUnavailable
      case Promote(_) => if s.file.Torn? then JournalMalformed else CapabilityUnavailable
      case BeginExec(_) => if s.file.Torn? then JournalMalformed else ProviderExecUnavailable
      case ProveExec(_) => if s.file.Torn? then JournalMalformed else ProofUnavailable
      case KnownAbsentExecError(_) => if s.file.Torn? then JournalMalformed else ExecErrorUnavailable
      case PassiveRecover(_) => if s.file.Torn? then JournalMalformed else PassiveRecoveryUnavailable))
  {
  }

  /** A preparation that its caller survives knows a binding exactly when the request arrived and was
      answered; otherwise it needs recovery, and says that it does not know. */
  lemma BindingKnownExactly(s: Store, request: Request)
    requires Ready(s, OpencodePrepare(request, Survives))
    ensures var (t, o) := Step(s, OpencodePrepare(request, Survives));
      && o == Done && t.provider == s.provider && t.posts == s.posts + (if request.arrives then 1 else 0)
      && (t.file == Intact(OpencodeBindingKnown, Known) <==> request.arrives && request.answered)
      && (t.file == Intact(RecoveryRequired, Unknown) <==> !request.arrives || !request.answered)
  {
  }

  /** Dying in or after a write leaves a truncated or a whole record, and what a call that survives
      leaves otherwise. A preparation dies in the same way around its first write, before anything is
      sent; after the request; and around its second write. */
  lemma DeathLeaves(s: Store, event: Event)
    requires Ready(s, event) && !(event.PassiveRecover? && s.file.phase == RecoveryRequired)
    ensures var (t, o) := Step(s, event);
      var (t', o') := Step(s, Surviving(event));
      && o' == Done
      && if event.OpencodePrepare? then
           match event.crash
           case Survives => o == Done && t == t'
           case InWrite(n) =>
             if n == 0 then o == Died && t == s.(file := Torn)
             else if n == 1 then o == Died && t == t'.(file := Torn) else o == Done && t == t'
           case AfterWrite(n) =>
             if n == 0 then o == Died && t == s.(file := Intact(OpencodePostAttempted, Unknown))
             else if n == 1 then o == Died && t == t' else o == Done && t == t'
           case AfterPost => o == Died && t == t'.(file := Intact(OpencodePostAttempted, Unknown))
         else
           match event.crash
           case InWrite(n) => if n == 0 then o == Died && t == t'.(file := Torn) else o == Done && t == t'
           case AfterWrite(n) => if n == 0 then o == Died && t == t' else o == Done && t == t'
           case _ => o == Done && t == t'
  {
  }

  // The courses of a launch

  const ISSUED: File := Intact(Issued, NoPost)

  function Prepares(provider: Provider): Event {
    if provider == Codex then CodexPrepare(Survives) else OpencodePrepare(Request(true, true), Survives)
  }

  lemma RunPlus(s: Store, events: seq<Event>, event: Event)
    ensures Run(s, events + [event]) == Step(Run(s, events), event).0
    decreases |events|
  {
    if events == [] {
      assert Run(Step(s, event).0, ([] + [event])[1..]) == Step(s, event).0;
    } else {
      assert (events + [event])[1..] == events[1..] + [event];
      RunPlus(Step(s, events[0]).0, events[1..], event);
    }
  }

  /** A start is on record, with the requests its provider needed. */
  function StartedStore(provider: Provider): Store {
    Store(provider, Intact(ProviderExecStarted, if provider == Codex then NoPost else Known), if provider == Codex then 0 else 1)
  }

  lemma LaunchStarts(provider: Provider)
    ensures Run(Store(provider, ISSUED, 0), [Promote(Survives), Prepares(provider), BeginExec(Survives)])
         == StartedStore(provider)
  {
    var s, promote, begin := Store(provider, ISSUED, 0), Promote(Survives), BeginExec(Survives);
    RunPlus(s, [], promote);
    assert [] + [promote] == [promote];
    RunPlus(s, [promote], Prepares(provider));
    assert [promote] + [Prepares(provider)] == [promote, Prepares(provider)];
    RunPlus(s, [promote, Prepares(provider)], begin);
    assert [promote, Prepares(provider)] + [begin] == [promote, Prepares(provider), begin];
  }

  /** Promoted, prepared with an answered request, started and proven: every new journal comes to be
      released that way, after no request for Codex and one for OpenCode. */
  lemma LaunchReleases(provider: Provider)
    ensures var t := Run(Store(provider, ISSUED, 0),
                         [Promote(Survives), Prepares(provider), BeginExec(Survives), ProveExec(Survives)]);
      && Released(t.file) && t.file.outcome == (if provider == Codex then NoPost else Known)
      && t.posts == (if provider == Codex then 0 else 1)
  {
    var s, started := Store(provider, ISSUED, 0), [Promote(Survives), Prepares(provider), BeginExec(Survives)];
    LaunchStarts(provider);
    RunPlus(s, started, ProveExec(Survives));
    assert started + [ProveExec(Survives)] == [Promote(Survives), Prepares(provider), BeginExec(Survives), ProveExec(Survives)];
  }

  /** A start whose exec is known to be absent ends without any effect for Codex, and with its binding
      kept for OpenCode. */
  lemma AbsentExecEnds(provider: Provider)
    ensures Step(StartedStore(provider), KnownAbsentExecError(Survives)) == (
      if provider == Codex then Store(Codex, Intact(RolledBackNoEffect, NoPost), 0)
      else Store(OpenCode, Intact(StoppedBindingRecovery, Known), 1), Done)
  {
  }

  /** A promoted journal that nobody prepared is rolled back by recovery; one whose request got no
      answer stays in recovery. */
  lemma RecoveryEnds(provider: Provider, request: Request)
    requires !(request.arrives && request.answered)
    ensures var promoted := Step(Store(provider, ISSUED, 0), Promote(Survives)).0;
      && Step(promoted, PassiveRecover(Survives)) == (Store(provider, Intact(RolledBackNoEffect, NoPost), 0), Done)
      && (provider == OpenCode ==>
            var lost := Step(promoted, OpencodePrepare(request, Survives)).0;
            lost.file == Intact(RecoveryRequired, Unknown) && Step(lost, PassiveRecover(Survives)) == (lost, Done))
  {
  }
}
