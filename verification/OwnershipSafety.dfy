/** What every run of the ownership lifecycle keeps, for any number of presentations, any
    handles (stale or forged), foreign artifacts and vanishing seeds. */
module OwnershipSafety {
  import opened Bytes
  import opened Ownership

  predicate IsOwnedPhase(phase: Phase) {
    phase == RuntimeOwnedLaunching || phase == ExecProven
  }

  /** At most one marker; its candidate is live, private and unowned. */
  predicate MarkerInv(s: Store) {
    && !Crowded(s)
    && (forall p :: p in s.markers ==>
         var c := s.markers[p];
         && c.presentation == p && p !in s.vacant && c.slot in s.drawn
         && c.candidate !in s.owned && Runtime(c.candidate) in s.run && Runtime(c.candidate) !in s.planted
         && (c.slot in s.journal ==> !IsOwnedPhase(s.journal[c.slot].phase)))
  }

  /** The journal: one record per drawn slot; an issued record is its marker's, and a record
      past ownership names an owned runtime. */
  predicate JournalInv(s: Store) {
    forall g :: g in s.journal ==>
      var r := s.journal[g];
      && r.candidate.slot == g && g in s.drawn
      && (r.phase == Issued ==> r.candidate.presentation in s.markers && s.markers[r.candidate.presentation] == r.candidate)
      && (IsOwnedPhase(r.phase) ==> r.candidate.candidate in s.owned)
  }

  predicate IsCandidate(s: Store, id: Id) {
    exists p :: p in s.markers && s.markers[p].candidate == id
  }

  /** The runtime namespace holds exactly the owned runtimes, the candidate, and what others planted. */
  ghost predicate NamespaceInv(s: Store) {
    && (forall n :: n in s.run <==>
         || n in s.planted
         || (n.Runtime? && n.id in s.owned)
         || (n.Runtime? && IsCandidate(s, n.id)))
    && (forall i :: i in s.owned ==> Runtime(i) !in s.planted)
  }

  ghost predicate Inv(s: Store) {
    MarkerInv(s) && JournalInv(s) && NamespaceInv(s)
  }

  // Every step keeps the invariant

  lemma CreateKeeps(s: Store, c: Candidate)
    requires Inv(s) && s.markers == map[] && c.slot !in s.drawn
    ensures Inv(Create(s, c).0)
  {
    var t := Create(s, c).0;
    if t.markers != s.markers {
      assert t.markers[c.presentation] == c;
      assert c.slot !in s.journal;
      assert forall id :: IsCandidate(t, id) <==> id == c.candidate;
    } else {
      assert forall id :: IsCandidate(t, id) <==> IsCandidate(s, id);
    }
  }

  lemma RemoveKeeps(s: Store, c: Candidate)
    requires MarkerInv(s) && NamespaceInv(s) && c.presentation in s.markers && s.markers[c.presentation] == c
    requires forall g :: g in s.journal ==> s.journal[g].phase != Issued || s.journal[g].candidate != c
    requires JournalInv(s)
    ensures Inv(Remove(s, c).0)
  {
    var t := Remove(s, c).0;
    assert IsCandidate(s, c.candidate);
    assert forall p :: p in s.markers ==> p == c.presentation by {
      assert !Crowded(s);
    }
    if t.markers != s.markers {
      assert t.markers == map[];
      assert forall id :: IsCandidate(s, id) ==> id == c.candidate;
    }
  }

  lemma CleanupKeeps(s: Store, c: Candidate)
    requires Inv(s)
    ensures Inv(DoCleanup(s, c).0)
  {
    if MarkerAt(s, c.presentation) == Ok(c) {
      if c.slot !in s.journal {
        RemoveKeeps(s, c);
      } else if s.journal[c.slot] == Record(c, Issued) {
        var t := s.(journal := s.journal[c.slot := Record(c, Cancelled)]);
        assert forall id :: IsCandidate(t, id) <==> IsCandidate(s, id);
        assert !Crowded(t);
        assert MarkerInv(t) && JournalInv(t) && NamespaceInv(t);
        RemoveKeeps(t, c);
      } else if s.journal[c.slot] == Record(c, Cancelled) {
        RemoveKeeps(s, c);
      }
    }
  }

  lemma PrepareKeeps(s: Store, c: Candidate)
    requires Inv(s)
    ensures Inv(DoPrepare(s, c).0)
  {
    var t := DoPrepare(s, c).0;
    assert forall id :: IsCandidate(t, id) <==> IsCandidate(s, id);
    assert !Crowded(t);
  }

  lemma PromoteKeeps(s: Store, c: Candidate)
    requires Inv(s)
    ensures Inv(DoPromote(s, c).0)
  {
    var t := DoPromote(s, c).0;
    if t != s {
      assert IsCandidate(s, c.candidate);
      assert forall p :: p in s.markers ==> p == c.presentation by {
        assert !Crowded(s);
      }
      assert t.markers == map[];
      assert forall id :: IsCandidate(s, id) ==> id == c.candidate;
    }
  }

  lemma ProveExecKeeps(s: Store, c: Candidate)
    requires Inv(s)
    ensures Inv(DoProveExec(s, c).0)
  {
    var t := DoProveExec(s, c).0;
    assert forall id :: IsCandidate(t, id) <==> IsCandidate(s, id);
    assert !Crowded(t);
  }

  lemma EnvironmentKeeps(s: Store, e: Event)
    requires Inv(s) && Possible(s, e) && (e.Plant? || e.Disturb? || e.Seeds?)
    ensures Inv(Apply(s, e).0)
  {
    var t := Apply(s, e).0;
    assert forall id :: IsCandidate(t, id) <==> IsCandidate(s, id);
    assert !Crowded(t);
  }

  lemma ApplyKeeps(s: Store, e: Event)
    requires Inv(s)
    ensures Inv(Apply(s, e).0)
  {
    if Possible(s, e) {
      match e
      case Materialize(_, _, _, _, _) =>
        if Classify(s, e.presentation) == Ok(Clean) {
          CreateKeeps(s, Proposed(e));
        }
      case Prepare(c) => PrepareKeeps(s, c);
      case Cleanup(c) => CleanupKeeps(s, c);
      case Promote(c) => PromoteKeeps(s, c);
      case ProveExec(c) => ProveExecKeeps(s, c);
      case _ => EnvironmentKeeps(s, e);
    }
  }

  lemma {:induction false} RunKeeps(s: Store, events: seq<Event>)
    requires Inv(s)
    ensures Inv(Run(s, events))
    decreases |events|
  {
    if events != [] {
      ApplyKeeps(s, events[0]);
      RunKeeps(Apply(s, events[0]).0, events[1..]);
    }
  }

  /** In every run from an empty root there is at most one marker, its candidate is unowned
      and has its directory, and the runtime directories are exactly the owned ones, that
      candidate's, and those others planted. */
  lemma SingletonCandidate(events: seq<Event>, p: Id, q: Id, n: Name)
    ensures var t := Run(EMPTY, events);
      && (p in t.markers && q in t.markers ==> p == q)
      && (p in t.markers ==>
           && t.markers[p].presentation == p && t.markers[p].candidate !in t.owned
           && Runtime(t.markers[p].candidate) in t.run && Runtime(t.markers[p].candidate) !in t.planted)
      && (n in t.run <==> n in t.planted || (n.Runtime? && (n.id in t.owned || IsCandidate(t, n.id))))
  {
    RunKeeps(EMPTY, events);
    assert !Crowded(Run(EMPTY, events));
  }

  // Cleanup or promotion: one winner

  /** The step took the slot of its handle away from the presentation, one way or the other. */
  predicate Wins(e: Event, o: Outcome) {
    (e.Cleanup? && o == Cleaned) || (e.Promote? && o == Promoted)
  }

  /** A slot that was drawn and has no marker any more. */
  predicate Retired(s: Store, slot: Id) {
    slot in s.drawn && forall p :: p in s.markers ==> s.markers[p].slot != slot
  }

  lemma WinnerRetires(s: Store, e: Event)
    requires Inv(s) && Wins(e, Apply(s, e).1)
    ensures !Retired(s, e.handle.slot) && Retired(Apply(s, e).0, e.handle.slot)
  {
    var c := e.handle;
    assert s.markers[c.presentation] == c;
    assert !Crowded(s);
  }

  lemma RetiredStays(s: Store, e: Event, slot: Id)
    requires Inv(s) && Retired(s, slot)
    ensures Retired(Apply(s, e).0, slot)
  {
    match e
    case Materialize(_, _, _, _, _) => DrawnStaysRetired(s, e, slot);
    case _ =>
  }

  lemma DrawnStaysRetired(s: Store, e: Event, slot: Id)
    requires Inv(s) && Retired(s, slot) && e.Materialize?
    ensures Retired(Apply(s, e).0, slot)
  {
  }

  lemma {:induction false} RetiredForever(s: Store, events: seq<Event>, slot: Id)
    requires Inv(s) && Retired(s, slot)
    ensures Retired(Run(s, events), slot)
    decreases |events|
  {
    if events != [] {
      ApplyKeeps(s, events[0]);
      RetiredStays(s, events[0], slot);
      RetiredForever(Apply(s, events[0]).0, events[1..], slot);
    }
  }

  /** Every handle of a retired slot is refused, except that cleanup may find the runtime
      owned and do nothing; the store is left as it is. */
  lemma LoserIsRefused(s: Store, e: Event)
    requires Inv(s) && (e.Cleanup? || e.Promote? || e.Prepare?) && Retired(s, e.handle.slot)
    ensures Apply(s, e).0 == s
    ensures Apply(s, e).1.Refused? || (e.Cleanup? && Apply(s, e).1 == OwnershipNoop && e.handle.candidate in s.owned)
  {
  }

  /** For each slot generation, at most one of cleanup and promotion ever succeeds, and what
      comes after the winner is refused or a no-op, in every later state of every run. */
  lemma OneWinnerPerSlot(s: Store, e: Event, later: seq<Event>, f: Event)
    requires Inv(s) && Wins(e, Apply(s, e).1)
    requires (f.Cleanup? || f.Promote? || f.Prepare?) && f.handle.slot == e.handle.slot
    ensures var t := Run(Apply(s, e).0, later);
      && Apply(t, f).0 == t
      && !Wins(f, Apply(t, f).1)
      && (Apply(t, f).1.Refused? || (f.Cleanup? && Apply(t, f).1 == OwnershipNoop && f.handle.candidate in t.owned))
  {
    ApplyKeeps(s, e);
    WinnerRetires(s, e);
    RetiredForever(Apply(s, e).0, later, e.handle.slot);
    RunKeeps(Apply(s, e).0, later);
    LoserIsRefused(Run(Apply(s, e).0, later), f);
  }

  // Ownership is permanent

  /** Owned runtimes, their directories and their journal phases never go back. */
  predicate KeepsOwned(s: Store, t: Store) {
    && s.owned <= t.owned
    && (forall i :: i in s.owned ==> Runtime(i) in t.run)
    && (forall g :: g in s.journal && IsOwnedPhase(s.journal[g].phase) ==>
         && g in t.journal && t.journal[g].candidate == s.journal[g].candidate
         && (t.journal[g].phase == s.journal[g].phase || t.journal[g].phase == ExecProven))
  }

  lemma CleanupKeepsOwned(s: Store, c: Candidate)
    requires Inv(s)
    ensures KeepsOwned(s, DoCleanup(s, c).0)
  {
    assert forall i :: i in s.owned ==> Runtime(i) in s.run;
  }

  lemma MaterializeKeepsOwned(s: Store, c: Candidate)
    requires Inv(s)
    ensures KeepsOwned(s, DoMaterialize(s, c).0)
  {
    assert forall i :: i in s.owned ==> Runtime(i) in s.run;
  }

  lemma JournalKeepsOwned(s: Store, c: Candidate)
    requires Inv(s)
    ensures KeepsOwned(s, DoPrepare(s, c).0)
    ensures KeepsOwned(s, DoProveExec(s, c).0)
  {
    assert forall i :: i in s.owned ==> Runtime(i) in s.run;
  }

  lemma PromoteKeepsOwned(s: Store, c: Candidate)
    requires Inv(s)
    ensures KeepsOwned(s, DoPromote(s, c).0)
  {
    assert forall i :: i in s.owned ==> Runtime(i) in s.run;
  }

  lemma ApplyKeepsOwned(s: Store, e: Event)
    requires Inv(s)
    ensures KeepsOwned(s, Apply(s, e).0)
  {
    match e
    case Materialize(_, _, _, _, _) => MaterializeKeepsOwned(s, Proposed(e)); OwnedHaveDirectories(s);
    case Prepare(c) => JournalKeepsOwned(s, c);
    case ProveExec(c) => JournalKeepsOwned(s, c);
    case Promote(c) => PromoteKeepsOwned(s, c);
    case Cleanup(c) => CleanupKeepsOwned(s, c);
    case _ => OwnedHaveDirectories(s);
  }

  lemma OwnedHaveDirectories(s: Store)
    requires NamespaceInv(s)
    ensures forall i :: i in s.owned ==> Runtime(i) in s.run
  {
  }

  /** No run removes the directory of an owned runtime or revokes its ownership. */
  lemma {:induction false} OwnershipIsPermanent(s: Store, events: seq<Event>)
    requires Inv(s)
    ensures KeepsOwned(s, Run(s, events))
    decreases |events|
  {
    if events == [] {
      assert forall i :: i in s.owned ==> Runtime(i) in s.run;
    } else {
      ApplyKeeps(s, events[0]);
      ApplyKeepsOwned(s, events[0]);
      OwnershipIsPermanent(Apply(s, events[0]).0, events[1..]);
    }
  }

  /** A handle that is not the marker of its presentation changes no marker and no runtime
      directory, whatever it is used for. */
  lemma StaleHandleChangesNoMarker(s: Store, e: Event)
    requires e.Prepare? || e.Cleanup? || e.Promote? || e.ProveExec?
    requires e.handle.presentation in s.markers ==> s.markers[e.handle.presentation] != e.handle
    ensures var t := Apply(s, e).0;
      t.markers == s.markers && t.run == s.run && t.owned == s.owned && t.vacant == s.vacant
  {
  }

  // The action fence

  /** The i-th event of the run is e, and o its outcome. */
  predicate Happens(events: seq<Event>, i: int, e: Event, o: Outcome) {
    0 <= i < |events| && events[i] == e && Apply(Run(EMPTY, events[..i]), e).1 == o
  }

  ghost predicate WasPromoted(events: seq<Event>, c: Candidate) {
    exists i :: Happens(events, i, Promote(c), Promoted)
  }

  /** Somewhere in the run the handle was promoted, and later its exec was proven. */
  ghost predicate PromotedThenProven(events: seq<Event>, c: Candidate) {
    exists i, j :: i < j && Happens(events, i, Promote(c), Promoted) && Happens(events, j, ProveExec(c), Proven)
  }

  lemma {:induction false} RunAppend(s: Store, events: seq<Event>, e: Event)
    ensures Run(s, events + [e]) == Apply(Run(s, events), e).0
    decreases |events|
  {
    if events == [] {
      assert ([] + [e])[1..] == [];
    } else {
      assert (events + [e])[1..] == events[1..] + [e];
      RunAppend(Apply(s, events[0]).0, events[1..], e);
    }
  }

  lemma StillHappened(before: seq<Event>, e: Event, i: int, f: Event, o: Outcome)
    requires Happens(before, i, f, o)
    ensures Happens(before + [e], i, f, o)
  {
    assert (before + [e])[..i] == before[..i];
  }

  lemma LastHappens(before: seq<Event>, e: Event)
    ensures Happens(before + [e], |before|, e, Apply(Run(EMPTY, before), e).1)
  {
    assert (before + [e])[..|before|] == before;
  }

  predicate Recorded(s: Store, c: Candidate, phase: Phase) {
    c.slot in s.journal && s.journal[c.slot] == Record(c, phase)
  }

  /** Which single step puts a record into a phase past ownership. */
  lemma RecordedBy(s: Store, e: Event, c: Candidate)
    ensures var (t, o) := Apply(s, e);
      && (Recorded(t, c, RuntimeOwnedLaunching) ==>
           Recorded(s, c, RuntimeOwnedLaunching) || (e == Promote(c) && o == Promoted))
      && (Recorded(t, c, ExecProven) ==>
           Recorded(s, c, ExecProven) || (e == ProveExec(c) && o == Proven && Recorded(s, c, RuntimeOwnedLaunching)))
  {
  }

  lemma {:induction false} JournalIsExplained(events: seq<Event>, c: Candidate)
    ensures Recorded(Run(EMPTY, events), c, RuntimeOwnedLaunching) ==> WasPromoted(events, c)
    ensures Recorded(Run(EMPTY, events), c, ExecProven) ==> PromotedThenProven(events, c)
    decreases |events|
  {
    if events != [] {
      var before, e := events[..|events| - 1], events[|events| - 1];
      assert events == before + [e];
      JournalIsExplained(before, c);
      RunAppend(EMPTY, before, e);
      LastHappens(before, e);
      RecordedBy(Run(EMPTY, before), e, c);
      if i :| Happens(before, i, Promote(c), Promoted) {
        StillHappened(before, e, i, Promote(c), Promoted);
      }
      if i, j :| i < j && Happens(before, i, Promote(c), Promoted) && Happens(before, j, ProveExec(c), Proven) {
        StillHappened(before, e, i, Promote(c), Promoted);
        StillHappened(before, e, j, ProveExec(c), Proven);
      }
    }
  }

  /** Actions on a runtime are allowed only after this very candidate was promoted and then
      its exec proven. */
  lemma ActionsAreFenced(events: seq<Event>, c: Candidate)
    requires ActionAllowed(Run(EMPTY, events), c) == Ok(true)
    ensures PromotedThenProven(events, c)
  {
    JournalIsExplained(events, c);
  }

  /** And once proven they stay allowed in every later state whose registry can be read. */
  lemma ProvenActionsStayAllowed(s: Store, c: Candidate, later: seq<Event>)
    requires Inv(s) && Apply(s, ProveExec(c)).1 == Proven
    ensures var t := Run(Apply(s, ProveExec(c)).0, later);
      ActionAllowed(t, c) == if |t.owned| <= MAX_OWNED then Ok(true) else Err(RegistryMalformed)
  {
    ApplyKeeps(s, ProveExec(c));
    OwnershipIsPermanent(Apply(s, ProveExec(c)).0, later);
  }

  // Where a refusal is not free of effects

  /** The two guards behind which a refused call has already changed the store: a candidate
      name that is taken, and prepared artifacts that are no longer exact. */
  predicate RefusesLate(s: Store, e: Event) {
    match e
    case Materialize(p, seed, _, _, _) =>
      && Classify(s, p) == Ok(Clean)
      && seed in s.seeds && p.WellFormed? && Proposed(e).candidate.WellFormed? && p !in s.vacant
      && Runtime(Proposed(e).candidate) in s.run
    case Cleanup(c) =>
      && MarkerAt(s, c.presentation) == Ok(c)
      && ReadJournal(s, c) == Ok(Issued)
      && !Exact(s, c)
    case _ => false
  }

  /** Everything a later call can see; the slot generations drawn are not stored anywhere. */
  predicate SameFiles(s: Store, t: Store) {
    s.(drawn := {}) == t.(drawn := {})
  }

  lemma CreateRefusals(s: Store, c: Candidate)
    requires Create(s, c).1.Refused?
    ensures SameFiles(s, Create(s, c).0)
       <==> !(c.seed in s.seeds && c.presentation.WellFormed? && c.candidate.WellFormed?
              && c.presentation !in s.vacant && Runtime(c.candidate) in s.run)
  {
    if Create(s, c).1 == Refused(CandidateCollision) {
      assert c.presentation in Create(s, c).0.vacant;
    }
  }

  lemma CleanupRefusals(s: Store, c: Candidate)
    requires DoCleanup(s, c).1.Refused?
    ensures SameFiles(s, DoCleanup(s, c).0)
       <==> !(MarkerAt(s, c.presentation) == Ok(c) && ReadJournal(s, c) == Ok(Issued) && !Exact(s, c))
  {
    if DoCleanup(s, c).0 != s {
      assert DoCleanup(s, c).0.journal[c.slot].phase == Cancelled;
    }
  }

  /** A refused call leaves every file as it was, exactly unless it is one of those two. */
  lemma RefusalEffects(s: Store, e: Event)
    requires Possible(s, e) && Apply(s, e).1.Refused?
    ensures SameFiles(s, Apply(s, e).0) <==> !RefusesLate(s, e)
  {
    match e
    case Materialize(p, _, _, _, _) =>
      if Classify(s, p) == Ok(Clean) {
        CreateRefusals(s, Proposed(e));
      }
    case Cleanup(c) => CleanupRefusals(s, c);
    case _ =>
  }

  lemma VacantStays(s: Store, e: Event, p: Id)
    requires p in s.vacant
    ensures p in Apply(s, e).0.vacant
  {
  }

  /** A presentation whose directory a collision left behind can never materialize again. */
  lemma {:induction false} CollisionStrandsPresentation(s: Store, events: seq<Event>, p: Id)
    requires Inv(s) && p in s.vacant
    ensures p in Run(s, events).vacant && p !in Run(s, events).markers
    decreases |events|
  {
    if events != [] {
      ApplyKeeps(s, events[0]);
      VacantStays(s, events[0], p);
      CollisionStrandsPresentation(Apply(s, events[0]).0, events[1..], p);
    }
  }

  /** The promotion that fills the registry beyond what it can be read back succeeds. */
  lemma PromotionCanOverfill(s: Store, c: Candidate)
    requires Apply(s, Promote(c)).1 == Promoted
    ensures (|Apply(s, Promote(c)).0.owned| > MAX_OWNED) <==> |s.owned| == MAX_OWNED
  {
    assert |s.owned| <= MAX_OWNED;
    assert |s.owned + {c.candidate}| == |s.owned| + 1;
  }

  lemma OverfullRefusesEverything(s: Store, e: Event)
    requires Inv(s) && |s.owned| > MAX_OWNED && s.markers == map[]
    ensures Apply(s, e).0.owned == s.owned && Apply(s, e).0.markers == map[]
    ensures Possible(s, e) && !e.Plant? && !e.Disturb? && !e.Seeds? ==>
      Apply(s, e) == (s, Refused(RegistryMalformed)) || (Apply(s, e).0 == s && Apply(s, e).1 == Refused(RecordUnavailable))
  {
  }

  /** In no reachable state does the registry overflow while a marker is left. */
  predicate OverfullIsUnmarked(s: Store) {
    |s.owned| > MAX_OWNED ==> s.markers == map[]
  }

  lemma OverfillLeavesNoMarker(s: Store, e: Event)
    requires Inv(s) && |s.owned| <= MAX_OWNED
    ensures OverfullIsUnmarked(Apply(s, e).0)
  {
    var t := Apply(s, e).0;
    if t.owned != s.owned {
      assert !Crowded(s);
      assert t.markers == map[];
    }
  }

  lemma {:induction false} OverfullForever(s: Store, events: seq<Event>)
    requires Inv(s) && OverfullIsUnmarked(s)
    ensures OverfullIsUnmarked(Run(s, events))
    ensures |s.owned| > MAX_OWNED ==> Run(s, events).owned == s.owned
    decreases |events|
  {
    if events != [] {
      var e, t := events[0], Apply(s, events[0]).0;
      ApplyKeeps(s, e);
      if |s.owned| > MAX_OWNED {
        OverfullRefusesEverything(s, e);
      } else {
        OverfillLeavesNoMarker(s, e);
      }
      OverfullForever(t, events[1..]);
    }
  }

  /** After the 33rd promotion every call is refused, in every later state of every run, and
      only the environment still changes anything. */
  lemma OverfullIsTheEnd(s: Store, c: Candidate, later: seq<Event>, f: Event)
    requires Inv(s) && |s.owned| == MAX_OWNED && Apply(s, Promote(c)).1 == Promoted
    requires f.Materialize? || f.Prepare? || f.Cleanup? || f.Promote? || f.ProveExec?
    requires Possible(Run(Apply(s, Promote(c)).0, later), f)
    ensures var t := Run(Apply(s, Promote(c)).0, later);
      Apply(t, f).0 == t && Apply(t, f).1.Refused?
  {
    var full := Apply(s, Promote(c)).0;
    ApplyKeeps(s, Promote(c));
    PromotionCanOverfill(s, c);
    OverfillLeavesNoMarker(s, Promote(c));
    OverfullForever(full, later);
    RunKeeps(full, later);
    OverfullRefusesEverything(Run(full, later), f);
  }
}
