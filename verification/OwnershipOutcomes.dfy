/** Exactly when each call of the ownership lifecycle succeeds, told by the files alone, and what it
    leaves behind; and the two courses a candidate can take, from its creation to its end. */
module OwnershipOutcomes {
  import opened Bytes
  import opened Ownership
  import opened OwnershipSafety

  // When a call succeeds

  /** The only runtime directories are those of owned runtimes and, if there is one, the candidate's. */
  predicate OnlyKnown(s: Store, candidate: Option<Id>) {
    forall n :: n in s.run ==> n.Runtime? && n.id.WellFormed? && (n.id in s.owned || candidate == Some(n.id))
  }

  /** The namespace is this candidate's: one marker, an existing seed, a readable registry, private
      artifacts, and nothing else. */
  predicate Undisturbed(s: Store, c: Candidate) {
    && s.markers == map[c.presentation := c] && c.seed in s.seeds && |s.owned| <= 32
    && OnlyKnown(s, Some(c.candidate)) && Runtime(c.candidate) in s.run && s.run[Runtime(c.candidate)]
  }

  /** No marker, a readable registry, and only owned runtimes. */
  predicate Untouched(s: Store) {
    s.markers == map[] && |s.owned| <= 32 && OnlyKnown(s, None)
  }

  lemma UncrowdedIsSingle(s: Store, p: Id)
    requires p in s.markers
    ensures !Crowded(s) <==> s.markers == map[p := s.markers[p]]
  {
    if !Crowded(s) {
      assert s.markers.Keys == {p};
    }
  }

  lemma SameExactly(s: Store, c: Candidate)
    ensures ExactSlot(s, c) == Ok(c) <==> Undisturbed(s, c)
    ensures ExactSlot(s, c).Ok? ==> ExactSlot(s, c).value == c
  {
    if c.presentation in s.markers {
      UncrowdedIsSingle(s, c.presentation);
      assert Crowded(s) || forall n :: n in s.run ==>
        (Accounted(s, n) <==> n.Runtime? && n.id.WellFormed? && (n.id in s.owned || s.markers[c.presentation].candidate == n.id));
    }
  }

  lemma CleanExactly(s: Store, presentation: Id)
    ensures Classify(s, presentation) == Ok(Clean) <==> Untouched(s)
  {
  }

  lemma OwnMarkerExactly(s: Store, presentation: Id)
    requires presentation in s.markers && s.markers[presentation].presentation == presentation
    ensures Classify(s, presentation) == Ok(Same) <==> Undisturbed(s, s.markers[presentation])
  {
    SameExactly(s, s.markers[presentation]);
  }

  // The calls, one by one

  /** The identities are well formed, the seed exists, and neither directory is taken. */
  predicate Creatable(s: Store, c: Candidate) {
    && c.seed in s.seeds && c.presentation.WellFormed? && c.candidate.WellFormed?
    && c.presentation !in s.vacant && Runtime(c.candidate) !in s.run
  }

  /** Materialization returns the presentation's own undisturbed candidate, or creates a new one in an
      untouched namespace; nothing else makes it succeed. */
  lemma MaterializedExactly(s: Store, e: Event)
    requires Inv(s) && e.Materialize? && Possible(s, e)
    ensures var (t, o) := Apply(s, e);
      var c := Proposed(e);
      if e.presentation in s.markers && Undisturbed(s, s.markers[e.presentation]) then
        t == s && o == Materialized(s.markers[e.presentation])
      else if Untouched(s) && Creatable(s, c) then
        && o == Materialized(c)
        && t == s.(markers := map[c.presentation := c], run := s.run[Runtime(c.candidate) := true],
                   drawn := s.drawn + {c.slot})
      else o.Refused?
  {
    CleanExactly(s, e.presentation);
    if e.presentation in s.markers {
      OwnMarkerExactly(s, e.presentation);
    } else if Untouched(s) {
      assert s.markers[e.presentation := Proposed(e)] == map[e.presentation := Proposed(e)];
    }
  }

  /** A capability is issued exactly for an undisturbed candidate that has no record yet. */
  lemma PreparedExactly(s: Store, c: Candidate)
    ensures var (t, o) := Apply(s, Prepare(c));
      if Undisturbed(s, c) && c.slot !in s.journal then
        o == Prepared && t == s.(journal := s.journal[c.slot := Record(c, Issued)])
      else
        t == s && o.Refused? && (o == Refused(AlreadyIssued) <==> Undisturbed(s, c))
  {
    SameExactly(s, c);
  }

  /** The handle is the marker's, its artifacts are exact, and its record, if it has one, is its own
      and not past ownership. */
  predicate Removable(s: Store, c: Candidate) {
    && c.presentation in s.markers && s.markers[c.presentation] == c && c.seed in s.seeds
    && Runtime(c.candidate) in s.run && s.run[Runtime(c.candidate)]
    && (c.slot in s.journal ==> s.journal[c.slot] == Record(c, Issued) || s.journal[c.slot] == Record(c, Cancelled))
  }

  /** The marker of the handle's presentation can be read. */
  predicate Marked(s: Store, c: Candidate) {
    c.presentation in s.markers && s.markers[c.presentation].seed in s.seeds
  }

  /** Cleanup succeeds exactly for a removable candidate, prepared or not; it takes back marker and
      artifacts and leaves a record, if there was one, cancelled. Without a marker it does nothing for
      an owned runtime. Everything else is refused. */
  lemma CleanedExactly(s: Store, c: Candidate)
    ensures var (t, o) := Apply(s, Cleanup(c));
      if Removable(s, c) then
        && o == Cleaned
        && t == s.(markers := s.markers - {c.presentation}, run := s.run - {Runtime(c.candidate)},
                   journal := if c.slot in s.journal then s.journal[c.slot := Record(c, Cancelled)] else s.journal)
      else if !Marked(s, c) && |s.owned| <= 32 && c.candidate in s.owned then o == OwnershipNoop && t == s
      else o.Refused?
  {
    if c.slot in s.journal && s.journal[c.slot] == Record(c, Cancelled) {
      assert s.journal[c.slot := Record(c, Cancelled)] == s.journal;
    }
  }

  /** Why a cleanup is refused. */
  lemma CleanupRefusedBecause(s: Store, c: Candidate)
    requires !Removable(s, c) && !(!Marked(s, c) && |s.owned| <= 32 && c.candidate in s.owned)
    ensures Apply(s, Cleanup(c)).1 == Refused(
      if !Marked(s, c) then
        if |s.owned| > 32 then RegistryMalformed
        else if c.presentation !in s.markers then RecordUnavailable else MarkerMalformed
      else if s.markers[c.presentation] != c then MarkerMismatch
      else if c.slot in s.journal && s.journal[c.slot].candidate != c then JournalMismatched
      else if c.slot in s.journal && s.journal[c.slot].phase in {RuntimeOwnedLaunching, ExecProven} then AfterOwnership
      else CleanupAmbiguous)
  {
  }

  /** Promotion succeeds exactly for an undisturbed candidate with an issued capability. */
  lemma PromotedExactly(s: Store, c: Candidate)
    ensures var (t, o) := Apply(s, Promote(c));
      if Undisturbed(s, c) && c.slot in s.journal && s.journal[c.slot] == Record(c, Issued) && c.candidate !in s.owned then
        && o == Promoted
        && t == s.(markers := map[], owned := s.owned + {c.candidate},
                   journal := s.journal[c.slot := Record(c, RuntimeOwnedLaunching)])
      else t == s && o.Refused?
  {
    SameExactly(s, c);
    if Undisturbed(s, c) {
      assert s.markers - {c.presentation} == map[];
    }
  }

  /** An exec proof succeeds exactly for an owned runtime whose record is its own and launching. */
  lemma ProvenExactly(s: Store, c: Candidate)
    ensures var (t, o) := Apply(s, ProveExec(c));
      if |s.owned| <= 32 && c.candidate in s.owned && c.slot in s.journal
         && s.journal[c.slot] == Record(c, RuntimeOwnedLaunching) then
        o == Proven && t == s.(journal := s.journal[c.slot := Record(c, ExecProven)])
      else t == s && o.Refused?
  {
  }

  /** Actions are allowed exactly for an owned runtime whose record is its own and proven. */
  lemma AllowedExactly(s: Store, c: Candidate)
    ensures ActionAllowed(s, c) == Ok(true) <==>
      |s.owned| <= 32 && c.candidate in s.owned && c.slot in s.journal && s.journal[c.slot] == Record(c, ExecProven)
  {
  }

  // The two courses of a candidate

  /** The state in which a new candidate is about to be created. */
  predicate Opening(s: Store, e: Event) {
    e.Materialize? && Possible(s, e) && Untouched(s) && Creatable(s, Proposed(e))
  }

  lemma NewIsUndisturbed(s: Store, e: Event)
    requires Inv(s) && Opening(s, e)
    ensures var t := Apply(s, e).0;
      Undisturbed(t, Proposed(e)) && Proposed(e).slot !in s.journal && Proposed(e).candidate !in s.owned
      && t.journal == s.journal && t.owned == s.owned && t.vacant == s.vacant && t.seeds == s.seeds
  {
    MaterializedExactly(s, e);
  }

  lemma RunOne(s: Store, e: Event)
    ensures Run(s, [e]) == Apply(s, e).0
  {
    assert Run(Apply(s, e).0, [e][1..]) == Apply(s, e).0;
  }

  /** Cleaning up a candidate takes its creation and its preparation back: what is left of them is its
      slot generation, and a record that says cancelled if it was prepared. */
  lemma CleanupUndoes(s: Store, e: Event, prepared: bool)
    requires Inv(s) && Opening(s, e)
    ensures var c := Proposed(e);
      var created := if prepared then [e, Prepare(c)] else [e];
      && Apply(Run(s, created), Cleanup(c)).1 == Cleaned
      && Run(s, created + [Cleanup(c)]) == s.(drawn := s.drawn + {c.slot},
           journal := if prepared then s.journal[c.slot := Record(c, Cancelled)] else s.journal)
  {
    var c, created := Proposed(e), Apply(s, e).0;
    NewIsUndisturbed(s, e);
    MaterializedExactly(s, e);
    RunOne(s, e);
    assert s.run[Runtime(c.candidate) := true] - {Runtime(c.candidate)} == s.run;
    assert created.markers - {c.presentation} == s.markers;
    if prepared {
      PreparedExactly(created, c);
      var issued := Apply(created, Prepare(c)).0;
      assert [e] + [Prepare(c)] == [e, Prepare(c)];
      RunAppend(s, [e], Prepare(c));
      CleanedExactly(issued, c);
      RunAppend(s, [e, Prepare(c)], Cleanup(c));
      assert s.journal[c.slot := Record(c, Issued)][c.slot := Record(c, Cancelled)] == s.journal[c.slot := Record(c, Cancelled)];
    } else {
      CleanedExactly(created, c);
      RunAppend(s, [e], Cleanup(c));
    }
  }

  lemma PreparationCompletes(s: Store, e: Event)
    requires Inv(s) && Opening(s, e)
    ensures var c := Proposed(e);
      var issued := Run(s, [e, Prepare(c)]);
      && Undisturbed(issued, c) && c.candidate !in issued.owned && issued.owned == s.owned
      && issued.journal == s.journal[c.slot := Record(c, Issued)]
  {
    var c, created := Proposed(e), Apply(s, e).0;
    NewIsUndisturbed(s, e);
    RunOne(s, e);
    PreparedExactly(created, c);
    assert [e] + [Prepare(c)] == [e, Prepare(c)];
    RunAppend(s, [e], Prepare(c));
  }

  lemma PromotionCompletes(s: Store, e: Event)
    requires Inv(s) && Opening(s, e)
    ensures var c := Proposed(e);
      var promoted := Run(s, [e, Prepare(c), Promote(c)]);
      && Apply(Run(s, [e, Prepare(c)]), Promote(c)) == (promoted, Promoted)
      && c.candidate !in s.owned && promoted.owned == s.owned + {c.candidate} && promoted.markers == map[]
      && c.slot in promoted.journal && promoted.journal[c.slot] == Record(c, RuntimeOwnedLaunching)
  {
    var c := Proposed(e);
    PreparationCompletes(s, e);
    PromotedExactly(Run(s, [e, Prepare(c)]), c);
    assert [e, Prepare(c)] + [Promote(c)] == [e, Prepare(c), Promote(c)];
    RunAppend(s, [e, Prepare(c)], Promote(c));
  }

  lemma ProofAllows(s: Store, c: Candidate)
    requires c.candidate in s.owned && c.slot in s.journal && s.journal[c.slot] == Record(c, RuntimeOwnedLaunching)
    ensures var (t, o) := Apply(s, ProveExec(c));
      if |s.owned| > 32 then o == Refused(RegistryMalformed)
      else o == Proven && ActionAllowed(s, c) == Ok(false) && ActionAllowed(t, c) == Ok(true)
  {
    ProvenExactly(s, c);
    AllowedExactly(Apply(s, ProveExec(c)).0, c);
  }

  /** A candidate that is prepared, promoted and proven is owned, and its actions are then allowed and
      not before, unless it is the 33rd. */
  lemma OnboardingCompletes(s: Store, e: Event)
    requires Inv(s) && Opening(s, e)
    ensures var c := Proposed(e);
      var promoted := Run(s, [e, Prepare(c), Promote(c)]);
      var (proven, o) := Apply(promoted, ProveExec(c));
      && Apply(Run(s, [e, Prepare(c)]), Promote(c)).1 == Promoted
      && promoted.owned == s.owned + {c.candidate} && promoted.markers == map[]
      && if |s.owned| == 32 then o == Refused(RegistryMalformed)
         else o == Proven && ActionAllowed(promoted, c) == Ok(false) && ActionAllowed(proven, c) == Ok(true)
  {
    var c := Proposed(e);
    PromotionCompletes(s, e);
    ProofAllows(Run(s, [e, Prepare(c), Promote(c)]), c);
  }
}
