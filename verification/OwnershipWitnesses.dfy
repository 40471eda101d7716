/** Runs that lead to the ownership lifecycle's late refusals and to its overfull registry. */
module OwnershipWitnesses {
  import opened Bytes
  import opened Ownership
  import opened OwnershipSafety

  const SEED: string := "s"

  /** Identities that tell numbers apart. */
  function Serial(n: nat): Id {
    WellFormed(seq(n, i => 'a'))
  }

  lemma SerialsDiffer(m: nat, n: nat)
    ensures Serial(m) == Serial(n) ==> m == n
  {
    assert |Serial(m).text| == m && |Serial(n).text| == n;
  }

  function Numbered(n: nat): Candidate {
    Candidate(Serial(n), Serial(n), Serial(n), SEED)
  }

  function Born(n: nat): Event {
    Materialize(Serial(n), SEED, None, Serial(n), Serial(n))
  }

  function Serials(n: nat): set<Id> {
    if n == 0 then {} else Serials(n - 1) + {Serial(n - 1)}
  }

  lemma {:induction false} SerialIsNew(m: nat, n: nat)
    requires m <= n
    ensures Serial(n) !in Serials(m)
  {
    if m > 0 {
      SerialIsNew(m - 1, n);
      SerialsDiffer(m - 1, n);
    }
  }

  lemma {:induction false} CountSerials(n: nat)
    ensures |Serials(n)| == n
    ensures forall id :: id in Serials(n) ==> id.WellFormed?
  {
    if n > 0 {
      CountSerials(n - 1);
      SerialIsNew(n - 1, n - 1);
    }
  }

  /** n candidates were onboarded, one after the other, and nothing is going on. */
  ghost predicate Standing(s: Store, n: nat) {
    && s.markers == map[] && s.vacant == {} && s.seeds == {SEED}
    && s.owned == Serials(n) && s.drawn == Serials(n) && s.journal.Keys == Serials(n)
    && (forall x :: x in s.run <==> x.Runtime? && x.id in s.owned)
  }

  /** The next candidate has a marker and an issued capability. */
  function Offered(s: Store, n: nat): Store {
    var c := Numbered(n);
    s.(markers := map[Serial(n) := c], run := s.run[Runtime(Serial(n)) := true],
       journal := s.journal[Serial(n) := Record(c, Issued)], drawn := s.drawn + {Serial(n)})
  }

  /** The next candidate is owned, and its marker is gone. */
  function Onboarded(s: Store, n: nat): Store {
    s.(run := s.run[Runtime(Serial(n)) := true], owned := s.owned + {Serial(n)},
       journal := s.journal[Serial(n) := Record(Numbered(n), RuntimeOwnedLaunching)], drawn := s.drawn + {Serial(n)})
  }

  lemma BornIsClean(s: Store, n: nat)
    requires Standing(s, n) && n <= MAX_OWNED
    ensures Possible(s, Born(n)) && Classify(s, Serial(n)) == Ok(Clean) && Runtime(Serial(n)) !in s.run
  {
    SerialIsNew(n, n);
    CountSerials(n);
  }

  /** The next candidate has a marker. */
  function Marked(s: Store, n: nat): Store {
    Offered(s, n).(journal := s.journal)
  }

  lemma NextIsMarked(s: Store, n: nat)
    requires Standing(s, n) && n <= MAX_OWNED
    ensures Apply(s, Born(n)).0 == Marked(s, n)
  {
    BornIsClean(s, n);
    assert s.markers[Serial(n) := Numbered(n)] == map[Serial(n) := Numbered(n)];
  }

  /** A marker of its own and nothing unaccounted for: the namespace is this presentation's. */
  lemma MarkedIsSame(s: Store, n: nat, t: Store)
    requires Standing(s, n) && n <= MAX_OWNED && t.(journal := s.journal) == Marked(s, n)
    ensures ExactSlot(t, Numbered(n)) == Ok(Numbered(n))
  {
    CountSerials(n);
    assert t.markers[Serial(n)] == Numbered(n);
  }

  lemma NextIsPrepared(s: Store, n: nat)
    requires Standing(s, n) && n <= MAX_OWNED
    ensures Apply(Marked(s, n), Prepare(Numbered(n))).0 == Offered(s, n)
  {
    MarkedIsSame(s, n, Marked(s, n));
    SerialIsNew(n, n);
  }

  lemma NextIsPromoted(s: Store, n: nat)
    requires Standing(s, n) && n <= MAX_OWNED
    ensures Apply(Offered(s, n), Promote(Numbered(n))) == (Onboarded(s, n), Promoted)
  {
    MarkedIsSame(s, n, Offered(s, n));
    SerialIsNew(n, n);
    var record := Record(Numbered(n), RuntimeOwnedLaunching);
    assert Offered(s, n).journal[Serial(n) := record] == s.journal[Serial(n) := record];
    assert Offered(s, n).markers - {Serial(n)} == s.markers;
  }

  lemma NextStands(s: Store, n: nat)
    requires Standing(s, n)
    ensures Standing(Onboarded(s, n), n + 1)
  {
    assert Serials(n + 1) == Serials(n) + {Serial(n)};
  }

  ghost predicate Reached(s: Store) {
    exists events :: Run(EMPTY, events) == s
  }

  lemma ReachedStep(s: Store, e: Event)
    requires Reached(s)
    ensures Reached(Apply(s, e).0)
  {
    var events :| Run(EMPTY, events) == s;
    RunAppend(EMPTY, events, e);
  }

  lemma OfferedIsReached(s: Store, n: nat)
    requires Reached(s) && Standing(s, n) && n <= MAX_OWNED
    ensures Reached(Offered(s, n))
  {
    NextIsMarked(s, n);
    NextIsPrepared(s, n);
    ReachedStep(s, Born(n));
    ReachedStep(Marked(s, n), Prepare(Numbered(n)));
  }

  lemma {:induction false} StandingIsReached(n: nat) returns (s: Store)
    requires n <= MAX_OWNED + 1
    ensures Reached(s) && Standing(s, n)
  {
    if n == 0 {
      assert Run(EMPTY, []) == EMPTY;
      s := Apply(EMPTY, Seeds({SEED})).0;
      ReachedStep(EMPTY, Seeds({SEED}));
    } else {
      var before := StandingIsReached(n - 1);
      OfferedIsReached(before, n - 1);
      NextIsPromoted(before, n - 1);
      ReachedStep(Offered(before, n - 1), Promote(Numbered(n - 1)));
      s := Onboarded(before, n - 1);
      NextStands(before, n - 1);
    }
  }

  /** Some run has 32 owned runtimes and a prepared candidate whose promotion succeeds, and so reads
      its registry for the last time. */
  lemma OverfillHappens()
    ensures exists s, c :: Reached(s) && |s.owned| == MAX_OWNED && Apply(s, Promote(c)).1 == Promoted
                        && |Apply(s, Promote(c)).0.owned| > MAX_OWNED
  {
    var s := StandingIsReached(MAX_OWNED);
    OfferedIsReached(s, MAX_OWNED);
    NextIsPromoted(s, MAX_OWNED);
    NextStands(s, MAX_OWNED);
    CountSerials(MAX_OWNED);
    CountSerials(MAX_OWNED + 1);
    var t, c := Offered(s, MAX_OWNED), Numbered(MAX_OWNED);
    assert Reached(t) && |t.owned| == MAX_OWNED && Apply(t, Promote(c)).1 == Promoted;
  }

  /** A prepared candidate whose artifact was disturbed: its cleanup cancels the journal and is refused. */
  lemma LateCleanupHappens()
    ensures exists s, c ::
      Reached(s) && RefusesLate(s, Cleanup(c)) && Apply(s, Cleanup(c)).1 == Refused(CleanupAmbiguous)
      && !SameFiles(s, Apply(s, Cleanup(c)).0)
  {
    var s0 := StandingIsReached(0);
    OfferedIsReached(s0, 0);
    var offered, c := Offered(s0, 0), Numbered(0);
    var e := Disturb(Runtime(Serial(0)), false);
    ReachedStep(offered, e);
    var s := Apply(offered, e).0;
    assert s.markers[Serial(0)] == c && ReadJournal(s, c) == Ok(Issued) && !Exact(s, c);
    RefusalEffects(s, Cleanup(c));
    assert RefusesLate(s, Cleanup(c)) && Apply(s, Cleanup(c)).1 == Refused(CleanupAmbiguous);
  }

  /** A materialization that is given an owned id leaves its presentation directory and is refused. */
  lemma LateMaterializationHappens()
    ensures exists s, e: Event ::
      Reached(s) && e.Materialize? && RefusesLate(s, e) && Apply(s, e).1 == Refused(CandidateCollision)
      && e.presentation in Apply(s, e).0.vacant
  {
    var s := StandingIsReached(1);
    assert Serials(1) == Serials(0) + {Serial(0)};
    var owned := Serial(0);
    BornIsClean(s, 1);
    var e := Materialize(Serial(1), SEED, Some(owned), Serial(1), Serial(1));
    assert Runtime(owned) in s.run;
    assert RefusesLate(s, e) && Apply(s, e).1 == Refused(CandidateCollision);
  }
}
