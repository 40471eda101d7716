/** What a cleanup amounts to, whatever keeps to its contract (spikes/opencode-production-d8.2.py): what
    success means, when KILL is sent, what the signals hit and what stays open, with the machines that
    show each failure. */
module CleanupOutcomes {
  import opened Bytes
  import opened Signals
  import opened Terminator

  // What the stages amount to

  lemma DoubtWidens(m: Machine, from: nat, to: nat, t: nat, e: ProviderEvidence)
    requires to <= t && LeaderDoubted(m, from, to, e)
    ensures LeaderDoubted(m, from, t, e)
  {
    if u: nat :| from <= u < to && !LeaderAt(m, u, e) {
    } else {
      var members: seq<ProcessIdentity> :|
        Census(m, from, to, e.processGroup, members)
        && ((exists p :: p in members && p.session != e.session) || forall p :: p in members ==> p.pid != e.pid);
      CensusWidens(m, from, to, from, t, e.processGroup, members);
    }
  }

  /** The group was seen quiet, and the root, if it is to be checked, not referenced. */
  ghost predicate AllClear(m: Machine, from: nat, to: nat, group: int, checkRoot: bool) {
    Quiet(m, from, to, group) && (checkRoot ==> exists t :: from <= t < to && !m.referenced(t))
  }

  lemma CheckedIsClear(m: Machine, from: nat, to: nat, f: nat, t: nat, e: ProviderEvidence, checkRoot: bool)
    requires f <= from && to <= t && Checked(m, from, to, e, checkRoot, None)
    ensures AllClear(m, f, t, e.processGroup, checkRoot)
  {
    var u :| RootSeen(m, from, u, to, e, checkRoot, false);
    QuietWidens(m, from, u, f, t, e.processGroup);
  }

  /** Success means all clear, but for a leader that was gone: then the root is not looked at. */
  lemma SuccessIsClear(m: Machine, from: nat, to: nat, e: ProviderEvidence, checkRoot: bool, termPolls: nat,
                       killPolls: nat, snapshot: seq<ProcessIdentity>, c: Course)
    requires CleanedUp(m, from, to, e, checkRoot, termPolls, killPolls, None, snapshot, c)
    ensures Quiet(m, from, to, e.processGroup)
    ensures AllClear(m, from, to, e.processGroup, checkRoot) || (c == Nothing && LeaderDoubted(m, from, to, e))
  {
    if c != Nothing {
      var t, u, v :| FoundRestless(m, from, t, u, e, snapshot)
                  && Finished(m, u, v, to, e, snapshot, checkRoot, termPolls, killPolls, None, c);
      CheckedIsClear(m, v, to, from, to, e, checkRoot);
    } else if t, u :| FoundQuiet(m, from, t, u, to, e, snapshot, checkRoot, None) {
      CheckedIsClear(m, u, to, from, to, e, checkRoot);
    } else {
      var t :| LeftAlone(m, from, t, to, e, None);
      DoubtWidens(m, from, t, to, e);
      QuietWidens(m, t, to, from, to, e.processGroup);
    }
  }

  lemma EscalationEnds(m: Machine, from: nat, to: nat, e: ProviderEvidence, snapshot: seq<ProcessIdentity>,
                       termPolls: nat, killPolls: nat, failure: Option<Failure>, c: Course)
    requires Escalated(m, from, to, e, snapshot, termPolls, killPolls, failure, c)
    ensures failure != Some(NeverQuiet)
    ensures c.Terminated? ==>
      if failure.Some? then Justified(m, from, to, e, snapshot, true, failure.value) else Quiet(m, from, to, e.processGroup)
  {
    if c.Terminated? && failure.None? {
      var t :| from <= t <= to && TermSucceeds(m, from, t, e, c.term) && Quiet(m, t, to, e.processGroup);
      QuietWidens(m, t, to, from, to, e.processGroup);
    }
  }

  lemma FinishedEnds(m: Machine, from: nat, t: nat, to: nat, e: ProviderEvidence, snapshot: seq<ProcessIdentity>,
                     checkRoot: bool, termPolls: nat, killPolls: nat, failure: Option<Failure>, c: Course)
    requires Finished(m, from, t, to, e, snapshot, checkRoot, termPolls, killPolls, failure, c)
    ensures failure != Some(NeverQuiet)
    ensures c.Terminated? ==>
      Quiet(m, from, to, e.processGroup) || (failure.Some? && Justified(m, from, to, e, snapshot, true, failure.value))
  {
    if failure.Some? && t == to && Escalated(m, from, t, e, snapshot, termPolls, killPolls, failure, c) {
      EscalationEnds(m, from, t, e, snapshot, termPolls, killPolls, failure, c);
    } else {
      EscalationEnds(m, from, t, e, snapshot, termPolls, killPolls, None, c);
      if c.Terminated? {
        QuietWidens(m, from, t, from, to, e.processGroup);
      }
    }
  }

  /** TERM alone is never answered with a group that did not become quiet: a cleanup that sent no KILL
      gave up in its TERM phase or saw the group quiet. */
  lemma TermAloneIsEnough(m: Machine, from: nat, to: nat, e: ProviderEvidence, checkRoot: bool, termPolls: nat,
                          killPolls: nat, failure: Option<Failure>, snapshot: seq<ProcessIdentity>, c: Course)
    requires CleanedUp(m, from, to, e, checkRoot, termPolls, killPolls, failure, snapshot, c)
    ensures failure != Some(NeverQuiet)
    ensures c.Terminated? ==> exists u ::
      && from <= u <= to
      && (Quiet(m, u, to, e.processGroup) || (failure.Some? && Justified(m, u, to, e, snapshot, true, failure.value)))
  {
    if c != Nothing {
      var t, u, v :| FoundRestless(m, from, t, u, e, snapshot)
                  && Finished(m, u, v, to, e, snapshot, checkRoot, termPolls, killPolls, failure, c);
      FinishedEnds(m, u, v, to, e, snapshot, checkRoot, termPolls, killPolls, failure, c);
    }
  }

  // A group that ignores TERM

  const LEADER: ProcessIdentity := ProcessIdentity(7, "b", 1, 7, 7, "S")
  const LEADER_EVIDENCE: ProviderEvidence := ProviderEvidence(7, "b", 7, 7, 7, "b", 7)

  /** One process that lives on for ever. */
  function StubbornMachine(referenced: bool): Machine {
    Machine((t, pid) => if pid == 7 then Some(LEADER) else None, (t, pid) => false, t => Some([7]),
            t => false, t => false, true, t => referenced)
  }

  lemma StubbornIsAll(m: Machine, from: nat, to: nat, p: ProcessIdentity)
    requires m == StubbornMachine(true) || m == StubbornMachine(false)
    requires SeenBetween(m, from, to, p)
    ensures p == LEADER
  {
  }

  lemma StubbornCensus(m: Machine, from: nat, to: nat, members: seq<ProcessIdentity>)
    requires m == StubbornMachine(true) || m == StubbornMachine(false)
    requires Census(m, from, to, 7, members)
    ensures LEADER in members && forall p :: p in members ==> p == LEADER
  {
    var s :| from <= s < to && m.listing(s).Some? && AllAccounted(m, from, to, 7, members, m.listing(s).value);
    assert Accounted(m, from, to, 7, members, m.listing(s).value[0]);
    forall p | p in members ensures p == LEADER {
      StubbornIsAll(m, from, to, p);
    }
  }

  lemma StubbornIsRestless(m: Machine, from: nat, to: nat)
    requires m == StubbornMachine(true) || m == StubbornMachine(false)
    ensures !Quiet(m, from, to, 7) && !LeaderDoubted(m, from, to, LEADER_EVIDENCE)
  {
    forall members | Census(m, from, to, 7, members) ensures LEADER in members && forall p :: p in members ==> p == LEADER {
      StubbornCensus(m, from, to, members);
    }
    assert forall t: nat :: LeaderAt(m, t, LEADER_EVIDENCE);
  }

  lemma {:induction false} PlacesFit(places: seq<nat>, room: nat)
    requires forall i :: 0 <= i < |places| ==> places[i] < room
    requires forall i, j :: 0 <= i < j < |places| ==> places[i] < places[j]
    ensures |places| <= room
    decreases |places|
  {
    if places != [] {
      var last := |places| - 1;
      PlacesFit(places[..last], places[last]);
    }
  }

  lemma ListedFits(members: seq<ProcessIdentity>, pids: seq<int>, places: seq<nat>)
    requires Listed(members, pids, places)
    ensures |members| <= |pids|
  {
    PlacesFit(places, |pids|);
  }

  lemma OverflowNeedsRoom(m: Machine, from: nat, to: nat, group: int, members: seq<ProcessIdentity>, places: seq<nat>)
    requires Overflows(m, from, to, group, members, places)
    ensures exists s: nat :: m.listing(s).Some? && |m.listing(s).value| > 128
  {
    var s: nat :| m.listing(s).Some? && Listed(members, m.listing(s).value, places);
    ListedFits(members, m.listing(s).value, places);
  }

  lemma StubbornIsReadable(m: Machine, from: nat, to: nat, f: Failure)
    requires m == StubbornMachine(true) || m == StubbornMachine(false)
    ensures !Unreadable(m, from, to, 7, f)
  {
    if f.GroupUnbounded? {
      if members, places :| Overflows(m, from, to, 7, members, places) {
        OverflowNeedsRoom(m, from, to, 7, members, places);
        assert false;
      }
    }
  }

  lemma StubbornIsNotGivenUp(m: Machine, from: nat, to: nat, members: seq<ProcessIdentity>, requireLeader: bool, f: Failure)
    requires m == StubbornMachine(true) || m == StubbornMachine(false)
    requires LEADER in members && forall p :: p in members ==> p == LEADER
    ensures !Justified(m, from, to, LEADER_EVIDENCE, members, requireLeader, f)
  {
    StubbornIsRestless(m, from, to);
    StubbornIsReadable(m, from, to, f);
    assert forall t: nat :: StillThere(m, t, LEADER_EVIDENCE, LEADER);
    if p :| SeenBetween(m, from, to, p) && forall q :: q in members ==> q.pid != p.pid {
      StubbornIsAll(m, from, to, p);
    }
  }

  lemma StubbornIsEscalated(m: Machine, from: nat, to: nat, members: seq<ProcessIdentity>, termPolls: nat, killPolls: nat,
                            failure: Option<Failure>, c: Course)
    requires m == StubbornMachine(true) || m == StubbornMachine(false)
    requires LEADER in members && forall p :: p in members ==> p == LEADER
    requires Escalated(m, from, to, LEADER_EVIDENCE, members, termPolls, killPolls, failure, c)
    ensures c.Killed? && FullyKilled(c) && failure == Some(NeverQuietAfterKill)
  {
    if failure.Some? && c.Terminated? {
      StubbornIsNotGivenUp(m, from, to, members, true, failure.value);
    } else if c.Terminated? {
      var t :| from <= t <= to && TermSucceeds(m, from, t, LEADER_EVIDENCE, c.term) && Quiet(m, t, to, 7);
      StubbornIsRestless(m, t, to);
    } else {
      var t, u :| TermFails(m, from, t, u, LEADER_EVIDENCE, c.term, termPolls)
               && KillEnds(m, u, to, LEADER_EVIDENCE, members, c.kill, killPolls, failure);
      StubbornKill(m, u, to, members, c.kill, killPolls, failure);
    }
  }

  predicate FullyKilled(c: Course)
    requires c.Killed?
  {
    c.kill.attempts == |c.kill.held| && exists i :: 0 <= i < |c.kill.held| && c.kill.held[i].who.pid == 7
  }

  lemma StubbornKill(m: Machine, from: nat, to: nat, members: seq<ProcessIdentity>, kill: Signalling, polls: nat,
                     failure: Option<Failure>)
    requires m == StubbornMachine(true) || m == StubbornMachine(false)
    requires LEADER in members && forall p :: p in members ==> p == LEADER
    requires KillEnds(m, from, to, LEADER_EVIDENCE, members, kill, polls, failure)
    ensures FullyKilled(Killed(kill, kill)) && failure == Some(NeverQuietAfterKill)
  {
    if failure.Some? {
      StubbornIsNotGivenUp(m, from, to, members, false, failure.value);
    }
    var t :| KillSucceeds(m, from, t, to, LEADER_EVIDENCE, kill, polls, failure);
    var current :| Census(m, from, t, 7, current) && Covers(kill.held, current);
    StubbornCensus(m, from, t, current);
    StubbornIsRestless(m, t, to);
    if failure.Some? {
      StubbornIsReadable(m, t, to, failure.value);
    }
  }

  /** Whatever keeps to the contract of a cleanup sends KILL to a group that ignores TERM, and reports
      that it never became quiet. */
  lemma StubbornIsKilled(referenced: bool, from: nat, to: nat, checkRoot: bool, termPolls: nat, killPolls: nat,
                         failure: Option<Failure>, snapshot: seq<ProcessIdentity>, c: Course)
    requires CleanedUp(StubbornMachine(referenced), from, to, LEADER_EVIDENCE, checkRoot, termPolls, killPolls,
                       failure, snapshot, c)
    ensures c.Killed? && FullyKilled(c) && failure == Some(NeverQuietAfterKill)
  {
    var m, e := StubbornMachine(referenced), LEADER_EVIDENCE;
    if c == Nothing {
      if failure.Some? {
        StubbornIsReadable(m, from, to, failure.value);
      }
      if t :| LeftAlone(m, from, t, to, e, failure) {
        StubbornIsRestless(m, from, t);
      } else {
        var t, u :| FoundQuiet(m, from, t, u, to, e, snapshot, checkRoot, failure);
        StubbornIsRestless(m, t, u);
      }
    } else {
      var t, u, v :| FoundRestless(m, from, t, u, e, snapshot)
                  && Finished(m, u, v, to, e, snapshot, checkRoot, termPolls, killPolls, failure, c);
      StubbornCensus(m, from, t, snapshot);
      if failure.Some? && Escalated(m, u, v, e, snapshot, termPolls, killPolls, failure, c) {
        StubbornIsEscalated(m, u, v, snapshot, termPolls, killPolls, failure, c);
      } else {
        StubbornIsEscalated(m, u, v, snapshot, termPolls, killPolls, None, c);
      }
    }
  }

  // A leader that is gone

  /** Nobody there, while the root stays referenced. */
  function EmptyMachine(): Machine {
    Machine((t, pid) => None, (t, pid) => false, t => Some([]), t => false, t => false, true, t => true)
  }

  /** Whatever keeps to the contract succeeds here without looking at the root, though it was asked to. */
  lemma RootIsSkipped(from: nat, to: nat, termPolls: nat, killPolls: nat, failure: Option<Failure>,
                      snapshot: seq<ProcessIdentity>, c: Course)
    requires CleanedUp(EmptyMachine(), from, to, LEADER_EVIDENCE, true, termPolls, killPolls, failure, snapshot, c)
    ensures failure == None && c == Nothing && EmptyMachine().referenced(from)
  {
    var m, e := EmptyMachine(), LEADER_EVIDENCE;
    assert forall a: nat, b: nat, p :: !SeenBetween(m, a, b, p);
    assert forall a: nat, b: nat, members :: AllSeen(m, a, b, 7, members) ==> members == [] by {
      forall a: nat, b: nat, members: seq<ProcessIdentity> ensures AllSeen(m, a, b, 7, members) ==> members == [] {
        assert members == [] || members[0] in members;
      }
    }
    assert forall a: nat, b: nat :: !Restless(m, a, b, 7);
    assert forall a: nat, b: nat :: !ProvenSnapshot(m, a, b, e, snapshot);
  }

  /** Every signal of a cleanup names a process of the snapshot. */
  lemma SignalsHitTheSnapshot(c: Course, m: Machine, e: ProviderEvidence, snapshot: seq<ProcessIdentity>,
                              table: map<nat, Descriptor>, d: Descriptor, kind: SignalKind)
    requires ProperCourse(c, m, e, snapshot, table) && Sent(d, kind) in CourseTrace(c)
    ensures Recorded(snapshot, d.who)
    ensures Rechecked(m, d, e)
  {
    if c.Terminated? || Sent(d, kind) in Trace(c.term) {
      SentIsHeld(c.term, d, kind);
    } else {
      SentIsHeld(c.kill, d, kind);
    }
  }

  lemma SentIsHeld(s: Signalling, d: Descriptor, kind: SignalKind)
    requires s.attempts <= |s.held| && Sent(d, kind) in Trace(s)
    ensures exists i :: 0 <= i < s.attempts && s.held[i] == d
  {
    var trace := Trace(s);
    var i :| 0 <= i < |trace| && trace[i] == Sent(d, kind);
    var skipped := |s.held| + |LastEntries(s.last)|;
    assert skipped <= i < skipped + s.attempts;
    assert s.held[i - skipped] == d;
  }

  /** A whole cleanup closes every descriptor it opens exactly once, unless a read that followed an
      open was ambiguous. */
  lemma CleanupBalances(c: Course, m: Machine, e: ProviderEvidence, snapshot: seq<ProcessIdentity>,
                        table: map<nat, Descriptor>)
    requires ProperCourse(c, m, e, snapshot, table)
    ensures Replay(table, CourseTrace(c)) == Some(CourseTable(c, table))
    ensures CourseTable(c, table) == table
       <==> forall d :: Opened(d) in CourseTrace(c) ==> !Look(m, d.at + 1, d.who.pid).Garbled?
  {
    if !c.Nothing? {
      PhaseBalances(c.term, table);
      LeakExactly(m, c.term, e, table);
      if c.Killed? {
        PhaseBalances(c.kill, table);
        LeakExactly(m, c.kill, e, table);
        ReplayAppend(table, Trace(c.term), Trace(c.kill));
      }
    }
  }

  // Such a read happens

  /** A machine with one process that lives on, whose identity cannot be read at one instant. */
  function FlickeringMachine(instant: nat): Machine {
    Machine((t, pid) => if pid == 7 then Some(LEADER) else None, (t, pid) => t == instant, t => Some([7]),
            t => false, t => false, true, t => false)
  }

  lemma FlickeringLeaderIsProven(instant: nat)
    requires instant >= 2
    ensures Faithful(FlickeringMachine(instant))
    ensures ProvenSnapshot(FlickeringMachine(instant), 0, 2, LEADER_EVIDENCE, [LEADER])
  {
    var m, members := FlickeringMachine(instant), [LEADER];
    assert Look(m, 0, 7) == Seen(LEADER) && SeenBetween(m, 0, 2, LEADER);
    assert AllSeen(m, 0, 2, 7, members);
    assert Accounted(m, 0, 2, 7, members, 7) by {
      assert !Look(m, 0, 7).Garbled? && LEADER in members;
    }
    assert AllAccounted(m, 0, 2, 7, members, [7]) && m.listing(0) == Some([7]);
    assert Census(m, 0, 2, 7, members);
    assert LeaderProven(m, 0, 2, LEADER_EVIDENCE, LEADER, members);
  }

  /** The leader is proven and then cannot be read right after its descriptor was opened: the course
      is a proper one, it signals nobody, and the descriptor stays open. */
  lemma LeakHappens(start: nat)
    requires start >= 2
    ensures var m := FlickeringMachine(start + 1);
      var d := Descriptor(start, 0, Who(LEADER));
      var c := Terminated(Signalling(Term, [], Leaked(d), 0));
      && Faithful(m) && ProvenSnapshot(m, 0, 2, LEADER_EVIDENCE, [LEADER])
      && ProperCourse(c, m, LEADER_EVIDENCE, [LEADER], map[])
      && d.who == Who(m.alive(d.at, 7).value)
      && CourseTrace(c) == [Opened(d)] && CourseTable(c, map[]) == map[0 := d]
  {
    FlickeringLeaderIsProven(start + 1);
    var d := Descriptor(start, 0, Who(LEADER));
    var c := Terminated(Signalling(Term, [], Leaked(d), 0));
    assert CourseTrace(c) == [Opened(d)];
  }
}
