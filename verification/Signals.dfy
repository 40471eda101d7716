/** Terminating a provider process group without ever signalling a stranger
    (spikes/opencode-production-d8.2.py). Processes may exit and their numbers may be reused
    between any two system calls; a process is known by its number and its birth. */
module Signals {
  import opened Bytes

  const MAX_GROUP_MEMBERS: nat := 128
  const ZOMBIE: string := "Z"

  datatype ProcessIdentity = ProcessIdentity(
    pid: int, birth: string, parent: int, processGroup: int, session: int, state: string)

  datatype ProviderEvidence = ProviderEvidence(
    pid: int, birth: string, processGroup: int, session: int, panePid: int, paneBirth: string, paneSession: int)

  datatype Incarnation = Incarnation(pid: int, birth: string)

  function Who(p: ProcessIdentity): Incarnation {
    Incarnation(p.pid, p.birth)
  }

  datatype SignalKind = Term | Kill

  datatype Failure =
    | ProbeAmbiguous | GroupAmbiguous | GroupUnbounded | PidfdUnavailable
    | IdentityLost | SignalFailed | NeverQuiet | NeverQuietAfterKill | Survived | RootReferenced

  datatype Outcome<+T> = Done(value: T) | Raised(failure: Failure)

  /** What the operating system answers, instant by instant. */
  datatype Machine = Machine(
    alive: (nat, int) -> Option<ProcessIdentity>,
    garbled: (nat, int) -> bool,
    listing: nat -> Option<seq<int>>,
    refusesOpen: nat -> bool,
    refusesSend: nat -> bool,
    pidfds: bool,
    referenced: nat -> bool)

  predicate AliveAs(m: Machine, t: nat, w: Incarnation) {
    m.alive(t, w.pid).Some? && Who(m.alive(t, w.pid).value) == w
  }

  /** The one thing assumed of the system: an incarnation lives through one unbroken interval. */
  ghost predicate Faithful(m: Machine) {
    && (forall t: nat, pid :: m.alive(t, pid).Some? ==> m.alive(t, pid).value.pid == pid)
    && (forall s: nat, t: nat, u: nat, w ::
          s <= t <= u && AliveAs(m, s, w) && AliveAs(m, u, w) ==> AliveAs(m, t, w))
  }

  datatype Reading = Gone | Garbled | Seen(identity: ProcessIdentity)

  function Look(m: Machine, t: nat, pid: int): Reading {
    if pid <= 0 || m.garbled(t, pid) then Garbled
    else match m.alive(t, pid)
      case None => Gone
      case Some(p) => Seen(p)
  }

  ghost predicate SeenBetween(m: Machine, from: nat, to: nat, p: ProcessIdentity) {
    exists t :: from <= t < to && Look(m, t, p.pid) == Seen(p)
  }

  /** Process `pid` was read during the interval, and is a member if it was in the group. */
  ghost predicate Accounted(m: Machine, from: nat, to: nat, group: int, members: seq<ProcessIdentity>, pid: int) {
    exists t :: from <= t < to && !Look(m, t, pid).Garbled?
             && (Look(m, t, pid).Seen? && Look(m, t, pid).identity.processGroup == group
                 ==> Look(m, t, pid).identity in members)
  }

  ghost predicate AllAccounted(m: Machine, from: nat, to: nat, group: int, members: seq<ProcessIdentity>, pids: seq<int>) {
    forall i :: 0 <= i < |pids| ==> Accounted(m, from, to, group, members, pids[i])
  }

  ghost predicate AllSeen(m: Machine, from: nat, to: nat, group: int, members: seq<ProcessIdentity>) {
    forall p :: p in members ==> SeenBetween(m, from, to, p) && p.processGroup == group
  }

  /** `members` is a census of the group taken during the interval: everybody in it was seen in
      the group, and every listed process was read. */
  ghost predicate Census(m: Machine, from: nat, to: nat, group: int, members: seq<ProcessIdentity>) {
    && AllSeen(m, from, to, group, members)
    && |members| <= 128
    && exists s :: from <= s < to && m.listing(s).Some?
                && AllAccounted(m, from, to, group, members, m.listing(s).value)
  }

  ghost predicate LeaderProven(m: Machine, from: nat, to: nat, e: ProviderEvidence,
                               leader: ProcessIdentity, members: seq<ProcessIdentity>)
  {
    && SeenBetween(m, from, to, leader)
    && leader.pid == e.pid && leader.birth == e.birth && leader.state != ZOMBIE
    && leader.processGroup == e.pid == e.processGroup && leader.session == e.session
    && e.panePid == e.pid && e.paneBirth == e.birth && e.paneSession == e.session
    && Census(m, from, to, e.processGroup, members)
    && (forall p :: p in members ==> p.session == e.session)
    && (exists p :: p in members && p.pid == e.pid)
  }

  ghost predicate Quiet(m: Machine, from: nat, to: nat, group: int) {
    exists members: seq<ProcessIdentity> :: Census(m, from, to, group, members) && forall p :: p in members ==> p.state == ZOMBIE
  }

  /** A census of the group found a live member. */
  ghost predicate Restless(m: Machine, from: nat, to: nat, group: int) {
    exists members: seq<ProcessIdentity> :: Census(m, from, to, group, members) && exists p :: p in members && p.state != ZOMBIE
  }

  // Why a phase gives up

  /** The member is, at this instant, still what the snapshot recorded. */
  predicate StillThere(m: Machine, t: nat, e: ProviderEvidence, q: ProcessIdentity) {
    var r := Look(m, t, q.pid);
    r.Seen? && r.identity.birth == q.birth && r.identity.processGroup == e.processGroup && r.identity.session == e.session
  }

  /** The number was seen on a live process of the group. */
  ghost predicate SeenAlive(m: Machine, from: nat, to: nat, e: ProviderEvidence, pid: int) {
    exists p :: SeenBetween(m, from, to, p) && p.pid == pid && p.processGroup == e.processGroup && p.state != ZOMBIE
  }

  /** A member whose number is still alive in the group is, at some instant, not what was recorded. */
  ghost predicate Strayed(m: Machine, from: nat, to: nat, e: ProviderEvidence, members: seq<ProcessIdentity>) {
    exists t: nat, q ::
      from <= t < to && q in members && SeenAlive(m, from, to, e, q.pid) && !StillThere(m, t, e, q)
  }

  /** A live process of the group that the snapshot does not know was seen. */
  ghost predicate Stranger(m: Machine, from: nat, to: nat, e: ProviderEvidence, members: seq<ProcessIdentity>) {
    exists p :: SeenBetween(m, from, to, p) && p.processGroup == e.processGroup && p.state != ZOMBIE
             && forall q :: q in members ==> q.pid != p.pid
  }

  predicate LeaderAt(m: Machine, t: nat, e: ProviderEvidence) {
    var r := Look(m, t, e.pid);
    && r.Seen? && r.identity.birth == e.birth && r.identity.state != ZOMBIE
    && r.identity.processGroup == e.pid == e.processGroup && r.identity.session == e.session
    && e.panePid == e.pid && e.paneBirth == e.birth && e.paneSession == e.session
  }

  ghost predicate LeaderDoubted(m: Machine, from: nat, to: nat, e: ProviderEvidence) {
    || (exists t: nat :: from <= t < to && !LeaderAt(m, t, e))
    || (exists members: seq<ProcessIdentity> :: Census(m, from, to, e.processGroup, members)
          && ((exists p :: p in members && p.session != e.session) || forall p :: p in members ==> p.pid != e.pid))
  }

  /** A census could not be taken. */
  ghost predicate Unreadable(m: Machine, from: nat, to: nat, group: int, f: Failure) {
    match f
    case ProbeAmbiguous => (exists t: nat, pid :: from <= t < to && m.garbled(t, pid)) || Unnumbered(m, from, to)
    case GroupAmbiguous => group <= 0 || exists t: nat :: from <= t < to && m.listing(t).None?
    case GroupUnbounded => exists members, places :: Overflows(m, from, to, group, members, places)
    case _ => false
  }

  /** The process table listed something that is not a process number. */
  ghost predicate Unnumbered(m: Machine, from: nat, to: nat) {
    exists s: nat, pid :: from <= s < to && m.listing(s).Some? && pid in m.listing(s).value && pid <= 0
  }

  predicate NoNumber(e: ProviderEvidence, f: Failure) {
    e.pid <= 0 && f == ProbeAmbiguous
  }

  /** More members than are allowed were seen, each of them listed at a place of its own. */
  ghost predicate Overflows(m: Machine, from: nat, to: nat, group: int, members: seq<ProcessIdentity>, places: seq<nat>) {
    && AllSeen(m, from, to, group, members) && |members| > 128
    && exists s :: from <= s < to && m.listing(s).Some? && Listed(members, m.listing(s).value, places)
  }

  predicate Listed(members: seq<ProcessIdentity>, pids: seq<int>, places: seq<nat>) {
    && |places| == |members|
    && (forall i :: 0 <= i < |places| ==> places[i] < |pids| && pids[places[i]] == members[i].pid)
    && (forall i, j :: 0 <= i < j < |places| ==> places[i] < places[j])
  }

  // The calls made

  /** A pidfd: when it was opened and the incarnation the kernel tied it to. */
  datatype Descriptor = Descriptor(at: nat, fd: nat, who: Incarnation)

  datatype Entry = Opened(d: Descriptor) | Closed(d: Descriptor) | Sent(d: Descriptor, kind: SignalKind)

  datatype Last = Kept | Rejected(d: Descriptor) | Leaked(d: Descriptor)

  /** One signalling phase: the descriptors held to the end, the one the phase stopped at, and how
      many of the held ones were signalled. */
  datatype Signalling = Signalling(kind: SignalKind, held: seq<Descriptor>, last: Last, attempts: nat)

  function Opens(ds: seq<Descriptor>): seq<Entry> {
    seq(|ds|, i requires 0 <= i < |ds| => Opened(ds[i]))
  }

  function Closes(ds: seq<Descriptor>): seq<Entry> {
    seq(|ds|, i requires 0 <= i < |ds| => Closed(ds[i]))
  }

  function Sends(ds: seq<Descriptor>, kind: SignalKind): seq<Entry> {
    seq(|ds|, i requires 0 <= i < |ds| => Sent(ds[i], kind))
  }

  function LastEntries(last: Last): seq<Entry> {
    match last
    case Kept => []
    case Rejected(d) => [Opened(d), Closed(d)]
    case Leaked(d) => [Opened(d)]
  }

  function Trace(s: Signalling): seq<Entry>
    requires s.attempts <= |s.held|
  {
    Opens(s.held) + LastEntries(s.last) + Sends(s.held[..s.attempts], s.kind) + Closes(s.held)
  }

  predicate DistinctDescriptors(ds: seq<Descriptor>) {
    forall i, j :: 0 <= i < j < |ds| ==> ds[i].fd != ds[j].fd && ds[i].who.pid != ds[j].who.pid
  }

  predicate NewTo(table: map<nat, Descriptor>, ds: seq<Descriptor>) {
    forall i :: 0 <= i < |ds| ==> ds[i].fd !in table
  }

  /** The shape of every phase: nothing is signalled once a member has been rejected. */
  predicate WellFormedPhase(s: Signalling, table: map<nat, Descriptor>) {
    && s.attempts <= |s.held|
    && DistinctDescriptors(s.held) && NewTo(table, s.held)
    && (!s.last.Kept? ==> s.attempts == 0 && s.last.d.fd !in table
                          && forall i :: 0 <= i < |s.held| ==> s.held[i].fd != s.last.d.fd)
  }

  /** The read that follows an open decides what becomes of the descriptor. */
  predicate Rechecked(m: Machine, d: Descriptor, e: ProviderEvidence) {
    var r := Look(m, d.at + 1, d.who.pid);
    r.Seen? && r.identity.processGroup == e.processGroup && r.identity.session == e.session
  }

  predicate DecidedByRecheck(m: Machine, s: Signalling, e: ProviderEvidence) {
    && (forall i :: 0 <= i < |s.held| ==> Rechecked(m, s.held[i], e))
    && (s.last.Rejected? ==> !Look(m, s.last.d.at + 1, s.last.d.who.pid).Garbled?)
    && (s.last.Leaked? ==> Look(m, s.last.d.at + 1, s.last.d.who.pid).Garbled?)
  }

  function TableAfter(s: Signalling, table: map<nat, Descriptor>): map<nat, Descriptor> {
    if s.last.Leaked? then table[s.last.d.fd := s.last.d] else table
  }

  /** The snapshot holds this very incarnation. */
  predicate Recorded(members: seq<ProcessIdentity>, w: Incarnation) {
    exists p :: p in members && Who(p) == w
  }

  predicate OnlyTargets(s: Signalling, members: seq<ProcessIdentity>) {
    forall i :: 0 <= i < |s.held| ==> Recorded(members, s.held[i].who)
  }

  predicate Covers(ds: seq<Descriptor>, current: seq<ProcessIdentity>) {
    forall p :: p in current && p.state != ZOMBIE ==> exists i :: 0 <= i < |ds| && ds[i].who.pid == p.pid
  }

  /** An open descriptor still names the snapshot's process when the later read shows the
      snapshot's birth: whatever happened to the number in between, that process was alive at
      both ends, so it was alive when the descriptor was opened. */
  lemma DescriptorNamesSnapshot(m: Machine, expected: ProcessIdentity, d: Descriptor, from: nat, to: nat)
    requires Faithful(m) && SeenBetween(m, from, to, expected) && to <= d.at
    requires m.alive(d.at, expected.pid).Some? && d.who == Who(m.alive(d.at, expected.pid).value)
    requires Look(m, d.at + 1, expected.pid).Seen? && Look(m, d.at + 1, expected.pid).identity.birth == expected.birth
    ensures d.who == Who(expected)
  {
    var s: nat :| from <= s < to && Look(m, s, expected.pid) == Seen(expected);
    assert AliveAs(m, s, Who(expected)) && AliveAs(m, d.at + 1, Who(expected));
    assert AliveAs(m, d.at, Who(expected));
  }

  lemma CensusWidens(m: Machine, from: nat, to: nat, f: nat, t: nat, group: int, members: seq<ProcessIdentity>)
    requires f <= from && to <= t && Census(m, from, to, group, members)
    ensures Census(m, f, t, group, members)
  {
    var s :| from <= s < to && m.listing(s).Some? && AllAccounted(m, from, to, group, members, m.listing(s).value);
    var pids := m.listing(s).value;
    forall i | 0 <= i < |pids| ensures Accounted(m, f, t, group, members, pids[i]) {
      assert Accounted(m, from, to, group, members, pids[i]);
    }
    assert AllAccounted(m, f, t, group, members, pids);
    forall p | p in members ensures SeenBetween(m, f, t, p) {
      assert SeenBetween(m, from, to, p);
    }
  }

  lemma UnreadableWidens(m: Machine, from: nat, to: nat, f: nat, t: nat, group: int, failure: Failure)
    requires f <= from && to <= t && Unreadable(m, from, to, group, failure)
    ensures Unreadable(m, f, t, group, failure)
  {
    if failure.GroupUnbounded? {
      var members, places :| Overflows(m, from, to, group, members, places);
      forall p | p in members ensures SeenBetween(m, f, t, p) {
        assert SeenBetween(m, from, to, p);
      }
      assert Overflows(m, f, t, group, members, places);
    }
  }

  // What a phase leaves open

  /** Runs the calls against a descriptor table; None when one closes or signals through a
      descriptor that is not open, or opens one that is. */
  function Replay(table: map<nat, Descriptor>, log: seq<Entry>): Option<map<nat, Descriptor>>
    decreases |log|
  {
    if log == [] then Some(table)
    else match log[0]
      case Opened(d) => if d.fd in table then None else Replay(table[d.fd := d], log[1..])
      case Closed(d) => if d.fd in table && table[d.fd] == d then Replay(table - {d.fd}, log[1..]) else None
      case Sent(d, _) => if d.fd in table && table[d.fd] == d then Replay(table, log[1..]) else None
  }

  lemma {:induction false} ReplayAppend(table: map<nat, Descriptor>, a: seq<Entry>, b: seq<Entry>)
    ensures Replay(table, a + b) == (match Replay(table, a) case None => None case Some(t) => Replay(t, b))
    decreases |a|
  {
    if a == [] {
      assert a + b == b;
    } else {
      assert (a + b)[0] == a[0] && (a + b)[1..] == a[1..] + b;
      match a[0]
      case Opened(d) => if d.fd !in table { ReplayAppend(table[d.fd := d], a[1..], b); }
      case Closed(d) => if d.fd in table && table[d.fd] == d { ReplayAppend(table - {d.fd}, a[1..], b); }
      case Sent(d, _) => if d.fd in table && table[d.fd] == d { ReplayAppend(table, a[1..], b); }
    }
  }

  function Holding(table: map<nat, Descriptor>, ds: seq<Descriptor>): map<nat, Descriptor>
    decreases |ds|
  {
    if ds == [] then table else Holding(table[ds[0].fd := ds[0]], ds[1..])
  }

  lemma {:induction false} HoldingAt(table: map<nat, Descriptor>, ds: seq<Descriptor>, k: nat)
    requires DistinctDescriptors(ds) && k < |ds|
    ensures ds[k].fd in Holding(table, ds) && Holding(table, ds)[ds[k].fd] == ds[k]
    decreases |ds|
  {
    HoldingUpdated(table, ds[1..], ds[0]);
    if k > 0 {
      HoldingAt(table, ds[1..], k - 1);
    }
  }

  lemma {:induction false} HoldingUpdated(table: map<nat, Descriptor>, ds: seq<Descriptor>, d: Descriptor)
    requires DistinctDescriptors(ds) && forall i :: 0 <= i < |ds| ==> ds[i].fd != d.fd
    ensures Holding(table[d.fd := d], ds) == Holding(table, ds)[d.fd := d]
    decreases |ds|
  {
    if ds != [] {
      var first, rest := ds[0], ds[1..];
      assert table[d.fd := d][first.fd := first] == table[first.fd := first][d.fd := d];
      HoldingUpdated(table[first.fd := first], rest, d);
    }
  }

  lemma {:induction false} HoldingSnoc(table: map<nat, Descriptor>, ds: seq<Descriptor>, d: Descriptor)
    ensures Holding(table, ds + [d]) == Holding(table, ds)[d.fd := d]
    decreases |ds|
  {
    if ds == [] {
      assert ds + [d] == [d];
    } else {
      assert (ds + [d])[1..] == ds[1..] + [d];
      HoldingSnoc(table[ds[0].fd := ds[0]], ds[1..], d);
    }
  }

  lemma {:induction false} HoldingOnly(table: map<nat, Descriptor>, ds: seq<Descriptor>, fd: nat)
    requires fd !in table && forall i :: 0 <= i < |ds| ==> ds[i].fd != fd
    ensures fd !in Holding(table, ds)
    decreases |ds|
  {
    if ds != [] {
      HoldingOnly(table[ds[0].fd := ds[0]], ds[1..], fd);
    }
  }

  lemma {:induction false} HoldingKeeps(table: map<nat, Descriptor>, ds: seq<Descriptor>)
    ensures table.Keys <= Holding(table, ds).Keys
    decreases |ds|
  {
    if ds != [] {
      HoldingKeeps(table[ds[0].fd := ds[0]], ds[1..]);
    }
  }

  lemma HoldingDropFirst(table: map<nat, Descriptor>, ds: seq<Descriptor>)
    requires ds != [] && DistinctDescriptors(ds) && NewTo(table, ds)
    ensures ds[0].fd in Holding(table, ds) && Holding(table, ds)[ds[0].fd] == ds[0]
    ensures Holding(table, ds) - {ds[0].fd} == Holding(table, ds[1..])
  {
    HoldingUpdated(table, ds[1..], ds[0]);
    HoldingOnly(table, ds[1..], ds[0].fd);
  }

  lemma {:induction false} ReplayOpens(table: map<nat, Descriptor>, ds: seq<Descriptor>)
    requires DistinctDescriptors(ds) && NewTo(table, ds)
    ensures Replay(table, Opens(ds)) == Some(Holding(table, ds))
    decreases |ds|
  {
    if ds != [] {
      assert Opens(ds)[1..] == Opens(ds[1..]);
      ReplayOpens(table[ds[0].fd := ds[0]], ds[1..]);
    }
  }

  lemma {:induction false} ReplayCloses(table: map<nat, Descriptor>, ds: seq<Descriptor>)
    requires DistinctDescriptors(ds) && NewTo(table, ds)
    ensures Replay(Holding(table, ds), Closes(ds)) == Some(table)
  {
    if ds != [] {
      HoldingDropFirst(table, ds);
      assert Closes(ds)[1..] == Closes(ds[1..]);
      ReplayCloses(table, ds[1..]);
    }
  }

  lemma {:induction false} ReplaySends(table: map<nat, Descriptor>, ds: seq<Descriptor>, kind: SignalKind)
    requires forall i :: 0 <= i < |ds| ==> ds[i].fd in table && table[ds[i].fd] == ds[i]
    ensures Replay(table, Sends(ds, kind)) == Some(table)
  {
    if ds != [] {
      assert Sends(ds, kind)[1..] == Sends(ds[1..], kind);
      ReplaySends(table, ds[1..], kind);
    }
  }

  /** Every descriptor of a phase is closed exactly once and used only while open; other
      descriptors are not touched. What stays open is the leaked one, if there is one. */
  lemma PhaseBalances(s: Signalling, table: map<nat, Descriptor>)
    requires WellFormedPhase(s, table)
    ensures Replay(table, Trace(s)) == Some(TableAfter(s, table))
  {
    var opens, last, sends, closes :=
      Opens(s.held), LastEntries(s.last), Sends(s.held[..s.attempts], s.kind), Closes(s.held);
    ReplayOpens(table, s.held);
    ReplayAppend(table, opens + last + sends, closes);
    ReplayAppend(table, opens + last, sends);
    ReplayAppend(table, opens, last);
    ReplayLast(s, table);
    if s.last.Kept? {
      forall i | 0 <= i < |s.held[..s.attempts]|
        ensures s.held[i].fd in Holding(table, s.held) && Holding(table, s.held)[s.held[i].fd] == s.held[i]
      {
        HoldingAt(table, s.held, i);
      }
      ReplaySends(Holding(table, s.held), s.held[..s.attempts], s.kind);
    } else {
      assert sends == [];
    }
    ReplayCloses(TableAfter(s, table), s.held);
  }

  lemma ReplayLast(s: Signalling, table: map<nat, Descriptor>)
    requires WellFormedPhase(s, table)
    ensures Replay(Holding(table, s.held), LastEntries(s.last)) == Some(Holding(TableAfter(s, table), s.held))
  {
    var holding := Holding(table, s.held);
    if !s.last.Kept? {
      var d := s.last.d;
      HoldingOnly(table, s.held, d.fd);
      HoldingUpdated(table, s.held, d);
      if s.last.Rejected? {
        assert holding[d.fd := d] - {d.fd} == holding;
        assert LastEntries(s.last)[1..] == [Closed(d)];
        assert Replay(holding[d.fd := d], [Closed(d)]) == Replay(holding, []);
      } else {
        assert Replay(holding, [Opened(d)]) == Replay(holding[d.fd := d], []);
      }
    }
  }

  /** A phase leaves the table as it found it exactly when no read that followed an open was
      ambiguous. */
  lemma LeakExactly(m: Machine, s: Signalling, e: ProviderEvidence, table: map<nat, Descriptor>)
    requires WellFormedPhase(s, table) && DecidedByRecheck(m, s, e)
    ensures Replay(table, Trace(s)) == Some(table)
       <==> forall d :: Opened(d) in Trace(s) ==> !Look(m, d.at + 1, d.who.pid).Garbled?
  {
    PhaseBalances(s, table);
    var trace := Trace(s);
    if s.last.Leaked? {
      assert trace[|s.held|] == Opened(s.last.d);
      assert s.last.d.fd in TableAfter(s, table);
    } else {
      forall d | Opened(d) in trace ensures !Look(m, d.at + 1, d.who.pid).Garbled? {
        var i :| 0 <= i < |trace| && trace[i] == Opened(d);
        if i < |s.held| {
          assert Rechecked(m, s.held[i], e);
        }
      }
    }
  }
}
