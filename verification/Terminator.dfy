/** The calls the cleanup makes, and the cleanup itself (spikes/opencode-production-d8.2.py).
    Each system call takes one instant and everything else may happen between two of them. */
module Terminator {
  import opened Bytes
  import opened Sets
  import opened Signals

  datatype SendResult = Delivered | NoSuchProcess | SendRefused

  class Kernel {
    const machine: Machine
    var now: nat
    var table: map<nat, Descriptor>
    var log: seq<Entry>

    constructor (m: Machine)
      ensures machine == m && now == 0 && table == map[] && log == []
    {
      machine, now, table, log := m, 0, map[], [];
    }

    method ReadIdentity(pid: int) returns (r: Reading)
      modifies this`now
      ensures now == old(now) + 1 && r == Look(machine, old(now), pid)
    {
      r := Look(machine, now, pid);
      now := now + 1;
    }

    method ListProcesses() returns (r: Option<seq<int>>)
      modifies this`now
      ensures now == old(now) + 1 && r == machine.listing(old(now))
    {
      r := machine.listing(now);
      now := now + 1;
    }

    /** The descriptor is tied to whoever has the number at this instant. */
    method PidfdOpen(pid: int) returns (fd: Option<nat>)
      modifies this
      ensures now == old(now) + 1
      ensures fd.None? <==> machine.alive(old(now), pid).None? || machine.refusesOpen(old(now))
      ensures fd.None? ==> table == old(table) && log == old(log)
      ensures fd.Some? ==>
        && machine.alive(old(now), pid).Some? && fd.value !in old(table)
        && var d := Descriptor(old(now), fd.value, Who(machine.alive(old(now), pid).value));
           table == old(table)[fd.value := d] && log == old(log) + [Opened(d)]
    {
      var holder := machine.alive(now, pid);
      fd := None;
      if holder.Some? && !machine.refusesOpen(now) {
        Unused(table.Keys);
        var free: nat :| free !in table;
        var d := Descriptor(now, free, Who(holder.value));
        fd, table, log := Some(free), table[free := d], log + [Opened(d)];
      }
      now := now + 1;
    }

    /** A signal goes to the incarnation the descriptor is tied to, or to nobody. */
    method PidfdSend(fd: nat, kind: SignalKind) returns (r: SendResult)
      requires fd in table
      modifies this`now, this`log
      ensures now == old(now) + 1 && log == old(log) + [Sent(table[fd], kind)]
      ensures r == if !AliveAs(machine, old(now), table[fd].who) then NoSuchProcess
                   else if machine.refusesSend(old(now)) then SendRefused else Delivered
    {
      log := log + [Sent(table[fd], kind)];
      r := if !AliveAs(machine, now, table[fd].who) then NoSuchProcess
           else if machine.refusesSend(now) then SendRefused
           else Delivered;
      now := now + 1;
    }

    method Close(fd: nat)
      requires fd in table
      modifies this`table, this`log
      ensures table == old(table) - {fd} && log == old(log) + [Closed(old(table)[fd])]
    {
      log := log + [Closed(table[fd])];
      table := table - {fd};
    }
  }

  lemma {:induction false} Unused(used: set<nat>)
    ensures exists n: nat :: n !in used
  {
    var bound := BelowBound(used);
    assert bound !in used;
  }

  lemma {:induction false} BelowBound(used: set<nat>) returns (bound: nat)
    ensures forall n :: n in used ==> n < bound
  {
    bound := 0;
    if n :| n in used {
      var rest := BelowBound(used - {n});
      bound := if n < rest then rest else n + 1;
      assert forall x :: x in used ==> x == n || x in used - {n};
    }
  }

  /** Everybody in the group, one read per listed process. */
  method ProcessGroupMembers(k: Kernel, group: int) returns (r: Outcome<seq<ProcessIdentity>>)
    requires Faithful(k.machine)
    modifies k`now
    ensures k.now >= old(k.now)
    ensures r.Done? ==> Census(k.machine, old(k.now), k.now, group, r.value)
    ensures r.Raised? ==> Unreadable(k.machine, old(k.now), k.now, group, r.failure)
  {
    if group <= 0 {
      return Raised(GroupAmbiguous);
    }
    var processes := k.ListProcesses();
    if processes.None? {
      assert k.machine.listing(old(k.now)).None?;
      return Raised(GroupAmbiguous);
    }
    var members, i, pids := [], 0, processes.value;
    ghost var s, places: seq<nat> := old(k.now), [];
    while i < |pids|
      invariant 0 <= i <= |pids| && k.now >= old(k.now) + 1
      invariant |members| <= MAX_GROUP_MEMBERS
      invariant Listed(members, pids, places) && forall j :: 0 <= j < |places| ==> places[j] < i
      invariant AllSeen(k.machine, old(k.now), k.now, group, members)
      invariant AllAccounted(k.machine, old(k.now), k.now, group, members, pids[..i])
    {
      ghost var before, known := k.now, members;
      var reading := k.ReadIdentity(pids[i]);
      if reading.Garbled? {
        assert k.machine.garbled(before, pids[i]) || (pids[i] <= 0 && pids[i] in k.machine.listing(s).value);
        return Raised(ProbeAmbiguous);
      }
      if reading.Seen? && reading.identity.processGroup == group {
        ListedStep(members, pids, places, reading.identity, i);
        members, places := members + [reading.identity], places + [i];
      }
      CensusStep(k.machine, old(k.now), before, group, known, members, pids, i);
      if |members| > MAX_GROUP_MEMBERS {
        assert Overflows(k.machine, old(k.now), k.now, group, members, places);
        return Raised(GroupUnbounded);
      }
      i := i + 1;
    }
    assert pids[..i] == pids;
    r := Done(members);
  }

  lemma ListedStep(members: seq<ProcessIdentity>, pids: seq<int>, places: seq<nat>, member: ProcessIdentity, i: nat)
    requires Listed(members, pids, places) && i < |pids| && pids[i] == member.pid
    requires forall j :: 0 <= j < |places| ==> places[j] < i
    ensures Listed(members + [member], pids, places + [i])
  {
  }

  lemma CensusStep(m: Machine, from: nat, now: nat, group: int, known: seq<ProcessIdentity>,
                   members: seq<ProcessIdentity>, pids: seq<int>, i: nat)
    requires from <= now && i < |pids| && !Look(m, now, pids[i]).Garbled?
    requires AllSeen(m, from, now, group, known) && AllAccounted(m, from, now, group, known, pids[..i])
    requires forall t: nat, pid :: m.alive(t, pid).Some? ==> m.alive(t, pid).value.pid == pid
    requires members == if Look(m, now, pids[i]).Seen? && Look(m, now, pids[i]).identity.processGroup == group
                        then known + [Look(m, now, pids[i]).identity] else known
    ensures AllSeen(m, from, now + 1, group, members) && AllAccounted(m, from, now + 1, group, members, pids[..i + 1])
  {
    forall p | p in members ensures SeenBetween(m, from, now + 1, p) && p.processGroup == group {
      if p in known {
        assert SeenBetween(m, from, now, p);
      } else {
        assert Look(m, now, p.pid) == Seen(p);
      }
    }
    forall j | 0 <= j < i + 1 ensures Accounted(m, from, now + 1, group, members, pids[j]) {
      if j < i {
        assert pids[..i][j] == pids[j];
        assert Accounted(m, from, now, group, known, pids[j]);
      }
    }
  }

  /** Proves the recorded leader again, and takes a census of its group. */
  method ProveProviderGroup(k: Kernel, e: ProviderEvidence)
    returns (r: Outcome<Option<(ProcessIdentity, seq<ProcessIdentity>)>>)
    requires Faithful(k.machine)
    modifies k`now
    ensures k.now >= old(k.now)
    ensures r.Done? && r.value.Some? ==>
      LeaderProven(k.machine, old(k.now), k.now, e, r.value.value.0, r.value.value.1)
    ensures r == Done(None) ==> LeaderDoubted(k.machine, old(k.now), k.now, e)
    ensures r.Raised? ==> Unreadable(k.machine, old(k.now), k.now, e.processGroup, r.failure) || NoNumber(e, r.failure)
  {
    var reading := k.ReadIdentity(e.pid);
    if reading.Garbled? {
      assert k.machine.garbled(old(k.now), e.pid) || e.pid <= 0;
      return Raised(ProbeAmbiguous);
    }
    if reading.Gone? {
      assert !LeaderAt(k.machine, old(k.now), e);
      return Done(None);
    }
    var current := reading.identity;
    if current.birth != e.birth || current.processGroup != e.pid || current.processGroup != e.processGroup
      || current.session != e.session || current.state == ZOMBIE
      || e.panePid != e.pid || e.paneBirth != e.birth || e.paneSession != e.session
    {
      assert !LeaderAt(k.machine, old(k.now), e);
      return Done(None);
    }
    ghost var between := k.now;
    var members := ProcessGroupMembers(k, e.processGroup);
    if members.Raised? {
      UnreadableWidens(k.machine, between, k.now, old(k.now), k.now, e.processGroup, members.failure);
      return Raised(members.failure);
    }
    CensusWidens(k.machine, between, k.now, old(k.now), k.now, e.processGroup, members.value);
    if (exists p :: p in members.value && p.session != e.session)
      || (forall p :: p in members.value ==> p.pid != e.pid)
    {
      return Done(None);
    }
    assert Look(k.machine, old(k.now), current.pid) == Seen(current);
    r := Done(Some((current, members.value)));
  }

  method GroupIsQuiet(k: Kernel, e: ProviderEvidence) returns (r: Outcome<bool>)
    requires Faithful(k.machine)
    modifies k`now
    ensures k.now >= old(k.now)
    ensures r.Done? ==>
      if r.value then Quiet(k.machine, old(k.now), k.now, e.processGroup)
      else Restless(k.machine, old(k.now), k.now, e.processGroup)
    ensures r.Raised? ==> Unreadable(k.machine, old(k.now), k.now, e.processGroup, r.failure)
  {
    var members := ProcessGroupMembers(k, e.processGroup);
    match members
    case Raised(f) => r := Raised(f);
    case Done(ms) => r := Done(forall p :: p in ms ==> p.state == ZOMBIE);
  }

  predicate IndexOf(index: map<int, ProcessIdentity>, members: seq<ProcessIdentity>, zombies: bool) {
    && (forall pid :: pid in index ==>
          index[pid] in members && index[pid].pid == pid && (zombies || index[pid].state != ZOMBIE))
    && (forall i :: 0 <= i < |members| && (zombies || members[i].state != ZOMBIE) ==> members[i].pid in index)
  }

  method ByPid(members: seq<ProcessIdentity>, zombies: bool) returns (index: map<int, ProcessIdentity>)
    ensures IndexOf(index, members, zombies)
  {
    index := map[];
    for i := 0 to |members|
      invariant IndexOf(index, members[..i], zombies)
    {
      if zombies || members[i].state != ZOMBIE {
        index := index[members[i].pid := members[i]];
      }
    }
    assert members[..|members|] == members;
  }

  predicate Consistent(s: Signalling, m: Machine, e: ProviderEvidence, members: seq<ProcessIdentity>,
                       table: map<nat, Descriptor>)
  {
    WellFormedPhase(s, table) && DecidedByRecheck(m, s, e) && OnlyTargets(s, members)
  }

  lemma ConsistentStep(s: Signalling, d: Descriptor, m: Machine, e: ProviderEvidence,
                       members: seq<ProcessIdentity>, table: map<nat, Descriptor>)
    requires Consistent(s, m, e, members, table) && s.last.Kept?
    requires d.fd !in Holding(table, s.held) && !PidHeld(s.held, d.who.pid)
    requires Rechecked(m, d, e) && Recorded(members, d.who)
    ensures Consistent(s.(held := s.held + [d]), m, e, members, table)
  {
    NotHeld(table, s.held, d.fd);
    assert forall i :: 0 <= i < |s.held| ==> (s.held + [d])[i] == s.held[i];
    assert forall i :: 0 <= i < |s.held| ==> s.held[i].who.pid != d.who.pid;
  }

  lemma NotHeld(table: map<nat, Descriptor>, held: seq<Descriptor>, fd: nat)
    requires DistinctDescriptors(held) && fd !in Holding(table, held)
    ensures fd !in table && forall i :: 0 <= i < |held| ==> held[i].fd != fd
  {
    HoldingKeeps(table, held);
    forall i | 0 <= i < |held| ensures held[i].fd != fd {
      HoldingAt(table, held, i);
    }
  }

  predicate Opening(table: map<nat, Descriptor>, log: seq<Entry>, table0: map<nat, Descriptor>, log0: seq<Entry>,
                    s: Signalling, descriptors: seq<nat>)
  {
    && s.attempts == 0 && Numbers(descriptors, s.held)
    && table == Holding(TableAfter(s, table0), s.held)
    && log == log0 + Opens(s.held) + LastEntries(s.last)
  }

  lemma OpeningStep(table: map<nat, Descriptor>, log: seq<Entry>, table0: map<nat, Descriptor>, log0: seq<Entry>,
                    s: Signalling, descriptors: seq<nat>, d: Descriptor)
    requires s.last.Kept? && Opening(table, log, table0, log0, s, descriptors)
    ensures Opening(table[d.fd := d], log + [Opened(d)], table0, log0, s.(held := s.held + [d]), descriptors + [d.fd])
  {
    HoldingSnoc(table0, s.held, d);
    assert Opens(s.held + [d]) == Opens(s.held) + [Opened(d)];
  }

  /** What the descriptor at which opening stopped has done to the table. */
  predicate LastFits(m: Machine, last: Last, before: map<nat, Descriptor>, after: map<nat, Descriptor>) {
    match last
    case Kept => after == before
    case Rejected(d) => after == before && d.fd !in before && !Look(m, d.at + 1, d.who.pid).Garbled?
    case Leaked(d) => after == before[d.fd := d] && d.fd !in before && Look(m, d.at + 1, d.who.pid).Garbled?
  }

  lemma OpeningStops(s: Signalling, last: Last, m: Machine, e: ProviderEvidence, members: seq<ProcessIdentity>,
                     table0: map<nat, Descriptor>, log0: seq<Entry>, table: map<nat, Descriptor>, log: seq<Entry>,
                     after: map<nat, Descriptor>, descriptors: seq<nat>)
    requires s.last.Kept? && Consistent(s, m, e, members, table0) && Opening(table, log, table0, log0, s, descriptors)
    requires LastFits(m, last, table, after)
    ensures Consistent(s.(last := last), m, e, members, table0)
    ensures Opening(after, log + LastEntries(last), table0, log0, s.(last := last), descriptors)
  {
    if !last.Kept? {
      NotHeld(table0, s.held, last.d.fd);
      HoldingUpdated(table0, s.held, last.d);
    }
    assert log0 + Opens(s.held) + [] == log0 + Opens(s.held);
  }

  /** Why opening gave up: a recorded member was not there any more, a read was ambiguous, or a
      descriptor was not to be had. */
  ghost predicate GaveUp(m: Machine, from: nat, to: nat, e: ProviderEvidence, members: seq<ProcessIdentity>, f: Failure) {
    match f
    case IdentityLost => Strayed(m, from, to, e, members)
    case ProbeAmbiguous => Unreadable(m, from, to, e.processGroup, f)
    case SignalFailed => Withheld(m, from, to, e, members)
    case _ => false
  }

  /** The descriptor of a live member was not to be had, or a send was refused. */
  ghost predicate Withheld(m: Machine, from: nat, to: nat, e: ProviderEvidence, members: seq<ProcessIdentity>) {
    || (exists t: nat, q ::
          from <= t < to && q in members && SeenAlive(m, from, to, e, q.pid) && Unavailable(m, t, q.pid))
    || exists t: nat :: from <= t < to && m.refusesSend(t)
  }

  predicate Unavailable(m: Machine, t: nat, pid: int) {
    m.alive(t, pid).None? || m.refusesOpen(t)
  }

  lemma SeenOtherwise(m: Machine, from: nat, now: nat, to: nat, e: ProviderEvidence, current: seq<ProcessIdentity>,
                      member: ProcessIdentity, members: seq<ProcessIdentity>, expected: ProcessIdentity)
    requires now <= to && AllSeen(m, from, now, e.processGroup, current) && member in current && expected in members
    requires member.pid == expected.pid && member.birth != expected.birth && SeenAlive(m, from, to, e, expected.pid)
    ensures Strayed(m, from, to, e, members)
  {
    assert SeenBetween(m, from, now, member);
    var t: nat :| from <= t < now && Look(m, t, member.pid) == Seen(member);
    assert !StillThere(m, t, e, expected);
  }

  lemma MemberIsSeen(m: Machine, from: nat, now: nat, e: ProviderEvidence, current: seq<ProcessIdentity>,
                     member: ProcessIdentity)
    requires AllSeen(m, from, now, e.processGroup, current) && member in current && member.state != ZOMBIE
    ensures forall to :: now <= to ==> SeenAlive(m, from, to, e, member.pid)
  {
    forall to | now <= to ensures SeenAlive(m, from, to, e, member.pid) {
      assert SeenBetween(m, from, now, member);
      assert SeenBetween(m, from, to, member);
    }
  }

  /** Opens a descriptor for one member and reads the member again. */
  method OpenMember(k: Kernel, e: ProviderEvidence, member: ProcessIdentity, expected: ProcessIdentity,
                    ghost from: nat, ghost to: nat, ghost start: nat, ghost seen: nat,
                    ghost members: seq<ProcessIdentity>, ghost current: seq<ProcessIdentity>)
    returns (descriptor: Option<nat>, failure: Option<Failure>, ghost last: Last, ghost d: Descriptor)
    requires Faithful(k.machine) && to <= k.now && start <= seen <= k.now && member.pid == expected.pid
    requires AllSeen(k.machine, from, to, e.processGroup, members) && expected in members
    requires AllSeen(k.machine, start, seen, e.processGroup, current) && member in current && member.state != ZOMBIE
    modifies k
    ensures k.now >= old(k.now) && (failure.None? <==> descriptor.Some?)
    ensures failure.Some? ==> GaveUp(k.machine, start, k.now, e, members, failure.value)
    ensures descriptor.Some? ==>
      && last.Kept? && d.fd == descriptor.value && d.fd !in old(k.table) && d.who == Who(expected) && Rechecked(k.machine, d, e)
      && k.table == old(k.table)[d.fd := d] && k.log == old(k.log) + [Opened(d)]
    ensures descriptor.None? ==> k.log == old(k.log) + LastEntries(last) && LastFits(k.machine, last, old(k.table), k.table)
    ensures last.Leaked? ==> failure == Some(ProbeAmbiguous)
  {
    descriptor, failure, last := None, None, Kept;
    d := Descriptor(0, 0, Who(expected));
    MemberIsSeen(k.machine, start, seen, e, current, member);
    if member.birth != expected.birth {
      SeenOtherwise(k.machine, start, seen, k.now, e, current, member, members, expected);
      failure := Some(IdentityLost);
      return;
    }
    // a live member is not a zombie, so none is skipped here
    descriptor := k.PidfdOpen(expected.pid);
    if descriptor.None? {
      assert Unavailable(k.machine, old(k.now), expected.pid);
      failure := Some(SignalFailed);
      return;
    }
    d := k.table[descriptor.value];
    var again := k.ReadIdentity(expected.pid);
    if again.Garbled? {
      assert k.machine.garbled(d.at + 1, d.who.pid);
      descriptor, failure, last := None, Some(ProbeAmbiguous), Leaked(d);
    } else if again.Gone? || again.identity.birth != expected.birth
      || again.identity.processGroup != e.processGroup || again.identity.session != e.session
    {
      assert !StillThere(k.machine, d.at + 1, e, expected);
      k.Close(descriptor.value);
      descriptor, failure, last := None, Some(IdentityLost), Rejected(d);
    } else {
      DescriptorNamesSnapshot(k.machine, expected, d, from, to);
    }
  }

  /** Opens a descriptor for every live member, and stops at the first member that is not the
      snapshot's. */
  method OpenMembers(k: Kernel, e: ProviderEvidence, snapshot: map<int, ProcessIdentity>,
                     live: map<int, ProcessIdentity>, members: seq<ProcessIdentity>, ghost from: nat, ghost to: nat,
                     ghost start: nat, ghost current: seq<ProcessIdentity>)
    returns (descriptors: seq<nat>, failure: Option<Failure>, ghost s: Signalling)
    requires Faithful(k.machine) && to <= k.now && start <= k.now
    requires AllSeen(k.machine, start, k.now, e.processGroup, current) && IndexOf(live, current, false)
    requires AllSeen(k.machine, from, to, e.processGroup, members)
    requires IndexOf(snapshot, members, true) && live.Keys <= snapshot.Keys
    modifies k
    ensures k.now >= old(k.now)
    ensures Consistent(s, k.machine, e, members, old(k.table))
    ensures Opening(k.table, k.log, old(k.table), old(k.log), s, descriptors)
    ensures failure.None? ==> s.last.Kept? && forall pid :: pid in live ==> PidHeld(s.held, pid)
    ensures s.last.Leaked? ==> failure == Some(ProbeAmbiguous)
    ensures failure.Some? ==> GaveUp(k.machine, start, k.now, e, members, failure.value)
  {
    descriptors, failure, s := [], None, Signalling(Term, [], Kept, 0);
    var pending := live.Keys;
    while pending != {}
      invariant k.now >= old(k.now) && failure.None?
      invariant s.last.Kept? && Opening(k.table, k.log, old(k.table), old(k.log), s, descriptors)
      invariant Consistent(s, k.machine, e, members, old(k.table)) && Remaining(s.held, live.Keys, pending)
      decreases |pending|
    {
      var pid := AnyOf(pending);
      var member, expected := live[pid], snapshot[pid];
      ghost var table, log, last, d := k.table, k.log, Kept, Descriptor(0, 0, Who(expected));
      var descriptor;
      descriptor, failure, last, d := OpenMember(k, e, member, expected, from, to, start, old(k.now), members, current);
      if failure.Some? {
        OpeningStops(s, last, k.machine, e, members, old(k.table), old(k.log), table, log, k.table, descriptors);
        s := s.(last := last);
        return;
      }
      RemainingStep(s.held, d, live.Keys, pending);
      ConsistentStep(s, d, k.machine, e, members, old(k.table));
      OpeningStep(table, log, old(k.table), old(k.log), s, descriptors, d);
      descriptors, s := descriptors + [descriptor.value], s.(held := s.held + [d]);
      pending := pending - {pid};
    }
  }

  predicate Remaining(held: seq<Descriptor>, pids: set<int>, pending: set<int>) {
    pending <= pids && forall pid :: pid in pids ==> (pid in pending <==> !PidHeld(held, pid))
  }

  lemma RemainingStep(held: seq<Descriptor>, d: Descriptor, pids: set<int>, pending: set<int>)
    requires Remaining(held, pids, pending) && d.who.pid in pending
    ensures !PidHeld(held, d.who.pid) && Remaining(held + [d], pids, pending - {d.who.pid})
  {
    assert (held + [d])[|held|] == d;
    assert forall i :: 0 <= i < |held| ==> (held + [d])[i] == held[i];
    forall pid | pid in pids ensures pid in pending - {d.who.pid} <==> !PidHeld(held + [d], pid) {
      assert PidHeld(held + [d], pid) <==> PidHeld(held, pid) || d.who.pid == pid;
    }
  }

  /** Signals the held descriptors in order until one send is refused. */
  method SendAll(k: Kernel, descriptors: seq<nat>, kind: SignalKind, ghost held: seq<Descriptor>,
                 ghost table: map<nat, Descriptor>)
    returns (failure: Option<Failure>, ghost attempts: nat)
    requires Numbers(descriptors, held) && DistinctDescriptors(held) && k.table == Holding(table, held)
    modifies k`now, k`log
    ensures k.now >= old(k.now) && attempts <= |held|
    ensures k.log == old(k.log) + Sends(held[..attempts], kind)
    ensures failure.None? ==> attempts == |held|
    ensures failure.Some? ==> failure == Some(SignalFailed) && held != []
    ensures failure.Some? ==> exists t :: old(k.now) <= t < k.now && k.machine.refusesSend(t)
  {
    failure, attempts := None, 0;
    var i := 0;
    while i < |descriptors|
      invariant 0 <= i == attempts <= |held| && k.now >= old(k.now)
      invariant k.log == old(k.log) + Sends(held[..attempts], kind)
    {
      HoldingAt(table, held, i);
      var sent := k.PidfdSend(descriptors[i], kind);
      assert Sends(held[..i + 1], kind) == Sends(held[..i], kind) + [Sent(held[i], kind)];
      i, attempts := i + 1, attempts + 1;
      if sent == SendRefused {
        failure := Some(SignalFailed);
        return;
      }
    }
  }

  method CloseAll(k: Kernel, descriptors: seq<nat>, ghost held: seq<Descriptor>, ghost table: map<nat, Descriptor>)
    requires Numbers(descriptors, held) && DistinctDescriptors(held) && NewTo(table, held)
    requires k.table == Holding(table, held)
    modifies k`table, k`log
    ensures k.table == table && k.log == old(k.log) + Closes(held)
  {
    var i := 0;
    while i < |descriptors|
      invariant 0 <= i <= |held|
      invariant k.table == Holding(table, held[i..])
      invariant k.log == old(k.log) + Closes(held[..i])
    {
      HoldingDropFirst(table, held[i..]);
      assert held[i..][1..] == held[i + 1..];
      assert Closes(held[..i + 1]) == Closes(held[..i]) + [Closed(held[i])];
      k.Close(descriptors[i]);
      i := i + 1;
    }
    assert held[..i] == held && held[i..] == [];
  }

  predicate Numbers(descriptors: seq<nat>, held: seq<Descriptor>) {
    |descriptors| == |held| && forall i :: 0 <= i < |held| ==> descriptors[i] == held[i].fd
  }

  predicate PidHeld(held: seq<Descriptor>, pid: int) {
    exists i :: 0 <= i < |held| && held[i].who.pid == pid
  }

  /** Holds every live member, signals them all and closes every descriptor it holds. */
  method SignalLive(k: Kernel, e: ProviderEvidence, snapshot: map<int, ProcessIdentity>,
                    live: map<int, ProcessIdentity>, members: seq<ProcessIdentity>, kind: SignalKind,
                    ghost from: nat, ghost to: nat, ghost start: nat, ghost current: seq<ProcessIdentity>)
    returns (failure: Option<Failure>, ghost s: Signalling)
    requires Faithful(k.machine) && to <= k.now && start <= k.now
    requires AllSeen(k.machine, start, k.now, e.processGroup, current) && IndexOf(live, current, false)
    requires AllSeen(k.machine, from, to, e.processGroup, members)
    requires IndexOf(snapshot, members, true) && live.Keys <= snapshot.Keys
    modifies k
    ensures k.now >= old(k.now)
    ensures s.kind == kind && Consistent(s, k.machine, e, members, old(k.table))
    ensures k.log == old(k.log) + Trace(s) && k.table == TableAfter(s, old(k.table))
    ensures failure.None? ==> s.last.Kept? && s.attempts == |s.held| && forall pid :: pid in live ==> PidHeld(s.held, pid)
    ensures failure.Some? && failure != Some(SignalFailed) ==> s.attempts == 0
    ensures s.last.Leaked? ==> failure == Some(ProbeAmbiguous)
    ensures failure.Some? ==> GaveUp(k.machine, start, k.now, e, members, failure.value)
  {
    var descriptors;
    descriptors, failure, s := OpenMembers(k, e, snapshot, live, members, from, to, start, current);
    if failure.Some? {
      CloseAll(k, descriptors, s.held, TableAfter(s, old(k.table)));
      AssembleAbandoned(s, kind, k.machine, e, members, old(k.table), old(k.log));
      s := s.(kind := kind);
      return;
    }
    ghost var now, attempts := k.now, 0;
    failure, attempts := SendAndClose(k, descriptors, kind, s, old(k.table), old(k.log));
    Assemble(s, kind, attempts, k.machine, e, members, old(k.table), old(k.log));
    s := s.(kind := kind, attempts := attempts);
  }

  lemma AssembleAbandoned(s: Signalling, kind: SignalKind, m: Machine, e: ProviderEvidence,
                          members: seq<ProcessIdentity>, table: map<nat, Descriptor>, log: seq<Entry>)
    requires Consistent(s, m, e, members, table) && s.attempts == 0
    ensures Consistent(s.(kind := kind), m, e, members, table)
    ensures log + Opens(s.held) + LastEntries(s.last) + Closes(s.held) == log + Trace(s.(kind := kind))
  {
    Assemble(s, kind, 0, m, e, members, table, log);
    assert Sends(s.held[..0], kind) == [];
  }

  /** Signals every held member, and closes every descriptor whatever comes of it. */
  method SendAndClose(k: Kernel, descriptors: seq<nat>, kind: SignalKind, ghost s: Signalling,
                      ghost table: map<nat, Descriptor>, ghost log: seq<Entry>)
    returns (failure: Option<Failure>, ghost attempts: nat)
    requires s.last.Kept? && WellFormedPhase(s, table) && Opening(k.table, k.log, table, log, s, descriptors)
    modifies k
    ensures k.now >= old(k.now) && attempts <= |s.held|
    ensures k.table == table
    ensures k.log == log + Opens(s.held) + LastEntries(s.last) + Sends(s.held[..attempts], kind) + Closes(s.held)
    ensures failure.None? ==> attempts == |s.held|
    ensures failure.Some? ==> failure == Some(SignalFailed) && s.held != []
    ensures failure.Some? ==> exists t :: old(k.now) <= t < k.now && k.machine.refusesSend(t)
  {
    failure, attempts := SendAll(k, descriptors, kind, s.held, table);
    CloseAll(k, descriptors, s.held, table);
  }

  lemma Assemble(s: Signalling, kind: SignalKind, attempts: nat, m: Machine, e: ProviderEvidence,
                 members: seq<ProcessIdentity>, table: map<nat, Descriptor>, log: seq<Entry>)
    requires Consistent(s, m, e, members, table) && attempts <= |s.held| && (s.last.Kept? || attempts == 0)
    ensures var s' := s.(kind := kind, attempts := attempts);
      && Consistent(s', m, e, members, table)
      && log + Opens(s.held) + LastEntries(s.last) + Sends(s.held[..attempts], kind) + Closes(s.held)
         == log + Trace(s')
  {
  }

  /** Takes a census of the group and signals its live members, if the snapshot knows them all. */
  method SignalCurrent(k: Kernel, e: ProviderEvidence, members: seq<ProcessIdentity>, kind: SignalKind,
                       ghost from: nat, ghost to: nat, ghost start: nat)
    returns (failure: Option<Failure>, ghost s: Signalling)
    requires Faithful(k.machine) && to <= k.now && start <= k.now
    requires AllSeen(k.machine, from, to, e.processGroup, members)
    modifies k
    ensures k.now >= old(k.now)
    ensures s.kind == kind && Consistent(s, k.machine, e, members, old(k.table))
    ensures k.log == old(k.log) + Trace(s) && k.table == TableAfter(s, old(k.table))
    ensures failure.None? ==> s.last.Kept? && s.attempts == |s.held| && FullyCovered(k.machine, start, k.now, e, s)
    ensures failure.Some? && failure != Some(SignalFailed) ==> s.attempts == 0
    ensures s.last.Leaked? ==> failure == Some(ProbeAmbiguous)
    ensures failure.Some? ==> Justified(k.machine, start, k.now, e, members, false, failure.value)
  {
    failure, s := None, Signalling(kind, [], Kept, 0);
    assert Trace(s) == [];
    var current := ProcessGroupMembers(k, e.processGroup);
    if current.Raised? {
      UnreadableWidens(k.machine, old(k.now), k.now, start, k.now, e.processGroup, current.failure);
      return Some(current.failure), s;
    }
    CensusWidens(k.machine, old(k.now), k.now, start, k.now, e.processGroup, current.value);
    var snapshot := ByPid(members, true);
    var live := ByPid(current.value, false);
    var unknown := live.Keys - snapshot.Keys;
    if unknown != {} {
      UnknownIsStranger(k.machine, start, k.now, e, snapshot, live, members, current.value);
      return Some(IdentityLost), s;
    }
    assert live.Keys <= snapshot.Keys + unknown;
    ghost var now := k.now;
    failure, s := SignalLive(k, e, snapshot, live, members, kind, from, to, start, current.value);
    if failure.None? {
      CoveredByHeld(k.machine, start, now, k.now, e, s, live, current.value);
    }
  }

  /** Signals a snapshot: all of the group's live members are held and re-read before the first of
      them is signalled. */
  method SignalProviderMembers(k: Kernel, e: ProviderEvidence, members: seq<ProcessIdentity>, kind: SignalKind,
                               requireLeader: bool, ghost from: nat, ghost to: nat)
    returns (failure: Option<Failure>, ghost s: Signalling)
    requires Faithful(k.machine) && to <= k.now
    requires AllSeen(k.machine, from, to, e.processGroup, members)
    modifies k
    ensures k.now >= old(k.now)
    ensures s.kind == kind && Consistent(s, k.machine, e, members, old(k.table))
    ensures k.log == old(k.log) + Trace(s) && k.table == TableAfter(s, old(k.table))
    ensures failure.None? ==> s.last.Kept? && s.attempts == |s.held| && FullyCovered(k.machine, old(k.now), k.now, e, s)
    ensures failure.Some? && failure != Some(SignalFailed) ==> s.attempts == 0
    ensures s.last.Leaked? ==> failure == Some(ProbeAmbiguous)
    ensures requireLeader && s.held != [] ==> LeaderAlive(k.machine, old(k.now), k.now, e)
    ensures failure.Some? ==> Justified(k.machine, old(k.now), k.now, e, members, requireLeader, failure.value)
  {
    failure, s := None, Signalling(kind, [], Kept, 0);
    assert Trace(s) == [];
    if !k.machine.pidfds {
      return Some(PidfdUnavailable), s;
    }
    if requireLeader {
      var proven := ProveProviderGroup(k, e);
      if proven.Raised? {
        return Some(proven.failure), s;
      }
      if proven.value.None? {
        return Some(IdentityLost), s;
      }
      ProvenIsAlive(k.machine, old(k.now), k.now, e, proven.value.value.0, proven.value.value.1);
    }
    failure, s := SignalCurrent(k, e, members, kind, from, to, old(k.now));
  }

  /** A phase fails only for a reason that was really observed. */
  ghost predicate Justified(m: Machine, from: nat, to: nat, e: ProviderEvidence, members: seq<ProcessIdentity>,
                            requireLeader: bool, f: Failure)
  {
    match f
    case PidfdUnavailable => !m.pidfds
    case IdentityLost =>
      Strayed(m, from, to, e, members) || Stranger(m, from, to, e, members) || (requireLeader && LeaderDoubted(m, from, to, e))
    case SignalFailed => Withheld(m, from, to, e, members)
    case _ => Unreadable(m, from, to, e.processGroup, f) || (requireLeader && NoNumber(e, f))
  }

  lemma UnknownIsStranger(m: Machine, from: nat, to: nat, e: ProviderEvidence, snapshot: map<int, ProcessIdentity>,
                          live: map<int, ProcessIdentity>, members: seq<ProcessIdentity>, current: seq<ProcessIdentity>)
    requires AllSeen(m, from, to, e.processGroup, current)
    requires IndexOf(snapshot, members, true) && IndexOf(live, current, false) && live.Keys - snapshot.Keys != {}
    ensures Stranger(m, from, to, e, members)
  {
    var unknown := live.Keys - snapshot.Keys;
    EmptyOrNot(unknown);
    var pid :| pid in unknown;
    assert SeenBetween(m, from, to, live[pid]);
  }

  ghost predicate LeaderAlive(m: Machine, from: nat, to: nat, e: ProviderEvidence) {
    exists t :: from <= t < to && AliveAs(m, t, Incarnation(e.pid, e.birth))
  }

  lemma ProvenIsAlive(m: Machine, from: nat, to: nat, e: ProviderEvidence,
                      leader: ProcessIdentity, members: seq<ProcessIdentity>)
    requires LeaderProven(m, from, to, e, leader, members)
    ensures LeaderAlive(m, from, to, e)
  {
    var t: nat :| from <= t < to && Look(m, t, leader.pid) == Seen(leader);
    assert AliveAs(m, t, Incarnation(e.pid, e.birth));
  }

  /** Every live member of a census of the group taken during the phase holds a descriptor. */
  ghost predicate FullyCovered(m: Machine, from: nat, to: nat, e: ProviderEvidence, s: Signalling) {
    exists current :: Census(m, from, to, e.processGroup, current) && Covers(s.held, current)
  }

  lemma CoveredByHeld(m: Machine, from: nat, now: nat, to: nat, e: ProviderEvidence, s: Signalling,
                      live: map<int, ProcessIdentity>, current: seq<ProcessIdentity>)
    requires from <= now <= to && Census(m, from, now, e.processGroup, current)
    requires IndexOf(live, current, false) && forall pid :: pid in live ==> PidHeld(s.held, pid)
    ensures FullyCovered(m, from, to, e, s)
  {
    CensusWidens(m, from, now, from, to, e.processGroup, current);
    forall p | p in current && p.state != ZOMBIE
      ensures exists i :: 0 <= i < |s.held| && s.held[i].who.pid == p.pid
    {
      assert PidHeld(s.held, p.pid);
    }
  }

  /** So many censuses, one after the other, all found a live member. */
  ghost predicate StaysRestless(m: Machine, from: nat, to: nat, group: int, polls: nat) {
    from <= to
    && (polls > 0 ==> exists t :: from <= t <= to && StaysRestless(m, from, t, group, polls - 1) && Restless(m, t, to, group))
  }

  /** Why a wait gave up: it ran out of polls, or one of them could not be made. */
  ghost predicate WaitedInVain(m: Machine, from: nat, to: nat, group: int, polls: nat, reason: Failure, f: Failure) {
    || (f == reason && StaysRestless(m, from, to, group, polls))
    || Unreadable(m, from, to, group, f)
  }

  lemma RestlessStep(m: Machine, from: nat, t: nat, to: nat, group: int, polls: nat)
    requires t <= to && StaysRestless(m, from, t, group, polls) && Restless(m, t, to, group)
    ensures StaysRestless(m, from, to, group, polls + 1)
  {
    assert StaysRestless(m, from, t, group, (polls + 1) - 1);
  }

  /** Polls until the group is quiet, as often as the deadline allows. */
  method WaitForQuiet(k: Kernel, e: ProviderEvidence, polls: nat, reason: Failure) returns (failure: Option<Failure>)
    requires Faithful(k.machine)
    modifies k`now
    ensures k.now >= old(k.now)
    ensures failure.None? ==> Quiet(k.machine, old(k.now), k.now, e.processGroup)
    ensures failure.Some? ==> WaitedInVain(k.machine, old(k.now), k.now, e.processGroup, polls, reason, failure.value)
  {
    for i := 0 to polls
      invariant k.now >= old(k.now) && StaysRestless(k.machine, old(k.now), k.now, e.processGroup, i)
    {
      ghost var from := k.now;
      var quiet := GroupIsQuiet(k, e);
      if quiet.Done? && quiet.value {
        QuietWidens(k.machine, from, k.now, old(k.now), k.now, e.processGroup);
        return None;
      }
      if quiet.Raised? {
        UnreadableWidens(k.machine, from, k.now, old(k.now), k.now, e.processGroup, quiet.failure);
        return Some(quiet.failure);
      }
      RestlessStep(k.machine, old(k.now), from, k.now, e.processGroup, i);
    }
    failure := Some(reason);
  }

  lemma QuietWidens(m: Machine, from: nat, to: nat, f: nat, t: nat, group: int)
    requires f <= from && to <= t && Quiet(m, from, to, group)
    ensures Quiet(m, f, t, group)
  {
    var members :| Census(m, from, to, group, members) && forall p: ProcessIdentity :: p in members ==> p.state == ZOMBIE;
    CensusWidens(m, from, to, f, t, group, members);
  }

  /** What one cleanup sent: nothing, TERM alone, or a TERM that reached every held member and then
      KILL. */
  datatype Course = Nothing | Terminated(term: Signalling) | Killed(term: Signalling, kill: Signalling)

  function CourseTrace(c: Course): seq<Entry>
    requires c.Terminated? || c.Killed? ==> c.term.attempts <= |c.term.held|
    requires c.Killed? ==> c.kill.attempts <= |c.kill.held|
  {
    match c
    case Nothing => []
    case Terminated(t) => Trace(t)
    case Killed(t, x) => Trace(t) + Trace(x)
  }

  function CourseTable(c: Course, table: map<nat, Descriptor>): map<nat, Descriptor> {
    match c
    case Nothing => table
    case Terminated(t) => TableAfter(t, table)
    case Killed(t, x) => TableAfter(x, table)
  }

  /** Every phase aims only at the snapshot, and KILL follows a TERM that reached every held member. */
  predicate ProperCourse(c: Course, m: Machine, e: ProviderEvidence, snapshot: seq<ProcessIdentity>,
                         table: map<nat, Descriptor>)
  {
    match c
    case Nothing => true
    case Terminated(t) => t.kind == Term && Consistent(t, m, e, snapshot, table)
    case Killed(t, x) =>
      && t.kind == Term && t.last.Kept? && t.attempts == |t.held| && Consistent(t, m, e, snapshot, table)
      && x.kind == Kill && Consistent(x, m, e, snapshot, table)
  }

  ghost predicate ProvenSnapshot(m: Machine, from: nat, to: nat, e: ProviderEvidence, snapshot: seq<ProcessIdentity>) {
    exists leader :: LeaderProven(m, from, to, e, leader, snapshot)
  }

  lemma LogsJoin(a: seq<Entry>, b: seq<Entry>, c: seq<Entry>)
    ensures a + b + c == a + (b + c)
  {
  }

  /** How TERM, a bounded wait, and KILL have gone. */
  ghost predicate Escalated(m: Machine, from: nat, to: nat, e: ProviderEvidence, members: seq<ProcessIdentity>,
                            termPolls: nat, killPolls: nat, failure: Option<Failure>, c: Course)
  {
    match c
    case Nothing => false
    case Terminated(term) =>
      if failure.Some? then Justified(m, from, to, e, members, true, failure.value)
      else exists t :: from <= t <= to && TermSucceeds(m, from, t, e, term) && Quiet(m, t, to, e.processGroup)
    case Killed(term, kill) =>
      exists t, u :: TermFails(m, from, t, u, e, term, termPolls) && KillEnds(m, u, to, e, members, kill, killPolls, failure)
  }

  /** TERM reached every live member, and the leader was alive if there was one to be reached. */
  ghost predicate TermSucceeds(m: Machine, from: nat, to: nat, e: ProviderEvidence, term: Signalling) {
    FullyCovered(m, from, to, e, term) && (term.held != [] ==> LeaderAlive(m, from, to, e))
  }

  /** ... and the wait that followed did not see the group quiet. */
  ghost predicate TermFails(m: Machine, from: nat, t: nat, to: nat, e: ProviderEvidence, term: Signalling, polls: nat) {
    && from <= t <= to && TermSucceeds(m, from, t, e, term)
    && exists f :: WaitedInVain(m, t, to, e.processGroup, polls, NeverQuiet, f)
  }

  ghost predicate KillEnds(m: Machine, from: nat, to: nat, e: ProviderEvidence, members: seq<ProcessIdentity>,
                           kill: Signalling, polls: nat, failure: Option<Failure>)
  {
    || (failure.Some? && Justified(m, from, to, e, members, false, failure.value))
    || exists t :: KillSucceeds(m, from, t, to, e, kill, polls, failure)
  }

  ghost predicate KillSucceeds(m: Machine, from: nat, t: nat, to: nat, e: ProviderEvidence, kill: Signalling,
                               polls: nat, failure: Option<Failure>)
  {
    && from <= t <= to && kill.last.Kept? && kill.attempts == |kill.held| && FullyCovered(m, from, t, e, kill)
    && if failure.None? then Quiet(m, t, to, e.processGroup)
       else WaitedInVain(m, t, to, e.processGroup, polls, NeverQuietAfterKill, failure.value)
  }

  /** TERM, a bounded wait, then KILL for the same snapshot. */
  method Escalate(k: Kernel, e: ProviderEvidence, members: seq<ProcessIdentity>, termPolls: nat, killPolls: nat,
                  ghost from: nat, ghost to: nat)
    returns (failure: Option<Failure>, ghost c: Course)
    requires Faithful(k.machine) && to <= k.now
    requires AllSeen(k.machine, from, to, e.processGroup, members)
    modifies k
    ensures k.now >= old(k.now)
    ensures c != Nothing && ProperCourse(c, k.machine, e, members, old(k.table))
    ensures k.log == old(k.log) + CourseTrace(c) && k.table == CourseTable(c, old(k.table))
    ensures Escalated(k.machine, old(k.now), k.now, e, members, termPolls, killPolls, failure, c)
  {
    ghost var term;
    failure, term := SignalProviderMembers(k, e, members, Term, true, from, to);
    c := Terminated(term);
    if failure.Some? {
      return;
    }
    ghost var t := k.now;
    assert TermSucceeds(k.machine, old(k.now), t, e, term);
    failure := WaitForQuiet(k, e, termPolls, NeverQuiet);
    if failure.None? {
      return;
    }
    ghost var u, kill, table, log := k.now, term, k.table, k.log;
    assert TermFails(k.machine, old(k.now), t, u, e, term, termPolls);
    failure, kill := KillRemaining(k, e, members, killPolls, from, to);
    c := Killed(term, kill);
    LogsJoin(old(k.log), Trace(term), Trace(kill));
  }

  /** KILL for what is left of a snapshot. The leader may be gone by now, so only the snapshot counts. */
  method KillRemaining(k: Kernel, e: ProviderEvidence, members: seq<ProcessIdentity>, polls: nat,
                       ghost from: nat, ghost to: nat)
    returns (failure: Option<Failure>, ghost kill: Signalling)
    requires Faithful(k.machine) && to <= k.now
    requires AllSeen(k.machine, from, to, e.processGroup, members)
    modifies k
    ensures k.now >= old(k.now)
    ensures kill.kind == Kill && Consistent(kill, k.machine, e, members, old(k.table))
    ensures k.log == old(k.log) + Trace(kill) && k.table == TableAfter(kill, old(k.table))
    ensures KillEnds(k.machine, old(k.now), k.now, e, members, kill, polls, failure)
  {
    failure, kill := SignalProviderMembers(k, e, members, Kill, false, from, to);
    if failure.None? {
      ghost var t := k.now;
      failure := WaitForQuiet(k, e, polls, NeverQuietAfterKill);
      assert KillSucceeds(k.machine, old(k.now), t, k.now, e, kill, polls, failure);
    }
  }

  // The cleanup

  /** The last look at the group, and then at the root. */
  ghost predicate Checked(m: Machine, from: nat, to: nat, e: ProviderEvidence, checkRoot: bool, failure: Option<Failure>) {
    match failure
    case None => exists t :: RootSeen(m, from, t, to, e, checkRoot, false)
    case Some(RootReferenced) => exists t :: RootSeen(m, from, t, to, e, checkRoot, true)
    case Some(Survived) => Restless(m, from, to, e.processGroup)
    case Some(f) => Unreadable(m, from, to, e.processGroup, f)
  }

  /** The group was quiet, and then the root was found as told, if anybody looked. */
  ghost predicate RootSeen(m: Machine, from: nat, t: nat, to: nat, e: ProviderEvidence, checkRoot: bool, referenced: bool) {
    && from <= t <= to && Quiet(m, from, t, e.processGroup)
    && if checkRoot then t < to && m.referenced(t) == referenced else !referenced
  }

  /** The leader was not proven: the group is left alone. */
  ghost predicate LeftAlone(m: Machine, from: nat, t: nat, to: nat, e: ProviderEvidence, failure: Option<Failure>) {
    && from <= t <= to && LeaderDoubted(m, from, t, e)
    && match failure
       case None => Quiet(m, t, to, e.processGroup)
       case Some(IdentityLost) => Restless(m, t, to, e.processGroup)
       case Some(f) => Unreadable(m, t, to, e.processGroup, f)
  }

  /** The leader was proven with the snapshot, and then the group was quiet anyway. */
  ghost predicate FoundQuiet(m: Machine, from: nat, t: nat, u: nat, to: nat, e: ProviderEvidence,
                             snapshot: seq<ProcessIdentity>, checkRoot: bool, failure: Option<Failure>)
  {
    && from <= t <= u <= to && ProvenSnapshot(m, from, t, e, snapshot) && Quiet(m, t, u, e.processGroup)
    && Checked(m, u, to, e, checkRoot, failure)
  }

  /** The leader was proven with the snapshot, and then the group had a live member. */
  ghost predicate FoundRestless(m: Machine, from: nat, t: nat, u: nat, e: ProviderEvidence, snapshot: seq<ProcessIdentity>) {
    from <= t <= u && ProvenSnapshot(m, from, t, e, snapshot) && Restless(m, t, u, e.processGroup)
  }

  /** The group was signalled, and checked once it was quiet. */
  ghost predicate Finished(m: Machine, from: nat, t: nat, to: nat, e: ProviderEvidence, snapshot: seq<ProcessIdentity>,
                           checkRoot: bool, termPolls: nat, killPolls: nat, failure: Option<Failure>, c: Course)
  {
    && from <= t <= to
    && ((failure.Some? && t == to && Escalated(m, from, t, e, snapshot, termPolls, killPolls, failure, c))
        || (Escalated(m, from, t, e, snapshot, termPolls, killPolls, None, c) && Checked(m, t, to, e, checkRoot, failure)))
  }

  /** What a cleanup of a recorded group has come to, stage by stage. */
  ghost predicate CleanedUp(m: Machine, from: nat, to: nat, e: ProviderEvidence, checkRoot: bool, termPolls: nat,
                            killPolls: nat, failure: Option<Failure>, snapshot: seq<ProcessIdentity>, c: Course)
  {
    if e.processGroup != e.pid then failure == Some(GroupAmbiguous) && c == Nothing
    else if c == Nothing then
      || (failure.Some? && (Unreadable(m, from, to, e.processGroup, failure.value) || NoNumber(e, failure.value)))
      || (exists t :: LeftAlone(m, from, t, to, e, failure))
      || (exists t, u :: FoundQuiet(m, from, t, u, to, e, snapshot, checkRoot, failure))
    else
      exists t, u, v ::
        && FoundRestless(m, from, t, u, e, snapshot)
        && Finished(m, u, v, to, e, snapshot, checkRoot, termPolls, killPolls, failure, c)
  }

  /** Terminates a recorded group. Whatever exits and whatever numbers are reused meanwhile, it
      signals only members of one snapshot taken together with a proof of the leader, and it does so
      exactly when a member is left; every end is one that the stages before it led to. */
  method CleanupProviderGroup(k: Kernel, evidence: Option<ProviderEvidence>, checkRoot: bool,
                              termPolls: nat, killPolls: nat)
    returns (failure: Option<Failure>, ghost snapshot: seq<ProcessIdentity>, ghost c: Course)
    requires Faithful(k.machine)
    modifies k
    ensures k.now >= old(k.now)
    ensures evidence.None? ==> c == Nothing && k.log == old(k.log) && k.table == old(k.table)
    ensures evidence.None? ==>
      failure == if checkRoot && k.machine.referenced(old(k.now)) then Some(RootReferenced) else None
    ensures evidence.Some? ==> ProperCourse(c, k.machine, evidence.value, snapshot, old(k.table))
    ensures evidence.Some? ==> CleanedUp(k.machine, old(k.now), k.now, evidence.value, checkRoot, termPolls, killPolls,
                                         failure, snapshot, c)
    ensures evidence.Some? ==> k.log == old(k.log) + CourseTrace(c) && k.table == CourseTable(c, old(k.table))
  {
    if evidence.None? {
      failure := CheckRoot(k, checkRoot);
      snapshot, c := [], Nothing;
    } else {
      failure, snapshot, c := CleanupRecorded(k, evidence.value, checkRoot, termPolls, killPolls);
    }
  }

  method CleanupRecorded(k: Kernel, e: ProviderEvidence, checkRoot: bool, termPolls: nat, killPolls: nat)
    returns (failure: Option<Failure>, ghost snapshot: seq<ProcessIdentity>, ghost c: Course)
    requires Faithful(k.machine)
    modifies k
    ensures k.now >= old(k.now)
    ensures ProperCourse(c, k.machine, e, snapshot, old(k.table))
    ensures CleanedUp(k.machine, old(k.now), k.now, e, checkRoot, termPolls, killPolls, failure, snapshot, c)
    ensures k.log == old(k.log) + CourseTrace(c) && k.table == CourseTable(c, old(k.table))
  {
    failure, snapshot, c := None, [], Nothing;
    if e.processGroup != e.pid {
      failure := Some(GroupAmbiguous);
      return;
    }
    var proven := ProveProviderGroup(k, e);
    if proven.Raised? {
      failure := Some(proven.failure);
      return;
    }
    ghost var t := k.now;
    if proven.value.None? {
      failure := LeaveAlone(k, e);
      assert LeftAlone(k.machine, old(k.now), t, k.now, e, failure);
      return;
    }
    snapshot := proven.value.value.1;
    assert LeaderProven(k.machine, old(k.now), t, e, proven.value.value.0, snapshot);
    assert ProvenSnapshot(k.machine, old(k.now), t, e, snapshot);
    failure, c := CleanupProven(k, e, proven.value.value.1, checkRoot, termPolls, killPolls, old(k.now));
  }

  method LeaveAlone(k: Kernel, e: ProviderEvidence) returns (failure: Option<Failure>)
    requires Faithful(k.machine)
    modifies k`now
    ensures k.now >= old(k.now)
    ensures match failure
      case None => Quiet(k.machine, old(k.now), k.now, e.processGroup)
      case Some(IdentityLost) => Restless(k.machine, old(k.now), k.now, e.processGroup)
      case Some(f) => Unreadable(k.machine, old(k.now), k.now, e.processGroup, f)
  {
    var quiet := GroupIsQuiet(k, e);
    failure := if quiet.Raised? then Some(quiet.failure) else if quiet.value then None else Some(IdentityLost);
  }

  method CleanupProven(k: Kernel, e: ProviderEvidence, members: seq<ProcessIdentity>, checkRoot: bool,
                       termPolls: nat, killPolls: nat, ghost from: nat)
    returns (failure: Option<Failure>, ghost c: Course)
    requires Faithful(k.machine) && from <= k.now && e.processGroup == e.pid
    requires ProvenSnapshot(k.machine, from, k.now, e, members)
    modifies k
    ensures k.now >= old(k.now)
    ensures ProperCourse(c, k.machine, e, members, old(k.table))
    ensures k.log == old(k.log) + CourseTrace(c) && k.table == CourseTable(c, old(k.table))
    ensures CleanedUp(k.machine, from, k.now, e, checkRoot, termPolls, killPolls, failure, members, c)
  {
    failure, c := None, Nothing;
    var quiet := GroupIsQuiet(k, e);
    ghost var t, u := old(k.now), k.now;
    if quiet.Raised? {
      failure := Some(quiet.failure);
      UnreadableWidens(k.machine, t, u, from, u, e.processGroup, quiet.failure);
    } else if quiet.value {
      failure := FinalCheck(k, e, checkRoot);
      assert FoundQuiet(k.machine, from, t, u, k.now, e, members, checkRoot, failure);
    } else {
      assert FoundRestless(k.machine, from, t, u, e, members);
      ghost var v;
      failure, c, v := CleanupRestless(k, e, members, checkRoot, termPolls, killPolls, from, t);
    }
  }

  method CleanupRestless(k: Kernel, e: ProviderEvidence, members: seq<ProcessIdentity>, checkRoot: bool,
                         termPolls: nat, killPolls: nat, ghost from: nat, ghost to: nat)
    returns (failure: Option<Failure>, ghost c: Course, ghost v: nat)
    requires Faithful(k.machine) && to <= k.now && ProvenSnapshot(k.machine, from, to, e, members)
    modifies k
    ensures k.now >= old(k.now)
    ensures c != Nothing && ProperCourse(c, k.machine, e, members, old(k.table))
    ensures k.log == old(k.log) + CourseTrace(c) && k.table == CourseTable(c, old(k.table))
    ensures Finished(k.machine, old(k.now), v, k.now, e, members, checkRoot, termPolls, killPolls, failure, c)
  {
    failure, c := Escalate(k, e, members, termPolls, killPolls, from, to);
    v := k.now;
    if failure.None? {
      failure := FinalCheck(k, e, checkRoot);
    }
  }

  method FinalCheck(k: Kernel, e: ProviderEvidence, checkRoot: bool) returns (failure: Option<Failure>)
    requires Faithful(k.machine)
    modifies k`now
    ensures k.now >= old(k.now)
    ensures Checked(k.machine, old(k.now), k.now, e, checkRoot, failure)
  {
    var quiet := GroupIsQuiet(k, e);
    ghost var t := k.now;
    if quiet.Raised? {
      return Some(quiet.failure);
    }
    if !quiet.value {
      return Some(Survived);
    }
    failure := CheckRoot(k, checkRoot);
    assert RootSeen(k.machine, old(k.now), t, k.now, e, checkRoot, failure.Some?);
  }

  method CheckRoot(k: Kernel, checkRoot: bool) returns (failure: Option<Failure>)
    modifies k`now
    ensures k.now == old(k.now) + if checkRoot then 1 else 0
    ensures failure == if checkRoot && k.machine.referenced(old(k.now)) then Some(RootReferenced) else None
  {
    failure := None;
    if checkRoot {
      failure := if k.machine.referenced(k.now) then Some(RootReferenced) else None;
      k.now := k.now + 1;
    }
  }
}
