/** The stable lock without an adversary: racing installers and crashes at any system call.
    The artifact is created at most once and never replaced, a ready lease always names it
    with its exact content, and a rerun of an installer either finalises it or refuses. */
module LockRecovery {
  import opened Bytes
  import opened StableLock
  import opened LockSafety

  /** Calls, their steps, crashes and inode reclaiming; nobody touches the path or the files. */
  predicate Quiet(e: Event) {
    e.Start? || e.Advance? || e.Crash? || e.Reclaim?
  }

  predicate AllQuiet(events: seq<Event>) {
    forall e :: e in events ==> Quiet(e)
  }

  /** A file that holds the first `written` bytes of the expected content. */
  predicate Partial(f: File, host: Bytes, generation: int, written: nat) {
    var expected := ExpectedContent(host, generation);
    f.regular && f.isPrivate && expected.Some? && written <= |expected.value| && f.content == expected.value[..written]
  }

  predicate IsWriter(p: Proc) {
    p.Busy? && p.call != Migrate && p.stage in {Write, VerifyCreated}
  }

  predicate IsReader(p: Proc) {
    p.Busy? && p.call != Migrate && p.stage in {Stat, Read, Lock, LookAgain, Commit, Release}
  }

  /** What an actor's descriptor stands for while nobody interferes: the one named artifact. */
  predicate Descends(s: State, p: Proc) {
    && (IsWriter(p) ==>
         && s.path == Named(p.fd) && p.fd in s.files
         && Partial(s.files[p.fd], p.host, p.lease.generation, p.written)
         && (p.stage == VerifyCreated ==> Exact(s.files[p.fd], p.host, p.lease.generation)))
    && (IsReader(p) ==> s.path == Named(p.fd) && p.fd in s.files)
    && (IsReader(p) && p.stage == Read ==> s.files[p.fd].regular && s.files[p.fd].isPrivate)
    && (IsReader(p) && p.stage !in {Stat, Read} ==> Exact(s.files[p.fd], p.host, p.lease.generation))
  }

  predicate ReadyIsExact(s: State) {
    forall h :: h in s.leases && s.leases[h].inode.Some? ==>
      var i := s.leases[h].inode.value;
      s.path == Named(i) && i in s.files && Exact(s.files[i], h, s.leases[h].generation)
  }

  predicate OneWriter(s: State) {
    forall a, b :: a in s.procs && b in s.procs && IsWriter(s.procs[a]) && IsWriter(s.procs[b]) ==> a == b
  }

  predicate QuietInv(s: State) {
    && Inv(s)
    && (forall a :: a in s.procs ==> Descends(s, s.procs[a]))
    && ReadyIsExact(s)
    && OneWriter(s)
  }

  lemma CloseKeepsQuiet(s: State, a: Actor)
    requires QuietInv(s)
    ensures QuietInv(Close(s, a))
  {
    CloseKeeps(s, a);
    var t := Close(s, a);
    forall b | b in t.procs ensures Descends(t, t.procs[b]) {
      assert Descends(s, s.procs[b]);
    }
  }

  /** An actor moves on; files, path and metadata stay. */
  lemma MoveKeepsQuiet(s: State, a: Actor, p: Proc, t: State)
    requires QuietInv(s) && Inv(t)
    requires t.path == s.path && t.files == s.files && t.leases == s.leases && t.procs == s.procs[a := p]
    requires Descends(s, p) && (IsWriter(p) ==> a in s.procs && IsWriter(s.procs[a]))
    ensures QuietInv(t)
  {
    forall b | b in t.procs ensures Descends(t, t.procs[b]) {
      assert b != a ==> Descends(s, s.procs[b]);
    }
  }

  lemma CreateKeepsQuiet(s: State, a: Actor, p: Proc, spare: Inode, t: State)
    requires QuietInv(s) && Inv(t) && s.path == Absent && p.Busy?
    requires ExpectedContent(p.host, p.lease.generation).Some?
    requires t == Go(s.(path := Named(spare), files := s.files[spare := File(true, true, [])]), a,
                     p.(stage := Write, fd := spare, written := 0))
    ensures QuietInv(t)
  {
    forall b | b in t.procs && b != a ensures Descends(t, t.procs[b]) && !IsWriter(t.procs[b]) {
      assert Descends(s, s.procs[b]);
    }
    assert Descends(t, t.procs[a]);
  }

  lemma WriteExtends(content: Bytes, expected: Bytes, written: nat, chunk: nat)
    requires written + chunk <= |expected| && content == expected[..written]
    ensures WriteAt(content, written, expected[written..written + chunk]) == expected[..written + chunk]
  {
  }

  /** Some bytes appended to the artifact under construction: nobody else relies on its content. */
  lemma WriteKeepsQuiet(s: State, a: Actor, p: Proc, spare: Inode, chunk: nat, t: State)
    requires QuietInv(s) && Inv(t) && a in s.procs && p == s.procs[a] && IsWriter(p) && p.stage == Write
    requires p.written < |ExpectedContent(p.host, p.lease.generation).value|
    requires p.written + chunk <= |ExpectedContent(p.host, p.lease.generation).value|
    requires t == StepCreate(s, a, p, spare, chunk) && chunk != 0
    ensures QuietInv(t)
  {
    var expected := ExpectedContent(p.host, p.lease.generation).value;
    var old' := s.files[p.fd];
    assert Descends(s, p) && Remembers(s, p);
    WriteExtends(old'.content, expected, p.written, chunk);
    assert t.files == s.files[p.fd := t.files[p.fd]];
    forall b | b in t.procs && b != a ensures Descends(t, t.procs[b]) {
      var q := s.procs[b];
      assert Descends(s, q) && Remembers(s, q) && !IsWriter(q);
    }
    assert Descends(t, t.procs[a]);
  }

  lemma CommitKeepsQuiet(s: State, a: Actor, p: Proc, t: State)
    requires QuietInv(s) && Inv(t) && a in s.procs && p == s.procs[a] && IsReader(p) && p.stage == Commit
    requires t == Go(s.(leases := s.leases[p.host := Lease(p.lease.generation, Ready, Some(p.fd))]), a, p.(stage := Release))
    ensures QuietInv(t)
  {
    assert Descends(s, p) && Remembers(s, p);
    forall b | b in t.procs && b != a ensures Descends(t, t.procs[b]) {
      assert Descends(s, s.procs[b]);
    }
    assert Descends(t, t.procs[a]);
  }

  lemma MigratedKeepsQuiet(s: State, a: Actor, p: Proc, t: State)
    requires QuietInv(s) && Inv(t) && p.Busy? && p.host !in s.leases
    requires t == Close(s.(version := 14, leases := s.leases[p.host := Lease(p.lease.generation, Pending, None)]), a)
    ensures QuietInv(t)
  {
    forall b | b in t.procs ensures Descends(t, t.procs[b]) {
      assert Descends(s, s.procs[b]);
    }
  }

  lemma MigrateKeepsQuiet(s: State, a: Actor, p: Proc)
    requires QuietInv(s) && a in s.procs && p == s.procs[a] && p.Busy? && p.call == Migrate
    requires Inv(StepMigrate(s, a, p))
    ensures QuietInv(StepMigrate(s, a, p))
  {
    CloseKeepsQuiet(s, a);
    var t := StepMigrate(s, a, p);
    if p.stage == LookPath {
      if s.path == Absent {
        MoveKeepsQuiet(s, a, p.(stage := Commit), t);
      }
    } else if s.version == 13 && p.host !in s.leases {
      MigratedKeepsQuiet(s, a, p, t);
    }
  }

  lemma MetadataKeepsQuiet(s: State, a: Actor, p: Proc)
    requires QuietInv(s) && a in s.procs && p == s.procs[a] && p.Busy? && p.call != Migrate
    requires p.stage in {ReadLease, ReadVersion} && Inv(StepMetadata(s, a, p))
    ensures QuietInv(StepMetadata(s, a, p))
  {
    CloseKeepsQuiet(s, a);
    var t := StepMetadata(s, a, p);
    if t != Close(s, a) {
      MoveKeepsQuiet(s, a, t.procs[a], t);
    }
  }

  lemma WritingKeepsQuiet(s: State, a: Actor, p: Proc, spare: Inode, chunk: nat)
    requires QuietInv(s) && a in s.procs && p == s.procs[a] && IsWriter(p) && p.stage == Write && p.fd in s.files
    requires Inv(StepCreate(s, a, p, spare, chunk))
    ensures QuietInv(StepCreate(s, a, p, spare, chunk))
  {
    CloseKeepsQuiet(s, a);
    assert Descends(s, p);
    var expected := ExpectedContent(p.host, p.lease.generation).value;
    var t := StepCreate(s, a, p, spare, chunk);
    if p.written >= |expected| {
      assert expected[..p.written] == expected;
      MoveKeepsQuiet(s, a, p.(stage := VerifyCreated), t);
    } else if chunk != 0 && p.written + chunk <= |expected| {
      WriteKeepsQuiet(s, a, p, spare, chunk, t);
    }
  }

  lemma CreatingKeepsQuiet(s: State, a: Actor, p: Proc, spare: Inode, chunk: nat)
    requires QuietInv(s) && a in s.procs && p == s.procs[a] && p.Busy? && p.call != Migrate && p.stage == Create
    requires Inv(StepCreate(s, a, p, spare, chunk))
    ensures QuietInv(StepCreate(s, a, p, spare, chunk))
  {
    CloseKeepsQuiet(s, a);
    if ExpectedContent(p.host, p.lease.generation).Some? && s.path == Absent && spare !in s.files {
      CreateKeepsQuiet(s, a, p, spare, StepCreate(s, a, p, spare, chunk));
    }
  }

  lemma VerifyingKeepsQuiet(s: State, a: Actor, p: Proc, spare: Inode, chunk: nat)
    requires QuietInv(s) && a in s.procs && p == s.procs[a] && p.Busy? && p.call != Migrate && p.stage == VerifyCreated
    requires p.fd in s.files && Inv(StepCreate(s, a, p, spare, chunk))
    ensures QuietInv(StepCreate(s, a, p, spare, chunk))
  {
    CloseKeepsQuiet(s, a);
    var t := StepCreate(s, a, p, spare, chunk);
    if t != Close(s, a) {
      MoveKeepsQuiet(s, a, p.(stage := Open), t);
    }
  }

  lemma CreationKeepsQuiet(s: State, a: Actor, p: Proc, spare: Inode, chunk: nat)
    requires QuietInv(s) && a in s.procs && p == s.procs[a] && p.Busy? && p.call != Migrate
    requires p.stage in {Create, Write, VerifyCreated} && (p.stage != Create ==> p.fd in s.files)
    requires Inv(StepCreate(s, a, p, spare, chunk))
    ensures QuietInv(StepCreate(s, a, p, spare, chunk))
  {
    match p.stage
    case Create => CreatingKeepsQuiet(s, a, p, spare, chunk);
    case Write => WritingKeepsQuiet(s, a, p, spare, chunk);
    case VerifyCreated => VerifyingKeepsQuiet(s, a, p, spare, chunk);
  }

  lemma ValidateKeepsQuiet(s: State, a: Actor, p: Proc)
    requires QuietInv(s) && a in s.procs && p == s.procs[a] && p.Busy? && p.call != Migrate
    requires p.stage in {Open, Stat, Read} && (p.stage != Open ==> p.fd in s.files) && Inv(StepValidate(s, a, p))
    ensures QuietInv(StepValidate(s, a, p))
  {
    CloseKeepsQuiet(s, a);
    assert Descends(s, p);
    var t := StepValidate(s, a, p);
    if t != Close(s, a) {
      MoveKeepsQuiet(s, a, t.procs[a], t);
    }
  }

  lemma LockedKeepsQuiet(s: State, a: Actor, p: Proc)
    requires QuietInv(s) && a in s.procs && p == s.procs[a] && p.Busy? && p.call != Migrate
    requires p.stage in {Lock, LookAgain, Commit, Release} && Inv(StepLocked(s, a, p))
    ensures QuietInv(StepLocked(s, a, p))
  {
    CloseKeepsQuiet(s, a);
    var t := StepLocked(s, a, p);
    if p.stage == Commit {
      if p.host in s.leases && s.leases[p.host] == Lease(p.lease.generation, Pending, None) {
        CommitKeepsQuiet(s, a, p, t);
      }
    } else if t != Close(s, a) {
      LockedDescends(s, a, p);
      MoveKeepsQuiet(s, a, t.procs[a], t);
    }
  }

  lemma LockedDescends(s: State, a: Actor, p: Proc)
    requires QuietInv(s) && a in s.procs && p == s.procs[a] && p.Busy? && p.call != Migrate
    requires p.stage in {Lock, LookAgain} && StepLocked(s, a, p) != Close(s, a)
    ensures var t := StepLocked(s, a, p);
      && t.path == s.path && t.files == s.files && t.leases == s.leases
      && a in t.procs && t.procs == s.procs[a := t.procs[a]]
      && Descends(s, t.procs[a]) && !IsWriter(t.procs[a])
  {
    assert Descends(s, p);
  }

  lemma AdvanceKeepsQuiet(s: State, a: Actor, spare: Inode, chunk: nat)
    requires QuietInv(s) && a in s.procs && s.procs[a].Busy?
    ensures QuietInv(Step(s, a, spare, chunk))
  {
    var p := s.procs[a];
    AdvanceKeeps(s, a, spare, chunk);
    assert Descends(s, p);
    if p.call == Migrate {
      MigrateKeepsQuiet(s, a, p);
    } else {
      match p.stage
      case ReadLease | ReadVersion => MetadataKeepsQuiet(s, a, p);
      case LookPath => MoveKeepsQuiet(s, a, p.(stage := if s.path == Absent then Create else Open), Step(s, a, spare, chunk));
      case Create | Write | VerifyCreated => CreationKeepsQuiet(s, a, p, spare, chunk);
      case Open | Stat | Read => ValidateKeepsQuiet(s, a, p);
      case Lock | LookAgain | Commit | Release => LockedKeepsQuiet(s, a, p);
    }
  }

  lemma ApplyKeepsQuiet(s: State, e: Event)
    requires QuietInv(s) && Quiet(e)
    ensures QuietInv(Apply(s, e))
  {
    ApplyKeeps(s, e);
    match e
    case Advance(a, spare, chunk) =>
      if a in s.procs && s.procs[a].Busy? {
        AdvanceKeepsQuiet(s, a, spare, chunk);
      }
    case Crash(a) => CloseKeepsQuiet(s, a);
    case Start(a, _, _, _) =>
      if a !in s.procs {
        MoveKeepsQuiet(s, a, Apply(s, e).procs[a], Apply(s, e));
      }
    case Reclaim(i) =>
      if Reclaimable(s, i) {
        var t := Apply(s, e);
        forall b | b in t.procs ensures Descends(t, t.procs[b]) {
          assert Descends(s, s.procs[b]);
        }
      }
    case _ =>
  }

  lemma {:induction false} RunKeepsQuiet(s: State, events: seq<Event>)
    requires QuietInv(s) && AllQuiet(events)
    ensures QuietInv(Run(s, events))
    decreases |events|
  {
    if events != [] {
      ApplyKeepsQuiet(s, events[0]);
      RunKeepsQuiet(Apply(s, events[0]), events[1..]);
    }
  }

  /** With any number of racing installers and any crashes, a ready lease names the artifact
      at the lock path, and the artifact holds exactly the content of that lease. */
  lemma ReadyNamesTheExactArtifact(s: State, events: seq<Event>, h: Bytes)
    requires Initial(s) && AllQuiet(events)
    ensures var t := Run(s, events);
      h in t.leases && t.leases[h].phase == Ready ==>
        exists i ::
          && t.leases[h].inode == Some(i) && t.path == Named(i) && i in t.files
          && Exact(t.files[i], h, t.leases[h].generation)
  {
    RunKeepsQuiet(s, events);
    var t := Run(s, events);
    if h in t.leases && t.leases[h].phase == Ready {
      assert WellFormed(t.leases[h]);
      assert t.leases[h].inode == Some(t.leases[h].inode.value);
    }
  }

  // Nothing at the path is ever replaced or altered

  predicate Unwritten(s: State, i: Inode) {
    forall a :: a in s.procs && IsWriter(s.procs[a]) ==> s.procs[a].fd != i
  }

  /** From s to t, nothing at the path was replaced, and no unwritten artifact altered. */
  predicate Preserves(s: State, t: State) {
    && (s.path != Absent ==> t.path == s.path)
    && (s.path.Named? && Unwritten(s, s.path.inode) ==>
         && Unwritten(t, s.path.inode)
         && (s.path.inode in s.files ==>
              s.path.inode in t.files && t.files[s.path.inode] == s.files[s.path.inode]))
  }

  /** From s to t only actor a moved, and it did not start to write. */
  predicate OnlyMoves(s: State, a: Actor, t: State) {
    && t.path == s.path && t.files == s.files
    && (forall b :: b in t.procs && b != a ==> b in s.procs && t.procs[b] == s.procs[b])
    && (a in t.procs && IsWriter(t.procs[a]) ==> a in s.procs && t.procs[a] == s.procs[a])
  }

  lemma MovePreserves(s: State, a: Actor, t: State)
    requires OnlyMoves(s, a, t)
    ensures Preserves(s, t)
  {
  }

  lemma MigrateOnlyMoves(s: State, a: Actor, p: Proc)
    requires p.Busy? && a in s.procs && p == s.procs[a] && p.call == Migrate
    ensures OnlyMoves(s, a, StepMigrate(s, a, p))
  {
  }

  lemma MetadataOnlyMoves(s: State, a: Actor, p: Proc)
    requires p.Busy? && a in s.procs && p == s.procs[a] && p.stage in {ReadLease, ReadVersion}
    ensures OnlyMoves(s, a, StepMetadata(s, a, p))
  {
  }

  lemma ValidateOnlyMoves(s: State, a: Actor, p: Proc)
    requires p.Busy? && a in s.procs && p == s.procs[a] && p.stage in {Open, Stat, Read}
    requires p.stage != Open ==> p.fd in s.files
    ensures OnlyMoves(s, a, StepValidate(s, a, p))
  {
  }

  lemma LockedOnlyMoves(s: State, a: Actor, p: Proc)
    requires p.Busy? && a in s.procs && p == s.procs[a] && p.stage in {Lock, LookAgain, Commit, Release}
    ensures OnlyMoves(s, a, StepLocked(s, a, p))
  {
  }

  lemma CreationPreserves(s: State, a: Actor, p: Proc, spare: Inode, chunk: nat)
    requires Inv(s) && a in s.procs && p == s.procs[a] && p.Busy? && p.call != Migrate
    requires p.stage in {Create, Write, VerifyCreated} && (p.stage != Create ==> p.fd in s.files)
    ensures Preserves(s, StepCreate(s, a, p, spare, chunk))
  {
  }

  lemma StepPreserves(s: State, a: Actor, spare: Inode, chunk: nat)
    requires Inv(s) && a in s.procs && s.procs[a].Busy?
    ensures Preserves(s, Step(s, a, spare, chunk))
  {
    var p := s.procs[a];
    if p.call != Migrate && p.stage in {Create, Write, VerifyCreated} {
      CreationPreserves(s, a, p, spare, chunk);
    } else {
      if p.call == Migrate {
        MigrateOnlyMoves(s, a, p);
      } else if p.stage in {ReadLease, ReadVersion} {
        MetadataOnlyMoves(s, a, p);
      } else if p.stage in {Open, Stat, Read} {
        if p.stage == Open || p.fd in s.files {
          ValidateOnlyMoves(s, a, p);
        }
      } else if p.stage != LookPath {
        LockedOnlyMoves(s, a, p);
      }
      MovePreserves(s, a, Step(s, a, spare, chunk));
    }
  }

  lemma ApplyPreserves(s: State, e: Event)
    requires Inv(s) && Quiet(e)
    ensures Preserves(s, Apply(s, e))
  {
    if e.Advance? && e.actor in s.procs && s.procs[e.actor].Busy? {
      StepPreserves(s, e.actor, e.spare, e.chunk);
    }
  }

  /** An artifact that no running installer is still writing is left exactly as it is, in
      place, by every later call and crash: an installer finalises it or refuses. */
  lemma {:induction false} ArtifactIsNeverReplaced(s: State, events: seq<Event>)
    requires Inv(s) && AllQuiet(events)
    ensures s.path != Absent ==> Run(s, events).path == s.path
    ensures s.path.Named? && Unwritten(s, s.path.inode) ==>
      s.path.inode in Run(s, events).files && Run(s, events).files[s.path.inode] == s.files[s.path.inode]
    decreases |events|
  {
    if events != [] {
      ApplyKeeps(s, events[0]);
      ApplyPreserves(s, events[0]);
      ArtifactIsNeverReplaced(Apply(s, events[0]), events[1..]);
    }
  }
}
