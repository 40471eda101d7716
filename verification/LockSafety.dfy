/** What every run of the stable lock keeps: one ready lease at a time, metadata that becomes
    ready once and never changes, and, without an adversary, an artifact that is never replaced. */
module LockSafety {
  import opened Bytes
  import opened StableLock

  // The elementary changes a system call is made of

  lemma CloseKeeps(s: State, a: Actor)
    requires Inv(s)
    ensures Inv(Close(s, a))
  {
  }

  /** What the kernel and the database must already say before an actor may move on to p. */
  predicate MayBecome(s: State, a: Actor, p: Proc) {
    && Remembers(s, p)
    && (HasDescriptor(p) ==> p.fd in s.files)
    && (HasLock(p) ==> p.fd in s.locks && s.locks[p.fd] == a)
    && (forall i :: i in s.locks && s.locks[i] == a ==> HasLock(p) && p.fd == i)
  }

  lemma GoKeeps(s: State, a: Actor, p: Proc)
    requires Inv(s) && MayBecome(s, a, p)
    ensures Inv(Go(s, a, p))
  {
    var t := Go(s, a, p);
    assert Kernel(t);
    forall b | b in t.procs ensures Remembers(t, t.procs[b]) {
      assert b != a ==> Remembers(s, s.procs[b]);
    }
  }

  lemma FilesKeep(s: State, path: Entry, files: map<Inode, File>)
    requires Inv(s) && s.files.Keys <= files.Keys && (path.Named? ==> path.inode in files)
    ensures Inv(s.(path := path, files := files))
  {
    var t := s.(path := path, files := files);
    forall b | b in t.procs ensures Remembers(t, t.procs[b]) {
      assert Remembers(s, s.procs[b]);
    }
  }

  lemma LeasesKeep(s: State, version: int, leases: map<Bytes, Lease>)
    requires Inv(s) && Extends(s.leases, leases)
    requires Database(s.(version := version, leases := leases))
    ensures Inv(s.(version := version, leases := leases))
  {
    var t := s.(version := version, leases := leases);
    forall b | b in t.procs ensures Remembers(t, t.procs[b]) {
      assert Remembers(s, s.procs[b]);
    }
  }

  /** Locking a free inode through one's own descriptor. */
  lemma LockKeeps(s: State, a: Actor, p: Proc)
    requires Inv(s) && a in s.procs && s.procs[a].Busy? && s.procs[a].call != Migrate && s.procs[a].stage == Lock
    requires p == s.procs[a].(stage := LookAgain) && p.fd !in s.locks
    ensures Inv(Go(s.(locks := s.locks[p.fd := a]), a, p))
  {
    var t := Go(s.(locks := s.locks[p.fd := a]), a, p);
    assert forall i :: i in s.locks ==> s.locks[i] != a;
    assert Kernel(t);
    forall b | b in t.procs ensures Remembers(t, t.procs[b]) {
      assert Remembers(s, s.procs[b]);
    }
  }

  /** An actor without a lock owns none. */
  lemma OwnsNoLock(s: State, a: Actor)
    requires Inv(s) && (a in s.procs ==> !HasLock(s.procs[a]))
    ensures forall i :: i in s.locks ==> s.locks[i] != a
  {
  }

  // Every system call keeps the invariant

  lemma MigrateKeeps(s: State, a: Actor)
    requires Inv(s) && a in s.procs && s.procs[a].Busy? && s.procs[a].call == Migrate
    ensures Inv(StepMigrate(s, a, s.procs[a]))
  {
    var p := s.procs[a];
    CloseKeeps(s, a);
    OwnsNoLock(s, a);
    assert Remembers(s, p);
    if p.stage == LookPath {
      GoKeeps(s, a, p.(stage := Commit));
    } else if s.version == 13 && p.host !in s.leases {
      var leases := s.leases[p.host := Lease(p.lease.generation, Pending, None)];
      LeasesKeep(s, 14, leases);
      CloseKeeps(s.(version := 14, leases := leases), a);
    }
  }

  lemma MetadataKeeps(s: State, a: Actor)
    requires Inv(s) && a in s.procs && s.procs[a].Busy? && s.procs[a].call != Migrate
    requires s.procs[a].stage in {ReadLease, ReadVersion}
    ensures Inv(StepMetadata(s, a, s.procs[a]))
  {
    var p := s.procs[a];
    CloseKeeps(s, a);
    OwnsNoLock(s, a);
    assert Remembers(s, p);
    if p.stage == ReadLease {
      if p.host in s.leases {
        GoKeeps(s, a, p.(stage := ReadVersion, lease := s.leases[p.host]));
      }
    } else if p.call == Acquire {
      if p.lease.phase == Ready {
        GoKeeps(s, a, p.(stage := Open));
      }
    } else {
      GoKeeps(s, a, p.(stage := LookPath));
    }
  }

  lemma CreateFileKeeps(s: State, a: Actor, p: Proc, spare: Inode)
    requires Inv(s) && a in s.procs && p == s.procs[a] && p.Busy? && p.call != Migrate && p.stage == Create
    requires s.path == Absent && spare !in s.files
    ensures Inv(Go(s.(path := Named(spare), files := s.files[spare := File(true, true, [])]), a,
                   p.(stage := Write, fd := spare, written := 0)))
  {
    OwnsNoLock(s, a);
    assert Remembers(s, p);
    var t := s.(path := Named(spare), files := s.files[spare := File(true, true, [])]);
    FilesKeep(s, t.path, t.files);
    GoKeeps(t, a, p.(stage := Write, fd := spare, written := 0));
  }

  lemma WriteKeeps(s: State, a: Actor, p: Proc, file: File, written: nat)
    requires Inv(s) && a in s.procs && p == s.procs[a] && p.Busy? && p.call != Migrate && p.stage == Write
    ensures Inv(Go(s.(files := s.files[p.fd := file]), a, p.(written := written)))
  {
    OwnsNoLock(s, a);
    assert Remembers(s, p);
    FilesKeep(s, s.path, s.files[p.fd := file]);
    GoKeeps(s.(files := s.files[p.fd := file]), a, p.(written := written));
  }

  lemma CreateStageKeeps(s: State, a: Actor, p: Proc, spare: Inode, chunk: nat)
    requires Inv(s) && a in s.procs && p == s.procs[a] && p.Busy? && p.call != Migrate && p.stage == Create
    ensures Inv(StepCreate(s, a, p, spare, chunk))
  {
    CloseKeeps(s, a);
    if s.path == Absent && spare !in s.files {
      CreateFileKeeps(s, a, p, spare);
    }
  }

  lemma WriteStageKeeps(s: State, a: Actor, p: Proc, spare: Inode, chunk: nat)
    requires Inv(s) && a in s.procs && p == s.procs[a] && p.Busy? && p.call != Migrate && p.stage == Write
    ensures Inv(StepCreate(s, a, p, spare, chunk))
  {
    CloseKeeps(s, a);
    var expected := ExpectedContent(p.host, p.lease.generation);
    if expected.Some? {
      if p.written >= |expected.value| {
        MoveOnKeeps(s, a, p, VerifyCreated);
      } else if chunk != 0 && p.written + chunk <= |expected.value| {
        var content := WriteAt(s.files[p.fd].content, p.written, expected.value[p.written..p.written + chunk]);
        WriteKeeps(s, a, p, s.files[p.fd].(content := content), p.written + chunk);
      }
    }
  }

  lemma VerifyStageKeeps(s: State, a: Actor, p: Proc, spare: Inode, chunk: nat)
    requires Inv(s) && a in s.procs && p == s.procs[a] && p.Busy? && p.call != Migrate && p.stage == VerifyCreated
    ensures Inv(StepCreate(s, a, p, spare, chunk))
  {
    CloseKeeps(s, a);
    MoveOnKeeps(s, a, p, Open);
  }

  /** An installer that has created the artifact goes on to its next stage. */
  lemma MoveOnKeeps(s: State, a: Actor, p: Proc, stage: Stage)
    requires Inv(s) && a in s.procs && p == s.procs[a] && p.Busy? && p.call != Migrate
    requires (p.stage == Write && stage == VerifyCreated) || (p.stage == VerifyCreated && stage == Open)
    ensures Inv(At(s, a, p, stage))
  {
    OwnsNoLock(s, a);
    assert Remembers(s, p);
    GoKeeps(s, a, p.(stage := stage));
  }

  lemma CreateKeeps(s: State, a: Actor, spare: Inode, chunk: nat)
    requires Inv(s) && a in s.procs && s.procs[a].Busy? && s.procs[a].call != Migrate
    requires s.procs[a].stage in {Create, Write, VerifyCreated}
    ensures Inv(StepCreate(s, a, s.procs[a], spare, chunk))
  {
    var p := s.procs[a];
    match p.stage
    case Create => CreateStageKeeps(s, a, p, spare, chunk);
    case Write => WriteStageKeeps(s, a, p, spare, chunk);
    case VerifyCreated => VerifyStageKeeps(s, a, p, spare, chunk);
  }

  lemma ValidateKeeps(s: State, a: Actor)
    requires Inv(s) && a in s.procs && s.procs[a].Busy? && s.procs[a].call != Migrate
    requires s.procs[a].stage in {Open, Stat, Read}
    ensures Inv(StepValidate(s, a, s.procs[a]))
  {
    var p := s.procs[a];
    CloseKeeps(s, a);
    OwnsNoLock(s, a);
    assert Remembers(s, p);
    if p.stage == Open {
      if s.path.Named? {
        GoKeeps(s, a, p.(stage := Stat, fd := s.path.inode));
      }
    } else if p.stage == Stat {
      GoKeeps(s, a, p.(stage := Read));
    } else if p.call != Acquire || Some(p.fd) == p.lease.inode {
      GoKeeps(s, a, p.(stage := Lock));
    }
  }

  lemma LockedKeeps(s: State, a: Actor)
    requires Inv(s) && a in s.procs && s.procs[a].Busy? && s.procs[a].call != Migrate
    requires s.procs[a].stage in {Lock, LookAgain, Commit, Release}
    ensures Inv(StepLocked(s, a, s.procs[a]))
  {
    var p := s.procs[a];
    CloseKeeps(s, a);
    assert Remembers(s, p);
    if p.stage == Lock {
      if p.fd !in s.locks {
        LockKeeps(s, a, p.(stage := LookAgain));
      }
    } else if p.stage == LookAgain {
      if p.call == Acquire {
        GoKeeps(s, a, Holding(p.host, p.fd));
      } else {
        GoKeeps(s, a, p.(stage := Commit));
      }
    } else if p.stage == Commit {
      if p.host in s.leases && s.leases[p.host] == Lease(p.lease.generation, Pending, None) {
        var leases := s.leases[p.host := Lease(p.lease.generation, Ready, Some(p.fd))];
        LeasesKeep(s, s.version, leases);
        GoKeeps(s.(leases := leases), a, p.(stage := Release));
      }
    }
  }

  /** What the adversary and a new call change. */
  lemma EnvironmentKeeps(s: State, e: Event)
    requires Inv(s) && !e.Advance? && !e.Crash?
    ensures Inv(Apply(s, e))
  {
    match e
    case Start(a, call, host, generation) =>
      if a !in s.procs {
        OwnsNoLock(s, a);
        var stage := if call == Migrate then LookPath else ReadLease;
        GoKeeps(s, a, Busy(call, stage, host, Lease(generation, Pending, None), 0, 0));
      }
    case Unlink => FilesKeep(s, Absent, s.files);
    case PlantSymlink => FilesKeep(s, Symlink, s.files);
    case PlantFile(i, f) => if i !in s.files { FilesKeep(s, Named(i), s.files[i := f]); }
    case PlantLink(i) => if i in s.files { FilesKeep(s, Named(i), s.files); }
    case Tamper(i, f) => if i in s.files { FilesKeep(s, s.path, s.files[i := f]); }
    case Reclaim(i) =>
      if Reclaimable(s, i) {
        var t := s.(files := s.files - {i});
        forall b | b in t.procs ensures Remembers(t, t.procs[b]) {
          assert Remembers(s, s.procs[b]);
        }
      }
  }

  lemma AdvanceKeeps(s: State, a: Actor, spare: Inode, chunk: nat)
    requires Inv(s) && a in s.procs && s.procs[a].Busy?
    ensures Inv(Step(s, a, spare, chunk))
  {
    var p := s.procs[a];
    assert Remembers(s, p);
    if p.call == Migrate {
      MigrateKeeps(s, a);
    } else {
      match p.stage
      case ReadLease | ReadVersion => MetadataKeeps(s, a);
      case LookPath => OwnsNoLock(s, a); GoKeeps(s, a, p.(stage := if s.path == Absent then Create else Open));
      case Create | Write | VerifyCreated => CreateKeeps(s, a, spare, chunk);
      case Open | Stat | Read => ValidateKeeps(s, a);
      case Lock | LookAgain | Commit | Release => LockedKeeps(s, a);
    }
  }

  lemma ApplyKeeps(s: State, e: Event)
    requires Inv(s)
    ensures Inv(Apply(s, e))
  {
    match e
    case Advance(a, spare, chunk) =>
      if a in s.procs && s.procs[a].Busy? {
        AdvanceKeeps(s, a, spare, chunk);
      }
    case Crash(a) => CloseKeeps(s, a);
    case _ => EnvironmentKeeps(s, e);
  }

  lemma {:induction false} RunKeeps(s: State, events: seq<Event>)
    requires Inv(s)
    ensures Inv(Run(s, events))
    decreases |events|
  {
    if events != [] {
      ApplyKeeps(s, events[0]);
      RunKeeps(Apply(s, events[0]), events[1..]);
    }
  }

  /** In every run, whatever the interleaving, the crashes and the adversary's changes to the
      path and to files, at most one actor holds the ready lease, and what it locked is the
      one inode the database records. */
  lemma AtMostOneHolder(s: State, events: seq<Event>, a: Actor, b: Actor)
    requires Initial(s)
    ensures var t := Run(s, events);
      && (a in t.procs && t.procs[a].Holding? ==>
           && t.procs[a].host in t.leases
           && t.leases[t.procs[a].host].phase == Ready
           && t.leases[t.procs[a].host].inode == Some(t.procs[a].fd)
           && t.procs[a].fd in t.locks && t.locks[t.procs[a].fd] == a)
      && (a in t.procs && t.procs[a].Holding? && b in t.procs && t.procs[b].Holding? ==> a == b)
  {
    RunKeeps(s, events);
  }

  // Metadata

  /** Later metadata extends earlier metadata: rows stay, generations stay, ready rows stay whole. */
  predicate Extends(old': map<Bytes, Lease>, new': map<Bytes, Lease>) {
    forall h :: h in old' ==>
      && h in new'
      && new'[h].generation == old'[h].generation
      && (old'[h].phase == Ready ==> new'[h] == old'[h])
  }

  lemma LockedExtends(s: State, a: Actor, p: Proc)
    requires p.Busy?
    ensures Extends(s.leases, StepLocked(s, a, p).leases)
  {
  }

  lemma MetadataKeepsLeases(s: State, a: Actor, p: Proc)
    requires p.Busy?
    ensures StepMetadata(s, a, p).leases == s.leases
  {
  }

  lemma ValidateKeepsLeases(s: State, a: Actor, p: Proc)
    requires p.Busy? && (p.fd in s.files || p.stage == Open)
    ensures StepValidate(s, a, p).leases == s.leases
  {
  }

  lemma CreateKeepsLeases(s: State, a: Actor, p: Proc, spare: Inode, chunk: nat)
    requires p.Busy? && (p.fd in s.files || p.stage == Create)
    ensures StepCreate(s, a, p, spare, chunk).leases == s.leases
  {
  }

  lemma MigrateExtends(s: State, a: Actor, p: Proc)
    requires p.Busy?
    ensures Extends(s.leases, StepMigrate(s, a, p).leases)
  {
  }

  lemma StepExtends(s: State, a: Actor, spare: Inode, chunk: nat)
    requires a in s.procs && s.procs[a].Busy?
    ensures Extends(s.leases, Step(s, a, spare, chunk).leases)
  {
    var p := s.procs[a];
    if p.call == Migrate {
      MigrateExtends(s, a, p);
    } else {
      match p.stage
      case ReadLease | ReadVersion => MetadataKeepsLeases(s, a, p);
      case LookPath =>
      case Create | Write | VerifyCreated =>
        if p.stage == Create || p.fd in s.files {
          CreateKeepsLeases(s, a, p, spare, chunk);
        }
      case Open | Stat | Read =>
        if p.stage == Open || p.fd in s.files {
          ValidateKeepsLeases(s, a, p);
        }
      case Lock | LookAgain | Commit | Release => LockedExtends(s, a, p);
    }
  }

  lemma ApplyExtends(s: State, e: Event)
    ensures Extends(s.leases, Apply(s, e).leases)
  {
    if e.Advance? && e.actor in s.procs && s.procs[e.actor].Busy? {
      StepExtends(s, e.actor, e.spare, e.chunk);
    }
  }

  /** A ready row keeps its generation, device and inode in every later state of every run. */
  lemma {:induction false} MetadataIsWrittenOnce(s: State, events: seq<Event>)
    ensures Extends(s.leases, Run(s, events).leases)
    decreases |events|
  {
    if events != [] {
      var t := Apply(s, events[0]);
      ApplyExtends(s, events[0]);
      MetadataIsWrittenOnce(t, events[1..]);
    }
  }
}
