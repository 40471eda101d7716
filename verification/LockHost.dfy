/** The lock functions as a caller runs them (spikes/d17-provisional-lock.py), one call at a
    time over the path, the files, the lease table and the kernel locks. Each is proved to do
    what its system calls do when nobody else moves. */
module LockHost {
  import opened Bytes
  import opened StableLock
  import opened LockSafety

  predicate Installable(s: State, host: Bytes) {
    && s.version == 14 && host in s.leases
    && s.leases[host].phase == Pending && s.leases[host].inode.None?
    && ExpectedContent(host, s.leases[host].generation).Some?
  }

  /** The named artifact holds exactly the content of the host's lease, and nobody locks it. */
  predicate Usable(s: State, host: Bytes, inode: Inode)
    requires host in s.leases
  {
    && s.path == Named(inode) && inode in s.files && inode !in s.locks
    && Exact(s.files[inode], host, s.leases[host].generation)
  }

  function MakeReady(s: State, host: Bytes, inode: Inode): State
    requires host in s.leases
  {
    s.(leases := s.leases[host := Lease(s.leases[host].generation, Ready, Some(inode))])
  }

  function NewArtifact(s: State, host: Bytes, spare: Inode): State
    requires Installable(s, host)
  {
    var content := ExpectedContent(host, s.leases[host].generation).value;
    s.(path := Named(spare), files := s.files[spare := File(true, true, content)])
  }

  /** An installer that runs alone: it creates and finalises a missing artifact, finalises an
      exact one, and otherwise leaves everything as it was. */
  function Installed(s: State, host: Bytes, spare: Inode): State {
    if !Installable(s, host) then s
    else if s.path == Absent then
      if spare in s.files then s else MakeReady(NewArtifact(s, host, spare), host, spare)
    else if s.path.Named? && Usable(s, host, s.path.inode) then MakeReady(s, host, s.path.inode)
    else s
  }

  /** The lease is granted exactly when the ready row names the usable artifact at the path. */
  predicate Acquirable(s: State, host: Bytes) {
    && s.version == 14 && host in s.leases
    && s.leases[host].phase == Ready && s.leases[host].inode.Some?
    && Usable(s, host, s.leases[host].inode.value)
  }

  function Migrated(s: State, host: Bytes, generation: int): State {
    if s.path == Absent && s.version == 13 && host !in s.leases then
      s.(version := 14, leases := s.leases[host := Lease(generation, Pending, None)])
    else s
  }

  class Host {
    var path: Entry
    var files: map<Inode, File>
    var version: int
    var leases: map<Bytes, Lease>
    var locks: map<Inode, Actor>

    ghost function View(): State
      reads this
    {
      State(path, files, version, leases, locks, map[])
    }

    method MigrateSchema14(host: Bytes, generation: int) returns (ok: bool)
      modifies this
      ensures View() == Migrated(old(View()), host, generation)
      ensures ok <==> old(path == Absent && version == 13 && host !in leases)
    {
      if path != Absent { return false; }
      if version != 13 || host in leases { return false; }
      version := 14;
      leases := leases[host := Lease(generation, Pending, None)];
      return true;
    }

    /** Creates the artifact exclusively and writes it out, however short each write is. */
    method CreateLock(expected: Bytes, spare: Inode) returns (ok: bool)
      requires spare !in files
      modifies this`path, this`files
      ensures ok <==> old(path) == Absent
      ensures path == if ok then Named(spare) else old(path)
      ensures files == if ok then old(files)[spare := File(true, true, expected)] else old(files)
    {
      if path != Absent { return false; }
      path := Named(spare);
      files := files[spare := File(true, true, [])];
      var written := 0;
      while written < |expected|
        invariant 0 <= written <= |expected|
        invariant path == Named(spare)
        invariant files == old(files)[spare := File(true, true, expected[..written])]
      {
        var chunk :| 1 <= chunk <= |expected| - written;
        var content := WriteAt(files[spare].content, written, expected[written..written + chunk]);
        files := files[spare := File(true, true, content)];
        assert content == expected[..written + chunk];
        written := written + chunk;
      }
      assert expected[..written] == expected;
      return true;
    }

    method OpenValidated(host: Bytes, generation: int) returns (fd: Option<Inode>)
      ensures fd.Some? <==> path.Named? && path.inode in files && Exact(files[path.inode], host, generation)
      ensures fd.Some? ==> path == Named(fd.value)
    {
      if !path.Named? || path.inode !in files { return None; }
      var file := files[path.inode];
      if !file.regular || !file.isPrivate { return None; }
      if Some(file.content) != ExpectedContent(host, generation) { return None; }
      return Some(path.inode);
    }

    method InstallPending(host: Bytes, spare: Inode) returns (ok: bool)
      requires (path.Named? ==> path.inode in files) && locks.Keys <= files.Keys && spare !in files
      modifies this
      ensures View() == Installed(old(View()), host, spare)
      ensures ok <==> View() != old(View())
    {
      if host !in leases { return false; }
      var lease := leases[host];
      if version != 14 || lease.phase != Pending || lease.inode.Some? { return false; }
      var expected := ExpectedContent(host, lease.generation);
      if expected.None? { return false; }
      if path == Absent {
        var created := CreateLock(expected.value, spare);
      }
      var fd := OpenValidated(host, lease.generation);
      if fd.None? { return false; }
      if fd.value in locks { return false; }
      locks := locks[fd.value := 0];
      var named := path == Named(fd.value);
      var latest := leases[host];
      if named && latest == lease {
        leases := leases[host := Lease(lease.generation, Ready, fd)];
        ok := true;
      }
      locks := locks - {fd.value};
      assert locks == old(locks);
    }

    method AcquireReady(host: Bytes, actor: Actor) returns (fd: Option<Inode>)
      modifies this`locks
      ensures fd.Some? <==> old(Acquirable(View(), host))
      ensures fd.Some? ==> fd == leases[host].inode && locks == old(locks)[fd.value := actor]
      ensures fd.None? ==> locks == old(locks)
    {
      if host !in leases { return None; }
      var lease := leases[host];
      if version != 14 || lease.phase != Ready || lease.inode.None? { return None; }
      if ExpectedContent(host, lease.generation).None? { return None; }
      fd := OpenValidated(host, lease.generation);
      if fd.None? || fd != lease.inode || fd.value in locks { return None; }
      // Nobody moved, so the path still names the inode that was opened.
      locks := locks[fd.value := actor];
    }
  }

  // The same calls as runs of system calls

  /** The size of the next write, and the sizes left for later ones; other calls take none. */
  function NextSize(p: Proc, sizes: seq<nat>): nat {
    if p.Busy? && p.stage == Write && sizes != [] then sizes[0] else 0
  }

  function LaterSizes(p: Proc, sizes: seq<nat>): seq<nat> {
    if p.Busy? && p.stage == Write && sizes != [] then sizes[1..] else sizes
  }

  /** n system calls of one actor, nobody else moving, its writes being as short as the sizes say. */
  function Steps(s: State, a: Actor, spare: Inode, sizes: seq<nat>, n: nat): State
    decreases n
  {
    if n == 0 || a !in s.procs then s
    else Steps(Apply(s, Advance(a, spare, NextSize(s.procs[a], sizes))), a, spare, LaterSizes(s.procs[a], sizes), n - 1)
  }

  /** Some number of its own system calls takes actor a from s to t. */
  ghost predicate Leads(s: State, a: Actor, spare: Inode, sizes: seq<nat>, t: State) {
    exists n: nat :: Steps(s, a, spare, sizes, n) == t
  }

  function Sum(sizes: seq<nat>): nat {
    if sizes == [] then 0 else sizes[0] + Sum(sizes[1..])
  }

  /** One way to write a number of bytes: so many writes, each of at least a byte. */
  predicate Cuts(sizes: seq<nat>, total: nat) {
    Sum(sizes) == total && forall i :: 0 <= i < |sizes| ==> sizes[i] > 0
  }

  lemma Here(s: State, a: Actor, spare: Inode, sizes: seq<nat>)
    ensures Leads(s, a, spare, sizes, s)
  {
    assert Steps(s, a, spare, sizes, 0) == s;
  }

  lemma After(s: State, a: Actor, p: Proc, spare: Inode, sizes: seq<nat>, t: State)
    requires p.Busy? && (p.stage == Write ==> sizes == [])
    requires Leads(Step(Go(s, a, p), a, spare, 0), a, spare, sizes, t)
    ensures Leads(Go(s, a, p), a, spare, sizes, t)
  {
    var n: nat :| Steps(Step(Go(s, a, p), a, spare, 0), a, spare, sizes, n) == t;
    assert Steps(Go(s, a, p), a, spare, sizes, n + 1) == t;
  }

  /** Actor a has no call in progress and no lock. */
  predicate Resting(s: State, a: Actor) {
    a !in s.procs && forall i :: i in s.locks ==> s.locks[i] != a
  }

  lemma Moved(s: State, a: Actor, p: Proc, q: Proc)
    ensures Go(Go(s, a, p), a, q) == Go(s, a, q)
  {
    assert s.procs[a := p][a := q] == s.procs[a := q];
  }

  /** A refused call leaves the state it started from. */
  lemma Refused(s: State, a: Actor, p: Proc, spare: Inode, sizes: seq<nat>)
    requires Resting(s, a) && p.Busy? && p.stage != Write && Step(Go(s, a, p), a, spare, 0) == Close(Go(s, a, p), a)
    ensures Leads(Go(s, a, p), a, spare, sizes, s)
  {
    assert s.procs[a := p] - {a} == s.procs;
    assert Close(Go(s, a, p), a) == s;
    Here(s, a, spare, sizes);
    After(s, a, p, spare, sizes, s);
  }

  /** A call that moves on from p to q. */
  lemma Moves(s: State, a: Actor, p: Proc, q: Proc, spare: Inode, sizes: seq<nat>, t: State)
    requires p.Busy? && (p.stage == Write ==> sizes == []) && Step(Go(s, a, p), a, spare, 0) == Go(Go(s, a, p), a, q)
    requires Leads(Go(s, a, q), a, spare, sizes, t)
    ensures Leads(Go(s, a, p), a, spare, sizes, t)
  {
    Moved(s, a, p, q);
    After(s, a, p, spare, sizes, t);
  }

  /** What an installer that has opened nothing yet comes to. */
  function Finalised(s: State, host: Bytes): State
    requires host in s.leases
  {
    if s.path.Named? && Usable(s, host, s.path.inode) then MakeReady(s, host, s.path.inode) else s
  }

  lemma FinaliseAlone(s: State, a: Actor, p: Proc, spare: Inode, sizes: seq<nat>)
    requires Resting(s, a) && p.Busy? && p.call == Install && p.stage == Open
    requires Installable(s, p.host) && p.lease == s.leases[p.host]
    requires s.path.Named? ==> s.path.inode in s.files
    ensures Leads(Go(s, a, p), a, spare, sizes, Finalised(s, p.host))
  {
    if !s.path.Named? {
      Refused(s, a, p, spare, sizes);
    } else {
      var q := p.(stage := Stat, fd := s.path.inode);
      if ValidatesAlone(s, q) {
        CommitAlone(s, a, q.(stage := Lock), spare, sizes);
      }
      ValidateAlone(s, a, q, spare, sizes, Finalised(s, p.host));
      Moves(s, a, p, q, spare, sizes, Finalised(s, p.host));
    }
  }

  predicate ValidatesAlone(s: State, p: Proc)
    requires p.Busy? && p.fd in s.files
  {
    Exact(s.files[p.fd], p.host, p.lease.generation) && (p.call == Acquire ==> Some(p.fd) == p.lease.inode)
  }

  /** Stat and read of an open artifact. */
  lemma ValidateAlone(s: State, a: Actor, p: Proc, spare: Inode, sizes: seq<nat>, t: State)
    requires Resting(s, a) && p.Busy? && p.call != Migrate && p.stage == Stat && p.fd in s.files
    requires if ValidatesAlone(s, p) then Leads(Go(s, a, p.(stage := Lock)), a, spare, sizes, t) else t == s
    ensures Leads(Go(s, a, p), a, spare, sizes, t)
  {
    if s.files[p.fd].regular && s.files[p.fd].isPrivate {
      var q := p.(stage := Read);
      if ValidatesAlone(s, p) {
        assert q.(stage := Lock) == p.(stage := Lock);
        Moves(s, a, q, q.(stage := Lock), spare, sizes, t);
      } else {
        Refused(s, a, q, spare, sizes);
      }
      Moves(s, a, p, q, spare, sizes, t);
    } else {
      Refused(s, a, p, spare, sizes);
    }
  }

  /** Lock, path check, commit and release of a validated artifact. */
  lemma CommitAlone(s: State, a: Actor, p: Proc, spare: Inode, sizes: seq<nat>)
    requires Resting(s, a) && p.Busy? && p.call == Install && p.stage == Lock
    requires Installable(s, p.host) && p.lease == s.leases[p.host]
    requires s.path == Named(p.fd) && p.fd in s.files && Exact(s.files[p.fd], p.host, p.lease.generation)
    ensures Leads(Go(s, a, p), a, spare, sizes, Finalised(s, p.host))
  {
    if p.fd in s.locks {
      Refused(s, a, p, spare, sizes);
    } else {
      var held := s.(locks := s.locks[p.fd := a]);
      var look := p.(stage := LookAgain);
      CommitStep(s, a, p.(stage := Commit), spare, sizes);
      Moves(held, a, look, p.(stage := Commit), spare, sizes, MakeReady(s, p.host, p.fd));
      assert Step(Go(s, a, p), a, spare, 0) == Go(Go(held, a, p), a, look);
      Moved(held, a, p, look);
      After(s, a, p, spare, sizes, MakeReady(s, p.host, p.fd));
    }
  }

  lemma CommitStep(s: State, a: Actor, p: Proc, spare: Inode, sizes: seq<nat>)
    requires Resting(s, a) && p.Busy? && p.call == Install && p.stage == Commit
    requires Installable(s, p.host) && p.lease == s.leases[p.host] && p.fd !in s.locks
    ensures Leads(Go(s.(locks := s.locks[p.fd := a]), a, p), a, spare, sizes, MakeReady(s, p.host, p.fd))
  {
    var held := s.(locks := s.locks[p.fd := a]);
    var release := p.(stage := Release);
    var done := MakeReady(held, p.host, p.fd);
    ReleaseAlone(s, a, release, spare, sizes);
    assert Step(Go(held, a, p), a, spare, 0) == Go(Go(done, a, p), a, release);
    Moved(done, a, p, release);
    After(held, a, p, spare, sizes, MakeReady(s, p.host, p.fd));
  }

  lemma ReleaseAlone(s: State, a: Actor, p: Proc, spare: Inode, sizes: seq<nat>)
    requires Resting(s, a) && p.Busy? && p.call == Install && p.stage == Release
    requires p.host in s.leases && p.fd !in s.locks
    ensures var held := s.(locks := s.locks[p.fd := a]);
      Leads(Go(MakeReady(held, p.host, p.fd), a, p), a, spare, sizes, MakeReady(s, p.host, p.fd))
  {
    var done := MakeReady(s.(locks := s.locks[p.fd := a]), p.host, p.fd);
    assert s.procs[a := p] - {a} == s.procs;
    assert Close(Go(done, a, p), a).locks == s.locks;
    assert Step(Go(done, a, p), a, spare, 0) == MakeReady(s, p.host, p.fd);
    Here(MakeReady(s, p.host, p.fd), a, spare, sizes);
    After(done, a, p, spare, sizes, MakeReady(s, p.host, p.fd));
  }

  /** Creating a missing artifact, writing it out in any number of writes and verifying it. */
  lemma CreateAlone(s: State, a: Actor, p: Proc, spare: Inode, sizes: seq<nat>, t: State)
    requires Resting(s, a) && p.Busy? && p.call == Install && p.stage == Create
    requires Installable(s, p.host) && p.lease == s.leases[p.host] && s.path == Absent && spare !in s.files
    requires var total := |ExpectedContent(p.host, p.lease.generation).value|;
      && Cuts(sizes, total)
      && Leads(Go(NewArtifact(s, p.host, spare), a, p.(stage := Open, fd := spare, written := total)), a, spare, [], t)
    ensures Leads(Go(s, a, p), a, spare, sizes, t)
  {
    var content := ExpectedContent(p.host, p.lease.generation).value;
    var empty := Partial(s, spare, []);
    var p1 := p.(stage := Write, fd := spare, written := 0);
    assert content[..0] == [];
    WriteAlone(s, a, p1, spare, content, sizes, t);
    assert Step(Go(s, a, p), a, spare, 0) == Go(Go(empty, a, p), a, p1);
    Moved(empty, a, p, p1);
    After(s, a, p, spare, sizes, t);
  }

  /** The artifact as far as it has been written. */
  function Partial(s: State, spare: Inode, written: Bytes): State {
    s.(path := Named(spare), files := s.files[spare := File(true, true, written)])
  }

  lemma {:induction false} SumOfParts(sizes: seq<nat>)
    requires forall i :: 0 <= i < |sizes| ==> sizes[i] > 0
    ensures sizes != [] ==> 0 < sizes[0] <= Sum(sizes)
    ensures sizes == [] <==> Sum(sizes) == 0
  {
  }

  /** The writes of an artifact, however short each of them is, and its verification. */
  lemma {:induction false} WriteAlone(s: State, a: Actor, p: Proc, spare: Inode, content: Bytes, sizes: seq<nat>, t: State)
    requires p.Busy? && p.call == Install && p.stage == Write && p.fd == spare && p.written <= |content|
    requires Installable(s, p.host) && p.lease == s.leases[p.host]
    requires Some(content) == ExpectedContent(p.host, p.lease.generation) && Cuts(sizes, |content| - p.written)
    requires Leads(Go(NewArtifact(s, p.host, spare), a, p.(stage := Open, written := |content|)), a, spare, [], t)
    ensures Leads(Go(Partial(s, spare, content[..p.written]), a, p), a, spare, sizes, t)
    decreases |sizes|
  {
    var now := Partial(s, spare, content[..p.written]);
    SumOfParts(sizes);
    if sizes == [] {
      assert content[..p.written] == content && now == NewArtifact(s, p.host, spare);
      VerifyAlone(now, a, p, spare, t);
    } else {
      var q := p.(written := p.written + sizes[0]);
      WriteStep(s, a, p, spare, content, sizes[0]);
      WriteAlone(s, a, q, spare, content, sizes[1..], t);
      AfterWrite(now, a, p, spare, sizes, t);
    }
  }

  /** The artifact is written out: the installer reads it back and goes on to open it. */
  lemma VerifyAlone(s: State, a: Actor, p: Proc, spare: Inode, t: State)
    requires p.Busy? && p.call == Install && p.stage == Write && p.fd in s.files
    requires Exact(s.files[p.fd], p.host, p.lease.generation)
    requires p.written == |ExpectedContent(p.host, p.lease.generation).value|
    requires Leads(Go(s, a, p.(stage := Open)), a, spare, [], t)
    ensures Leads(Go(s, a, p), a, spare, [], t)
  {
    var q := p.(stage := VerifyCreated);
    assert q.(stage := Open) == p.(stage := Open);
    Moves(s, a, q, q.(stage := Open), spare, [], t);
    Moves(s, a, p, q, spare, [], t);
  }

  lemma AfterWrite(s: State, a: Actor, p: Proc, spare: Inode, sizes: seq<nat>, t: State)
    requires p.Busy? && p.stage == Write && sizes != []
    requires Leads(Step(Go(s, a, p), a, spare, sizes[0]), a, spare, sizes[1..], t)
    ensures Leads(Go(s, a, p), a, spare, sizes, t)
  {
    var n: nat :| Steps(Step(Go(s, a, p), a, spare, sizes[0]), a, spare, sizes[1..], n) == t;
    assert Steps(Go(s, a, p), a, spare, sizes, n + 1) == t;
  }

  /** One write appends its bytes. */
  lemma WriteStep(s: State, a: Actor, p: Proc, spare: Inode, content: Bytes, size: nat)
    requires p.Busy? && p.call == Install && p.stage == Write && p.fd == spare
    requires 0 < size && p.written + size <= |content|
    requires Some(content) == ExpectedContent(p.host, p.lease.generation)
    ensures Step(Go(Partial(s, spare, content[..p.written]), a, p), a, spare, size)
         == Go(Partial(s, spare, content[..p.written + size]), a, p.(written := p.written + size))
  {
    var before, after := content[..p.written], content[..p.written + size];
    assert WriteAt(before, p.written, content[p.written..p.written + size]) == after;
    assert s.files[spare := File(true, true, before)][spare := File(true, true, after)]
        == s.files[spare := File(true, true, after)];
    Moved(Partial(s, spare, after), a, p, p.(written := p.written + size));
  }

  /** Reading the metadata: three calls bring an installer to create or open, or refuse. */
  lemma MetadataAlone(s: State, a: Actor, p: Proc, spare: Inode, sizes: seq<nat>, t: State)
    requires Resting(s, a) && p.Busy? && p.call == Install && p.stage == ReadLease
    requires if Installable(s, p.host)
             then Leads(Go(s, a, p.(stage := if s.path == Absent then Create else Open, lease := s.leases[p.host])),
                        a, spare, sizes, t)
             else t == s
    ensures Leads(Go(s, a, p), a, spare, sizes, t)
  {
    if p.host !in s.leases {
      Refused(s, a, p, spare, sizes);
    } else {
      var q := p.(stage := ReadVersion, lease := s.leases[p.host]);
      if Installable(s, p.host) {
        var r := q.(stage := LookPath);
        Moves(s, a, r, r.(stage := if s.path == Absent then Create else Open), spare, sizes, t);
        Moves(s, a, q, r, spare, sizes, t);
      } else {
        Refused(s, a, q, spare, sizes);
      }
      Moves(s, a, p, q, spare, sizes, t);
    }
  }

  /** From any reachable state, whatever crash left it behind: rerunning install_pending
      finalises a missing or exact artifact, and otherwise changes nothing at all. A missing one
      may be written in any number of writes of any size. */
  lemma RerunFinalisesOrRefuses(s: State, a: Actor, host: Bytes, spare: Inode, sizes: seq<nat>)
    requires Inv(s) && a !in s.procs && spare !in s.files
    requires Installable(s, host) && s.path == Absent ==> Cuts(sizes, |ExpectedContent(host, s.leases[host].generation).value|)
    ensures Leads(Apply(s, Start(a, Install, host, 0)), a, spare, sizes, Installed(s, host, spare))
  {
    OwnsNoLock(s, a);
    var p := Busy(Install, ReadLease, host, Lease(0, Pending, None), 0, 0);
    if Installable(s, host) {
      var q := p.(lease := s.leases[host]);
      if s.path == Absent {
        InstallMissing(s, a, q.(stage := Create), spare, sizes);
      } else {
        FinaliseAlone(s, a, q.(stage := Open), spare, sizes);
      }
    }
    MetadataAlone(s, a, p, spare, sizes, Installed(s, host, spare));
  }

  lemma InstallMissing(s: State, a: Actor, p: Proc, spare: Inode, sizes: seq<nat>)
    requires Resting(s, a) && p.Busy? && p.call == Install && p.stage == Create
    requires Installable(s, p.host) && p.lease == s.leases[p.host] && s.path == Absent && spare !in s.files
    requires spare !in s.locks && Cuts(sizes, |ExpectedContent(p.host, p.lease.generation).value|)
    ensures Leads(Go(s, a, p), a, spare, sizes, MakeReady(NewArtifact(s, p.host, spare), p.host, spare))
  {
    var full := NewArtifact(s, p.host, spare);
    var total := |ExpectedContent(p.host, p.lease.generation).value|;
    FinaliseAlone(full, a, p.(stage := Open, fd := spare, written := total), spare, []);
    CreateAlone(s, a, p, spare, sizes, MakeReady(full, p.host, spare));
  }

  /** What an actor alone obtains: the lease exactly when it is acquirable. */
  function Acquired(s: State, a: Actor, host: Bytes): State {
    if Acquirable(s, host) then
      Go(s.(locks := s.locks[s.leases[host].inode.value := a]), a, Holding(host, s.leases[host].inode.value))
    else s
  }

  lemma AcquireAlone(s: State, a: Actor, host: Bytes, spare: Inode)
    requires Inv(s) && a !in s.procs
    ensures Leads(Apply(s, Start(a, Acquire, host, 0)), a, spare, [], Acquired(s, a, host))
  {
    OwnsNoLock(s, a);
    var p := Busy(Acquire, ReadLease, host, Lease(0, Pending, None), 0, 0);
    if host !in s.leases {
      Refused(s, a, p, spare, []);
    } else {
      JudgeAlone(s, a, p.(stage := ReadVersion, lease := s.leases[host]), spare);
      Moves(s, a, p, p.(stage := ReadVersion, lease := s.leases[host]), spare, [], Acquired(s, a, host));
    }
  }

  lemma JudgeAlone(s: State, a: Actor, p: Proc, spare: Inode)
    requires Resting(s, a) && p.Busy? && p.call == Acquire && p.stage == ReadVersion
    requires p.host in s.leases && p.lease == s.leases[p.host]
    requires s.path.Named? ==> s.path.inode in s.files
    ensures Leads(Go(s, a, p), a, spare, [], Acquired(s, a, p.host))
  {
    if s.version != 14 || ExpectedContent(p.host, p.lease.generation).None? || p.lease.phase != Ready || p.lease.inode.None? {
      Refused(s, a, p, spare, []);
    } else {
      var open := p.(stage := Open);
      if s.path.Named? {
        var q := p.(stage := Stat, fd := s.path.inode);
        if ValidatesAlone(s, q) {
          HoldAlone(s, a, q.(stage := Lock), spare);
        }
        ValidateAlone(s, a, q, spare, [], Acquired(s, a, p.host));
        Moves(s, a, open, q, spare, [], Acquired(s, a, p.host));
      } else {
        Refused(s, a, open, spare, []);
      }
      Moves(s, a, p, open, spare, [], Acquired(s, a, p.host));
    }
  }

  lemma HoldAlone(s: State, a: Actor, p: Proc, spare: Inode)
    requires Resting(s, a) && p.Busy? && p.call == Acquire && p.stage == Lock
    requires s.path == Named(p.fd) && p.fd in s.files && s.files[p.fd].regular
    ensures Leads(Go(s, a, p), a, spare, [],
                  if p.fd in s.locks then s else Go(s.(locks := s.locks[p.fd := a]), a, Holding(p.host, p.fd)))
  {
    if p.fd in s.locks {
      Refused(s, a, p, spare, []);
    } else {
      var held := s.(locks := s.locks[p.fd := a]);
      var look, hold := p.(stage := LookAgain), Holding(p.host, p.fd);
      Here(Go(held, a, hold), a, spare, []);
      Moves(held, a, look, hold, spare, [], Go(held, a, hold));
      assert Step(Go(s, a, p), a, spare, 0) == Go(Go(held, a, p), a, look);
      Moved(held, a, p, look);
      After(s, a, p, spare, [], Go(held, a, hold));
    }
  }
}
