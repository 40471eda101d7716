/** The stable provisional lock (spikes/d17-provisional-lock.py): any number of actors run
    migrate_schema14, install_pending and acquire_ready one system call at a time, against
    each other, against crashes and against an adversary that owns the path. */
module StableLock {
  import opened Bytes

  /** A device and inode number. Numbers of reclaimed files may be used again. */
  type Inode = nat
  type Actor = nat

  /** An inode: whether it is a regular file, whether owner and mode are private, its bytes. */
  datatype File = File(regular: bool, isPrivate: bool, content: Bytes)

  /** What the lock path names. */
  datatype Entry = Absent | Named(inode: Inode) | Symlink

  datatype Phase = Pending | Ready

  datatype Lease = Lease(generation: int, phase: Phase, inode: Option<Inode>)

  datatype Call = Migrate | Install | Acquire

  /** The next system call of a running call. */
  datatype Stage =
    | ReadLease | ReadVersion | LookPath | Create | Write | VerifyCreated
    | Open | Stat | Read | Lock | LookAgain | Commit | Release

  /** A call in progress with its locals, or the lease it returned. Idle actors are not listed. */
  datatype Proc =
    | Busy(call: Call, stage: Stage, host: Bytes, lease: Lease, fd: Inode, written: nat)
    | Holding(host: Bytes, fd: Inode)

  datatype State = State(
    path: Entry,
    files: map<Inode, File>,
    version: int,
    leases: map<Bytes, Lease>,
    locks: map<Inode, Actor>,
    procs: map<Actor, Proc>)

  datatype Event =
    | Start(actor: Actor, call: Call, host: Bytes, generation: int)
    | Advance(actor: Actor, spare: Inode, chunk: nat)
    | Crash(actor: Actor)
    | Unlink
    | PlantSymlink
    | PlantFile(inode: Inode, file: File)
    | PlantLink(inode: Inode)
    | Tamper(inode: Inode, file: File)
    | Reclaim(inode: Inode)

  const MAX_LOCK_BYTES := 512

  // The exact content of the artifact

  const CONTENT_HEAD: Bytes := Ascii("{\"format\":\"wsnav-provisional-lock-v1\",\"host_id\":\"")
  const CONTENT_MIDDLE: Bytes := Ascii("\",\"lease_generation\":")
  const CONTENT_TAIL: Bytes := Ascii("}\n")

  predicate ValidHost(host: Bytes) {
    |host| == 32 && AllLowerHex(host)
  }

  function ContentOf(host: Bytes, generation: nat): Bytes {
    CONTENT_HEAD + host + CONTENT_MIDDLE + Decimal(generation) + CONTENT_TAIL
  }

  /** The bytes the artifact must hold; none for an invalid host or generation. */
  function ExpectedContent(host: Bytes, generation: int): Option<Bytes> {
    if !ValidHost(host) || generation <= 0 || |ContentOf(host, generation)| > MAX_LOCK_BYTES then None
    else Some(ContentOf(host, generation))
  }

  /** The content names its host and generation: equal bytes, equal lease. */
  lemma ContentDetermines(h: Bytes, g: nat, k: Bytes, n: nat)
    requires |h| == |k| && ContentOf(h, g) == ContentOf(k, n)
    ensures h == k && g == n
  {
    Unframe(CONTENT_HEAD, h, CONTENT_MIDDLE, Decimal(g), CONTENT_TAIL);
    Unframe(CONTENT_HEAD, k, CONTENT_MIDDLE, Decimal(n), CONTENT_TAIL);
    DecimalRoundTrip(g);
    DecimalRoundTrip(n);
  }

  lemma Unframe(head: Bytes, a: Bytes, middle: Bytes, b: Bytes, tail: Bytes)
    ensures var s := head + a + middle + b + tail;
      && s[|head|..|head| + |a|] == a
      && s[|head| + |a| + |middle|..|s| - |tail|] == b
  {
  }

  // Files and descriptors

  predicate Exact(f: File, host: Bytes, generation: int) {
    f.regular && f.isPrivate && Some(f.content) == ExpectedContent(host, generation)
  }

  /** A write through a descriptor at its offset, over whatever the file now holds. */
  function WriteAt(content: Bytes, offset: nat, bytes: Bytes): Bytes {
    var padded := if |content| < offset then content + seq(offset - |content|, i => 0) else content;
    padded[..offset] + bytes + (if offset + |bytes| < |padded| then padded[offset + |bytes|..] else [])
  }

  predicate HasDescriptor(p: Proc) {
    p.Holding? || (p.call != Migrate && p.stage in {Write, VerifyCreated, Stat, Read, Lock, LookAgain, Commit, Release})
  }

  predicate HasLock(p: Proc) {
    p.Holding? || (p.call != Migrate && p.stage in {LookAgain, Commit, Release})
  }

  /** The actor's call ends or dies: its descriptor closes and its kernel lock goes with it. */
  function Close(s: State, a: Actor): State {
    s.(procs := s.procs - {a}, locks := map i | i in s.locks && s.locks[i] != a :: s.locks[i])
  }

  function Go(s: State, a: Actor, p: Proc): State {
    s.(procs := s.procs[a := p])
  }

  function At(s: State, a: Actor, p: Proc, stage: Stage): State
    requires p.Busy?
  {
    Go(s, a, p.(stage := stage))
  }

  // One system call

  function StepMigrate(s: State, a: Actor, p: Proc): State
    requires p.Busy?
  {
    if p.stage == LookPath then
      if s.path == Absent then At(s, a, p, Commit) else Close(s, a)
    else if s.version != 13 || p.host in s.leases then Close(s, a)
    else Close(s.(version := 14, leases := s.leases[p.host := Lease(p.lease.generation, Pending, None)]), a)
  }

  /** Reading the lease row, then the schema version, and judging both. */
  function StepMetadata(s: State, a: Actor, p: Proc): State
    requires p.Busy?
  {
    if p.stage == ReadLease then
      if p.host in s.leases then Go(s, a, p.(stage := ReadVersion, lease := s.leases[p.host])) else Close(s, a)
    else if s.version != 14 || ExpectedContent(p.host, p.lease.generation).None? then Close(s, a)
    else if p.call == Acquire then
      if p.lease.phase == Ready && p.lease.inode.Some? then At(s, a, p, Open) else Close(s, a)
    else if p.lease.phase == Pending && p.lease.inode.None? then At(s, a, p, LookPath)
    else Close(s, a)
  }

  /** Creating the artifact exclusively and writing it, possibly a few bytes at a time. */
  function StepCreate(s: State, a: Actor, p: Proc, spare: Inode, chunk: nat): State
    requires p.Busy? && (p.stage != Create ==> p.fd in s.files)
  {
    var expected := ExpectedContent(p.host, p.lease.generation);
    if expected.None? then Close(s, a)
    else if p.stage == Create then
      if s.path != Absent || spare in s.files then Close(s, a)
      else
        Go(s.(path := Named(spare), files := s.files[spare := File(true, true, [])]), a,
           p.(stage := Write, fd := spare, written := 0))
    else if p.stage == Write then
      if p.written >= |expected.value| then At(s, a, p, VerifyCreated)
      else if chunk == 0 || p.written + chunk > |expected.value| then Close(s, a)
      else
        var bytes := expected.value[p.written..p.written + chunk];
        var file := s.files[p.fd];
        Go(s.(files := s.files[p.fd := file.(content := WriteAt(file.content, p.written, bytes))]), a,
           p.(written := p.written + chunk))
    else if Exact(s.files[p.fd], p.host, p.lease.generation) then At(s, a, p, Open)
    else Close(s, a)
  }

  /** Opening the named artifact without following links, and validating the descriptor. */
  function StepValidate(s: State, a: Actor, p: Proc): State
    requires p.Busy? && (p.stage != Open ==> p.fd in s.files)
  {
    if p.stage == Open then
      if s.path.Named? then Go(s, a, p.(stage := Stat, fd := s.path.inode)) else Close(s, a)
    else if p.stage == Stat then
      if s.files[p.fd].regular && s.files[p.fd].isPrivate then At(s, a, p, Read) else Close(s, a)
    else if Some(s.files[p.fd].content) != ExpectedContent(p.host, p.lease.generation) then Close(s, a)
    else if p.call == Acquire && Some(p.fd) != p.lease.inode then Close(s, a)
    else At(s, a, p, Lock)
  }

  predicate NamesRegular(s: State, inode: Inode) {
    s.path == Named(inode) && inode in s.files && s.files[inode].regular
  }

  /** Locking the inode, checking that the path still names it, and committing or returning. */
  function StepLocked(s: State, a: Actor, p: Proc): State
    requires p.Busy?
  {
    if p.stage == Lock then
      if p.fd in s.locks then Close(s, a) else At(s.(locks := s.locks[p.fd := a]), a, p, LookAgain)
    else if p.stage == LookAgain then
      if !NamesRegular(s, p.fd) then Close(s, a)
      else if p.call == Acquire then Go(s, a, Holding(p.host, p.fd))
      else At(s, a, p, Commit)
    else if p.stage == Commit then
      if p.host in s.leases && s.leases[p.host] == Lease(p.lease.generation, Pending, None) then
        At(s.(leases := s.leases[p.host := Lease(p.lease.generation, Ready, Some(p.fd))]), a, p, Release)
      else Close(s, a)
    else Close(s, a)
  }

  function Step(s: State, a: Actor, spare: Inode, chunk: nat): State
    requires a in s.procs && s.procs[a].Busy?
  {
    var p := s.procs[a];
    if p.call == Migrate then StepMigrate(s, a, p)
    else
      match p.stage
      case ReadLease | ReadVersion => StepMetadata(s, a, p)
      case LookPath => At(s, a, p, if s.path == Absent then Create else Open)
      case Create | Write | VerifyCreated =>
        if p.stage != Create && p.fd !in s.files then s else StepCreate(s, a, p, spare, chunk)
      case Open | Stat | Read => if p.stage != Open && p.fd !in s.files then s else StepValidate(s, a, p)
      case Lock | LookAgain | Commit | Release => StepLocked(s, a, p)
  }

  predicate Reclaimable(s: State, inode: Inode) {
    && inode in s.files
    && s.path != Named(inode)
    && forall a :: a in s.procs ==> !(HasDescriptor(s.procs[a]) && s.procs[a].fd == inode)
  }

  /** What an event does; an event that cannot happen changes nothing. */
  function Apply(s: State, e: Event): State {
    match e
    case Start(a, call, host, generation) =>
      if a in s.procs then s
      else Go(s, a, Busy(call, if call == Migrate then LookPath else ReadLease, host, Lease(generation, Pending, None), 0, 0))
    case Advance(a, spare, chunk) => if a in s.procs && s.procs[a].Busy? then Step(s, a, spare, chunk) else s
    case Crash(a) => Close(s, a)
    case Unlink => s.(path := Absent)
    case PlantSymlink => s.(path := Symlink)
    case PlantFile(i, f) => if i in s.files then s else s.(path := Named(i), files := s.files[i := f])
    case PlantLink(i) => if i in s.files then s.(path := Named(i)) else s
    case Tamper(i, f) => if i in s.files then s.(files := s.files[i := f]) else s
    case Reclaim(i) => if Reclaimable(s, i) then s.(files := s.files - {i}) else s
  }

  function Run(s: State, events: seq<Event>): State
    decreases |events|
  {
    if events == [] then s else Run(Apply(s, events[0]), events[1..])
  }

  /** Schema 13 with no lease, over any file system. */
  predicate Initial(s: State) {
    && s.version == 13 && s.leases == map[] && s.locks == map[] && s.procs == map[]
    && (s.path.Named? ==> s.path.inode in s.files)
  }

  // The invariant of every run

  /** The kernel's side: open inodes live on, and an inode's lock belongs to the one actor
      that holds a locked descriptor of it. */
  predicate Kernel(s: State) {
    && (s.path.Named? ==> s.path.inode in s.files)
    && (forall a :: a in s.procs && HasDescriptor(s.procs[a]) ==> s.procs[a].fd in s.files)
    && (forall a :: a in s.procs && HasLock(s.procs[a]) ==> s.procs[a].fd in s.locks && s.locks[s.procs[a].fd] == a)
    && (forall i :: i in s.locks ==>
         s.locks[i] in s.procs && HasLock(s.procs[s.locks[i]]) && s.procs[s.locks[i]].fd == i)
  }

  predicate WellFormed(l: Lease) {
    l.phase == Ready <==> l.inode.Some?
  }

  predicate Database(s: State) {
    && (s.version == 13 || s.version == 14)
    && (s.version == 13 ==> s.leases == map[])
    && (forall h, k :: h in s.leases && k in s.leases ==> h == k)
    && (forall h :: h in s.leases ==> WellFormed(s.leases[h]))
  }

  /** What an actor remembers of the lease row still holds: a ready row never changes. */
  predicate Remembers(s: State, p: Proc) {
    match p
    case Holding(host, fd) => host in s.leases && s.leases[host].inode == Some(fd)
    case Busy(call, stage, host, lease, fd, _) =>
      && (call == Migrate ==> stage in {LookPath, Commit})
      && (call != Migrate && stage != ReadLease ==>
           host in s.leases && lease.generation == s.leases[host].generation && WellFormed(lease)
           && (lease.phase == Ready ==> lease == s.leases[host]))
      && (call == Acquire ==> stage !in {LookPath, Create, Write, VerifyCreated, Commit, Release})
      && (call == Acquire && stage in {Open, Stat, Read, Lock, LookAgain} ==> lease.phase == Ready)
      && (call == Acquire && stage in {Lock, LookAgain} ==> Some(fd) == lease.inode)
  }

  predicate Memory(s: State) {
    forall a :: a in s.procs ==> Remembers(s, s.procs[a])
  }

  predicate Inv(s: State) {
    Kernel(s) && Database(s) && Memory(s)
  }
}
