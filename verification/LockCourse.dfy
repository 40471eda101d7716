/** The complete course of the stable lock, from a state root of the old schema to a held lease, by
    system calls of one actor that nobody disturbs (spikes/d17-provisional-lock.py). */
module LockCourse {
  import opened Bytes
  import opened StableLock
  import opened LockSafety
  import opened LockHost

  // Which leases have an artifact

  function PowerOfTen(digits: nat): nat {
    if digits == 0 then 1 else 10 * PowerOfTen(digits - 1)
  }

  lemma {:induction false} DecimalLength(n: nat, digits: nat)
    requires digits > 0
    ensures |Decimal(n)| <= digits <==> n < PowerOfTen(digits)
    decreases digits
  {
    if digits == 1 {
      assert PowerOfTen(1) == 10 * PowerOfTen(0);
    } else {
      PowerIsPositive(digits - 1);
      if n >= 10 {
        DecimalLength(n / 10, digits - 1);
      }
    }
  }

  lemma {:induction false} PowerIsPositive(digits: nat)
    ensures PowerOfTen(digits) >= 1
  {
    if digits > 0 {
      PowerIsPositive(digits - 1);
    }
  }

  /** A lease has an artifact exactly for a host of 32 lower-case hexadecimal digits and a positive
      generation of at most 408 digits, which is all that fits into 512 bytes. */
  lemma ContentExactly(host: Bytes, generation: int)
    ensures ExpectedContent(host, generation).Some? <==>
      && |host| == 32 && (forall i :: 0 <= i < |host| ==> host[i] in Ascii("0123456789abcdef"))
      && 0 < generation < PowerOfTen(408)
  {
    AlphabetIsHex();
    if |host| == 32 && generation > 0 {
      DecimalLength(generation, 408);
      assert |ContentOf(host, generation)| == 49 + 32 + 21 + |Decimal(generation)| + 2;
    }
  }

  lemma AlphabetIsHex()
    ensures forall b: Byte :: IsLowerHex(b) <==> b in Ascii("0123456789abcdef")
  {
    var digits := Ascii("0123456789abcdef");
    assert digits == [48, 49, 50, 51, 52, 53, 54, 55, 56, 57, 97, 98, 99, 100, 101, 102];
    forall b: Byte ensures IsLowerHex(b) <==> b in digits {
    }
  }

  // Writing and verifying

  /** A write puts its bytes at its offset and leaves the others; what was missing before it is zero. */
  lemma WriteAtExactly(content: Bytes, offset: nat, bytes: Bytes, i: nat)
    requires bytes != []
    ensures var r := WriteAt(content, offset, bytes);
      && |r| == (if offset + |bytes| < |content| then |content| else offset + |bytes|)
      && (i < |r| ==>
            r[i] == if offset <= i < offset + |bytes| then bytes[i - offset] else if i < |content| then content[i] else 0)
  {
  }

  /** An artifact that was written out is opened only if what is there now is exactly the content. */
  lemma VerifiedExactly(s: State, a: Actor, p: Proc, spare: Inode, chunk: nat)
    requires a in s.procs && s.procs[a] == p && p.Busy? && p.call == Install && p.stage == VerifyCreated && p.fd in s.files
    ensures var content := ExpectedContent(p.host, p.lease.generation);
      Apply(s, Advance(a, spare, chunk)) ==
        if content == Some(s.files[p.fd].content) && s.files[p.fd].regular && s.files[p.fd].isPrivate
        then Go(s, a, p.(stage := Stage.Open)) else Close(s, a)
  {
  }

  // The course

  lemma {:induction false} StepsKeep(s: State, a: Actor, spare: Inode, sizes: seq<nat>, n: nat)
    requires Inv(s)
    ensures Inv(Steps(s, a, spare, sizes, n))
    decreases n
  {
    if n > 0 && a in s.procs {
      var e := Advance(a, spare, NextSize(s.procs[a], sizes));
      ApplyKeeps(s, e);
      StepsKeep(Apply(s, e), a, spare, LaterSizes(s.procs[a], sizes), n - 1);
    }
  }

  lemma LeadsKeeps(s: State, e: Event, a: Actor, spare: Inode, sizes: seq<nat>, t: State)
    requires Inv(s) && Leads(Apply(s, e), a, spare, sizes, t)
    ensures Inv(t)
  {
    ApplyKeeps(s, e);
    var n: nat :| Steps(Apply(s, e), a, spare, sizes, n) == t;
    StepsKeep(Apply(s, e), a, spare, sizes, n);
  }

  /** A migration that runs alone adds its one pending row, or leaves the state as it was. */
  lemma MigrateAlone(s: State, a: Actor, host: Bytes, generation: int, spare: Inode)
    requires Inv(s) && a !in s.procs
    ensures Leads(Apply(s, Start(a, Migrate, host, generation)), a, spare, [], Migrated(s, host, generation))
  {
    OwnsNoLock(s, a);
    var p := Busy(Migrate, LookPath, host, Lease(generation, Pending, None), 0, 0);
    if s.path != Absent {
      Refused(s, a, p, spare, []);
    } else {
      var q := p.(stage := Commit);
      CommitMigration(s, a, q, spare);
      Moves(s, a, p, q, spare, [], Migrated(s, host, generation));
    }
  }

  lemma CommitMigration(s: State, a: Actor, p: Proc, spare: Inode)
    requires Resting(s, a) && p.Busy? && p.call == Migrate && p.stage == Commit && s.path == Absent
    ensures Leads(Go(s, a, p), a, spare, [], Migrated(s, p.host, p.lease.generation))
  {
    var t := Migrated(s, p.host, p.lease.generation);
    if s.version != 13 || p.host in s.leases {
      Refused(s, a, p, spare, []);
    } else {
      assert s.procs[a := p] - {a} == s.procs;
      assert Close(Go(t, a, p), a) == t;
      Here(t, a, spare, []);
      After(s, a, p, spare, [], t);
    }
  }

  /** A pending row for the host, on the new schema. */
  function Pended(s: State, host: Bytes, generation: int): State {
    s.(version := 14, leases := map[host := Lease(generation, Pending, None)])
  }

  /** The artifact and the ready row that names it. */
  function Readied(s: State, host: Bytes, generation: int, spare: Inode): State
    requires ExpectedContent(host, generation).Some?
  {
    s.(version := 14, leases := map[host := Lease(generation, Ready, Some(spare))], path := Named(spare),
       files := s.files[spare := File(true, true, ExpectedContent(host, generation).value)])
  }

  /** In every reachable state of the old schema without an artifact, an actor that migrates, installs and
      acquires alone comes to hold the lease, through the artifact that it made and recorded, in however
      many writes. */
  lemma LeaseIsHeldInTheEnd(s: State, a: Actor, host: Bytes, generation: int, spare: Inode, sizes: seq<nat>)
    requires Inv(s) && s.version == 13 && s.path == Absent && a !in s.procs && spare !in s.files
    requires ExpectedContent(host, generation).Some? && Cuts(sizes, |ExpectedContent(host, generation).value|)
    ensures var pending, ready := Pended(s, host, generation), Readied(s, host, generation, spare);
      && Leads(Apply(s, Start(a, Migrate, host, generation)), a, spare, [], pending)
      && Leads(Apply(pending, Start(a, Install, host, 0)), a, spare, sizes, ready)
      && Leads(Apply(ready, Start(a, Acquire, host, 0)), a, spare, [],
               ready.(locks := s.locks[spare := a], procs := s.procs[a := Holding(host, spare)]))
  {
    var pending, ready := Pended(s, host, generation), Readied(s, host, generation, spare);
    assert spare !in s.locks;
    assert s.leases[host := Lease(generation, Pending, None)] == map[host := Lease(generation, Pending, None)];
    MigrateAlone(s, a, host, generation, spare);
    LeadsKeeps(s, Start(a, Migrate, host, generation), a, spare, [], pending);
    assert Installed(pending, host, spare) == ready;
    RerunFinalisesOrRefuses(pending, a, host, spare, sizes);
    LeadsKeeps(pending, Start(a, Install, host, 0), a, spare, sizes, ready);
    AcquireAlone(ready, a, host, spare);
  }
}
