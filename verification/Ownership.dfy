/** Marker-backed provisional ownership (spikes/d17-provisional-ownership.py). Every lease-held
    body is one atomic step over the presentation markers, the journal, the registry of owned
    runtimes and the runtime directories. */
module Ownership {
  import opened Bytes

  /** An identity as text: one the UUID reader accepts, or one it refuses. */
  datatype Id = WellFormed(text: string) | Malformed(text: string)

  datatype Candidate = Candidate(presentation: Id, candidate: Id, slot: Id, seed: string)

  /** An entry of the runtime namespace. */
  datatype Name = Runtime(id: Id) | Foreign(text: string)

  datatype Phase = Issued | RuntimeOwnedLaunching | ExecProven | Cancelled

  /** A journal file. Its digest covers the whole marker, so it stands for the whole candidate. */
  datatype Record = Record(candidate: Candidate, phase: Phase)

  datatype Store = Store(
    markers: map<Id, Candidate>,   // presentation directories with their marker
    vacant: set<Id>,               // presentation directories without one
    run: map<Name, bool>,          // runtime directories, and whether they hold exactly the private files
    owned: set<Id>,
    journal: map<Id, Record>,      // by slot generation
    seeds: set<string>,            // seed directories that exist
    drawn: set<Id>,                // slot generations drawn so far
    planted: set<Name>)            // runtime-shaped artifacts dropped by others

  datatype Refusal =
    | RecordUnavailable | MarkerMalformed | RegistryMalformed | JournalMismatched
    | OwnedByOther | NamespaceAmbiguous | SeedUnavailable | IdentityMalformed
    | PresentationExists | CandidateCollision
    | MarkerMismatch | AlreadyIssued | AfterOwnership | CleanupAmbiguous
    | CapabilityUnavailable | AlreadyOwned | NotOwned | PhaseInvalid

  datatype Result<+T> = Ok(value: T) | Err(reason: Refusal)

  datatype Class = Clean | Same | Occupied | Ambiguous

  datatype Outcome =
    | Materialized(candidate: Candidate) | Prepared | Cleaned | OwnershipNoop | Promoted | Proven
    | Refused(reason: Refusal) | Happened

  datatype Event =
    | Materialize(presentation: Id, seed: string, supplied: Option<Id>, candidate: Id, slot: Id)
    | Prepare(handle: Candidate)
    | Cleanup(handle: Candidate)
    | Promote(handle: Candidate)
    | ProveExec(handle: Candidate)
    | Plant(name: Name, exact: bool)
    | Disturb(name: Name, exact: bool)
    | Seeds(seeds: set<string>)

  /** The registry refuses to be read once it lists more runtimes than this. */
  const MAX_OWNED := 32

  // Reading the store

  function MarkerAt(s: Store, presentation: Id): Result<Candidate> {
    if presentation !in s.markers then Err(RecordUnavailable)
    else if s.markers[presentation].seed !in s.seeds then Err(MarkerMalformed)
    else Ok(s.markers[presentation])
  }

  function ReadJournal(s: Store, c: Candidate): Result<Phase> {
    if c.slot !in s.journal then Err(RecordUnavailable)
    else if s.journal[c.slot].candidate != c then Err(JournalMismatched)
    else Ok(s.journal[c.slot].phase)
  }

  predicate Exact(s: Store, c: Candidate) {
    Runtime(c.candidate) in s.run && s.run[Runtime(c.candidate)]
  }

  /** A runtime directory that is owned, or that belongs to a marker's candidate. */
  predicate Accounted(s: Store, n: Name) {
    && n.Runtime? && n.id.WellFormed?
    && (n.id in s.owned || exists p :: p in s.markers && s.markers[p].candidate == n.id)
  }

  predicate Crowded(s: Store) {
    exists p, q :: p in s.markers && q in s.markers && p != q
  }

  function Classify(s: Store, presentation: Id): Result<Class> {
    if exists p :: p in s.markers && s.markers[p].seed !in s.seeds then Err(MarkerMalformed)
    else if Crowded(s) then Ok(Ambiguous)
    else if |s.owned| > MAX_OWNED then Err(RegistryMalformed)
    else if exists n :: n in s.run && !Accounted(s, n) then Ok(Ambiguous)
    else if s.markers == map[] then Ok(Clean)
    else if exists p :: p in s.markers && !Exact(s, s.markers[p]) then Ok(Ambiguous)
    else Ok(if presentation in s.markers then Same else Occupied)
  }

  // The steps

  /** A fresh candidate in a clean namespace. A collision with an existing directory refuses
      only after the presentation directory was made. */
  function Create(s: Store, c: Candidate): (Store, Outcome) {
    var t := s.(drawn := s.drawn + {c.slot});
    if c.seed !in s.seeds then (t, Refused(SeedUnavailable))
    else if c.presentation.Malformed? || c.candidate.Malformed? then (t, Refused(IdentityMalformed))
    else if c.presentation in s.vacant then (t, Refused(PresentationExists))
    else if Runtime(c.candidate) in s.run then
      (t.(vacant := s.vacant + {c.presentation}), Refused(CandidateCollision))
    else
      (t.(markers := s.markers[c.presentation := c], run := s.run[Runtime(c.candidate) := true]), Materialized(c))
  }

  function DoMaterialize(s: Store, c: Candidate): (Store, Outcome) {
    match Classify(s, c.presentation)
    case Err(reason) => (s, Refused(reason))
    case Ok(Same) => if c.presentation in s.markers then (s, Materialized(s.markers[c.presentation])) else (s, Happened)
    case Ok(Occupied) => (s, Refused(OwnedByOther))
    case Ok(Ambiguous) => (s, Refused(NamespaceAmbiguous))
    case Ok(Clean) => Create(s, c)
  }

  /** The marker of a handle, when it is that very candidate and the only one around. */
  function ExactSlot(s: Store, c: Candidate): Result<Candidate> {
    match MarkerAt(s, c.presentation)
    case Err(reason) => Err(reason)
    case Ok(parsed) =>
      if parsed != c then Err(MarkerMismatch)
      else
        match Classify(s, c.presentation)
        case Err(reason) => Err(reason)
        case Ok(class') => if class' == Same then Ok(parsed) else Err(MarkerMismatch)
  }

  function DoPrepare(s: Store, c: Candidate): (Store, Outcome) {
    match ExactSlot(s, c)
    case Err(reason) => (s, Refused(reason))
    case Ok(_) =>
      if c.slot in s.journal then (s, Refused(AlreadyIssued))
      else (s.(journal := s.journal[c.slot := Record(c, Issued)]), Prepared)
  }

  /** Removing the private artifacts and the marker, once the journal no longer offers promotion. */
  function Remove(s: Store, c: Candidate): (Store, Outcome) {
    if !Exact(s, c) then (s, Refused(CleanupAmbiguous))
    else (s.(run := s.run - {Runtime(c.candidate)}, markers := s.markers - {c.presentation}), Cleaned)
  }

  function DoCleanup(s: Store, c: Candidate): (Store, Outcome) {
    match MarkerAt(s, c.presentation)
    case Err(reason) =>
      if |s.owned| > MAX_OWNED then (s, Refused(RegistryMalformed))
      else if c.candidate in s.owned then (s, OwnershipNoop)
      else (s, Refused(reason))
    case Ok(parsed) =>
      if parsed != c then (s, Refused(MarkerMismatch))
      else if c.slot !in s.journal then Remove(s, c)
      else
        match ReadJournal(s, c)
        case Err(reason) => (s, Refused(reason))
        case Ok(RuntimeOwnedLaunching) => (s, Refused(AfterOwnership))
        case Ok(ExecProven) => (s, Refused(AfterOwnership))
        case Ok(Issued) => Remove(s.(journal := s.journal[c.slot := Record(c, Cancelled)]), c)
        case Ok(Cancelled) => Remove(s, c)
  }

  function DoPromote(s: Store, c: Candidate): (Store, Outcome) {
    match ExactSlot(s, c)
    case Err(reason) => (s, Refused(reason))
    case Ok(_) =>
      match ReadJournal(s, c)
      case Err(reason) => (s, Refused(reason))
      case Ok(phase) =>
        if phase != Issued then (s, Refused(CapabilityUnavailable))
        else if c.candidate in s.owned then (s, Refused(AlreadyOwned))
        else
          (s.(owned := s.owned + {c.candidate},
              journal := s.journal[c.slot := Record(c, RuntimeOwnedLaunching)],
              markers := s.markers - {c.presentation}), Promoted)
  }

  function DoProveExec(s: Store, c: Candidate): (Store, Outcome) {
    if |s.owned| > MAX_OWNED then (s, Refused(RegistryMalformed))
    else if c.candidate !in s.owned then (s, Refused(NotOwned))
    else
      match ReadJournal(s, c)
      case Err(reason) => (s, Refused(reason))
      case Ok(phase) =>
        if phase != RuntimeOwnedLaunching then (s, Refused(PhaseInvalid))
        else (s.(journal := s.journal[c.slot := Record(c, ExecProven)]), Proven)
  }

  /** Read-only, and without the lease. */
  function ActionAllowed(s: Store, c: Candidate): Result<bool> {
    if |s.owned| > MAX_OWNED then Err(RegistryMalformed)
    else if c.candidate !in s.owned then Ok(false)
    else
      match ReadJournal(s, c)
      case Err(reason) => Err(reason)
      case Ok(phase) => Ok(phase == ExecProven)
  }

  /** The candidate a materialization would create. */
  function Proposed(e: Event): Candidate
    requires e.Materialize?
  {
    Candidate(e.presentation, if e.supplied.Some? then e.supplied.value else e.candidate, e.slot, e.seed)
  }

  /** Slot generations are drawn anew; no other event is constrained. */
  predicate Possible(s: Store, e: Event) {
    match e
    case Materialize(_, _, _, _, slot) => slot.WellFormed? && slot !in s.drawn
    case Plant(name, _) => name !in s.run
    case Disturb(name, _) => name in s.run
    case _ => true
  }

  function Apply(s: Store, e: Event): (Store, Outcome) {
    if !Possible(s, e) then (s, Happened)
    else
      match e
      case Materialize(_, _, _, _, _) => DoMaterialize(s, Proposed(e))
      case Prepare(c) => DoPrepare(s, c)
      case Cleanup(c) => DoCleanup(s, c)
      case Promote(c) => DoPromote(s, c)
      case ProveExec(c) => DoProveExec(s, c)
      case Plant(name, exact) => (s.(run := s.run[name := exact], planted := s.planted + {name}), Happened)
      case Disturb(name, exact) => (s.(run := s.run[name := exact]), Happened)
      case Seeds(seeds) => (s.(seeds := seeds), Happened)
  }

  function Run(s: Store, events: seq<Event>): Store
    decreases |events|
  {
    if events == [] then s else Run(Apply(s, events[0]).0, events[1..])
  }

  const EMPTY: Store := Store(map[], {}, map[], {}, map[], {}, {}, {})

  // The files on disk, and the lease-held bodies that change them

  class StateRoot {
    var markers: map<Id, Candidate>
    var vacant: set<Id>
    var run: map<Name, bool>
    var owned: set<Id>
    var journal: map<Id, Record>
    var seeds: set<string>
    ghost var drawn: set<Id>
    ghost var planted: set<Name>

    ghost function View(): Store
      reads this
    {
      Store(markers, vacant, run, owned, journal, seeds, drawn, planted)
    }

    constructor ()
      ensures View() == EMPTY
    {
      markers, vacant, run, owned, journal, seeds := map[], {}, map[], {}, map[], {};
      drawn, planted := {}, {};
    }

    /** Parses every marker; one that does not parse refuses the whole namespace. */
    method MarkerCandidates() returns (r: Result<seq<Candidate>>)
      ensures r.Err? <==> exists p :: p in markers && markers[p].seed !in seeds
      ensures r.Err? ==> r.reason == MarkerMalformed
      ensures r.Ok? ==> |r.value| == |markers.Keys|
      ensures r.Ok? ==> forall c :: c in r.value <==> exists p :: p in markers && markers[p] == c
    {
      var todo := markers.Keys;
      var found: seq<Candidate> := [];
      while todo != {}
        invariant todo <= markers.Keys
        invariant |found| + |todo| == |markers.Keys|
        invariant forall p :: p in markers && p !in todo ==> markers[p].seed in seeds && markers[p] in found
        invariant forall c :: c in found ==> exists p :: p in markers && markers[p] == c
      {
        var p :| p in todo;
        if markers[p].seed !in seeds { return Err(MarkerMalformed); }
        todo := todo - {p};
        found := found + [markers[p]];
      }
      return Ok(found);
    }

    method ClassifyNamespace(presentation: Id) returns (r: Result<Class>)
      ensures r == Classify(View(), presentation)
    {
      var parsed := MarkerCandidates();
      if parsed.Err? { return Err(parsed.reason); }
      var found := parsed.value;
      CountMarkers(View(), found);
      if |found| > 1 { return Ok(Ambiguous); }
      if |owned| > MAX_OWNED { return Err(RegistryMalformed); }
      assert found != [] ==> found[0] in found && forall p :: p in markers ==> markers[p] in found;
      assert forall p :: p in markers ==> found != [] && markers[p] == found[0];
      var todo := run.Keys;
      while todo != {}
        invariant todo <= run.Keys
        invariant forall n :: n in run && n !in todo ==> Accounted(View(), n)
      {
        var n :| n in todo;
        if n.Foreign? || n.id.Malformed? { return Ok(Ambiguous); }
        if n.id !in owned && (found == [] || n.id != found[0].candidate) { return Ok(Ambiguous); }
        todo := todo - {n};
      }
      if found == [] { return Ok(Clean); }
      if Runtime(found[0].candidate) !in run || !run[Runtime(found[0].candidate)] { return Ok(Ambiguous); }
      return Ok(if presentation in markers then Same else Occupied);
    }

    method MaterializeCandidate(presentation: Id, seed: string, supplied: Option<Id>, candidate: Id, slot: Id)
      returns (o: Outcome)
      requires Possible(View(), Materialize(presentation, seed, supplied, candidate, slot))
      modifies this
      ensures (View(), o) == Apply(old(View()), Materialize(presentation, seed, supplied, candidate, slot))
    {
      var class' := ClassifyNamespace(presentation);
      if class'.Err? { return Refused(class'.reason); }
      if class'.value == Same { return Materialized(markers[presentation]); }
      if class'.value == Occupied { return Refused(OwnedByOther); }
      if class'.value != Clean { return Refused(NamespaceAmbiguous); }
      drawn := drawn + {slot};
      if seed !in seeds { return Refused(SeedUnavailable); }
      var c := Candidate(presentation, if supplied.Some? then supplied.value else candidate, slot, seed);
      if presentation.Malformed? || c.candidate.Malformed? { return Refused(IdentityMalformed); }
      if presentation in vacant { return Refused(PresentationExists); }
      vacant := vacant + {presentation};
      if Runtime(c.candidate) in run { return Refused(CandidateCollision); }
      run := run[Runtime(c.candidate) := true];
      markers := markers[presentation := c];
      vacant := vacant - {presentation};
      assert vacant == old(vacant);
      return Materialized(c);
    }

    method PrepareCandidate(c: Candidate) returns (o: Outcome)
      modifies this`journal
      ensures (View(), o) == Apply(old(View()), Prepare(c))
    {
      if c.presentation !in markers { return Refused(RecordUnavailable); }
      if markers[c.presentation].seed !in seeds { return Refused(MarkerMalformed); }
      if markers[c.presentation] != c { return Refused(MarkerMismatch); }
      var class' := ClassifyNamespace(c.presentation);
      if class'.Err? { return Refused(class'.reason); }
      if class'.value != Same { return Refused(MarkerMismatch); }
      if c.slot in journal { return Refused(AlreadyIssued); }
      journal := journal[c.slot := Record(c, Issued)];
      return Prepared;
    }

    method CleanupCandidate(c: Candidate) returns (o: Outcome)
      modifies this`journal, this`run, this`markers
      ensures (View(), o) == Apply(old(View()), Cleanup(c))
    {
      if c.presentation !in markers || markers[c.presentation].seed !in seeds {
        if |owned| > MAX_OWNED { return Refused(RegistryMalformed); }
        if c.candidate in owned { return OwnershipNoop; }
        return Refused(if c.presentation !in markers then RecordUnavailable else MarkerMalformed);
      }
      if markers[c.presentation] != c { return Refused(MarkerMismatch); }
      if c.slot in journal {
        if journal[c.slot].candidate != c { return Refused(JournalMismatched); }
        var phase := journal[c.slot].phase;
        if phase == RuntimeOwnedLaunching || phase == ExecProven { return Refused(AfterOwnership); }
        if phase == Issued { journal := journal[c.slot := Record(c, Cancelled)]; }
      }
      if Runtime(c.candidate) !in run || !run[Runtime(c.candidate)] { return Refused(CleanupAmbiguous); }
      run := run - {Runtime(c.candidate)};
      markers := markers - {c.presentation};
      return Cleaned;
    }

    method PromoteCandidate(c: Candidate) returns (o: Outcome)
      modifies this`journal, this`owned, this`markers
      ensures (View(), o) == Apply(old(View()), Promote(c))
    {
      if c.presentation !in markers { return Refused(RecordUnavailable); }
      if markers[c.presentation].seed !in seeds { return Refused(MarkerMalformed); }
      if markers[c.presentation] != c { return Refused(MarkerMismatch); }
      var class' := ClassifyNamespace(c.presentation);
      if class'.Err? { return Refused(class'.reason); }
      if class'.value != Same { return Refused(MarkerMismatch); }
      if c.slot !in journal { return Refused(RecordUnavailable); }
      if journal[c.slot].candidate != c { return Refused(JournalMismatched); }
      if journal[c.slot].phase != Issued { return Refused(CapabilityUnavailable); }
      if c.candidate in owned { return Refused(AlreadyOwned); }
      // The durable ownership record comes first.
      owned := owned + {c.candidate};
      journal := journal[c.slot := Record(c, RuntimeOwnedLaunching)];
      markers := markers - {c.presentation};
      return Promoted;
    }

    method ProveCandidateExec(c: Candidate) returns (o: Outcome)
      modifies this`journal
      ensures (View(), o) == Apply(old(View()), ProveExec(c))
    {
      if |owned| > MAX_OWNED { return Refused(RegistryMalformed); }
      if c.candidate !in owned { return Refused(NotOwned); }
      if c.slot !in journal { return Refused(RecordUnavailable); }
      if journal[c.slot].candidate != c { return Refused(JournalMismatched); }
      if journal[c.slot].phase != RuntimeOwnedLaunching { return Refused(PhaseInvalid); }
      journal := journal[c.slot := Record(c, ExecProven)];
      return Proven;
    }
  }

  /** A list with one entry per marker has two entries exactly when the namespace is crowded. */
  lemma CountMarkers(s: Store, found: seq<Candidate>)
    requires |found| == |s.markers.Keys|
    ensures |found| > 1 <==> Crowded(s)
    ensures found == [] <==> s.markers == map[]
  {
    if s.markers != map[] {
      var p :| p in s.markers;
      var rest := s.markers.Keys - {p};
      assert |s.markers.Keys| == |rest| + 1;
      if rest != {} {
        var q :| q in rest;
      } else {
        assert s.markers.Keys == {p};
      }
    }
  }
}
