/** Waiting for a settled Fork source and retrying a rejected Fork
    (spikes/opencode-production-d8.2.py). */
module StableSource {
  import opened Bytes
  import opened Strings

  /** A field of an observation: text, a whole number, or anything else. */
  datatype Value = Text(text: string) | Number(number: int) | Other

  type Info = map<string, Value>

  datatype Sample = Sample(revision: int, settled: string, runtime: seq<string>)

  predicate HasText(info: Info, field: string) {
    field in info && info[field].Text? && !Blank(info[field].text)
  }

  /** The bounded source boundary of an observation, when it has one. */
  function SettledSourceSample(info: Option<Info>): (r: Option<Sample>) {
    if info.None? then None
    else
      var fields := info.value;
      if "provider" !in fields || fields["provider"] != Text("opencode") then None
      else if "revision" !in fields || !fields["revision"].Number? || fields["revision"].number <= 0 then None
      else if !HasText(fields, "settled_id") || !HasIdentity(fields) then None
      else Some(Sample(fields["revision"].number, fields["settled_id"].text, Identity(fields)))
  }

  predicate HasIdentity(fields: Info) {
    && HasText(fields, "provider") && HasText(fields, "runtime_id") && HasText(fields, "session_id")
    && HasText(fields, "handle_generation") && HasText(fields, "tmux_generation")
  }

  function Identity(fields: Info): (identity: seq<string>)
    requires HasIdentity(fields)
  {
    [fields["provider"].text, fields["runtime_id"].text, fields["session_id"].text,
     fields["handle_generation"].text, fields["tmux_generation"].text]
  }

  /** A field that holds this text, which is not blank. */
  predicate Says(info: Info, field: string, text: string) {
    field in info && info[field] == Text(text) && !Blank(text)
  }

  /** An observation has a boundary exactly when it is a bounded OpenCode source: a positive revision, a
      settled identity and five runtime identities, none of them blank; and these are the boundary. */
  lemma SampleExactly(info: Option<Info>, s: Sample)
    ensures SettledSourceSample(info) == Some(s) <==>
      && info.Some? && |s.runtime| == 5 && s.runtime[0] == "opencode"
      && "revision" in info.value && info.value["revision"] == Number(s.revision) && s.revision >= 1
      && Says(info.value, "settled_id", s.settled)
      && Says(info.value, "provider", s.runtime[0]) && Says(info.value, "runtime_id", s.runtime[1])
      && Says(info.value, "session_id", s.runtime[2]) && Says(info.value, "handle_generation", s.runtime[3])
      && Says(info.value, "tmux_generation", s.runtime[4])
  {
    if SettledSourceSample(info).Some? && |s.runtime| == 5 {
      assert s.runtime == [s.runtime[0], s.runtime[1], s.runtime[2], s.runtime[3], s.runtime[4]];
    }
  }

  // Waiting for the source to settle

  /** One poll: what was read, and the clock right after it. */
  datatype Observation = Observation(info: Option<Info>, now: real)

  datatype Failure =
    | BoundaryUnavailable | RevisionRegressed | BoundaryChanged | RuntimeChanged | RevisionChurn
    | EffectSeen

  /** Waiting means that every observation so far leaves the loop running. */
  datatype Outcome = Settled(info: Info) | Failed(reason: Failure) | Waiting

  function Seen(log: seq<Observation>, k: nat): Option<Sample>
    requires k < |log|
  {
    SettledSourceSample(log[k].info)
  }

  /** Observations a to k all show one and the same boundary. */
  predicate Unchanged(log: seq<Observation>, a: nat, k: nat) {
    a <= k < |log| && Seen(log, k).Some? && forall i :: a <= i <= k ==> Seen(log, i) == Seen(log, k)
  }

  /** ... and a is as early as that can be. */
  predicate Since(log: seq<Observation>, a: nat, k: nat) {
    Unchanged(log, a, k) && (a == 0 || Seen(log, a - 1) != Seen(log, k))
  }

  predicate SettlesAt(log: seq<Observation>, k: nat, window: real) {
    exists a: nat :: a < k && Since(log, a, k) && log[k].now - log[a].now >= window
  }

  /** What observation k does to a wait that is still running. */
  function Verdict(log: seq<Observation>, k: nat, base: Sample, deadline: real, window: real): Outcome
    requires k < |log|
  {
    var seen := Seen(log, k);
    if seen.Some? && seen.value.revision < base.revision then Failed(RevisionRegressed)
    else if seen.Some? && seen.value.settled != base.settled then Failed(BoundaryChanged)
    else if seen.Some? && seen.value.runtime != base.runtime then Failed(RuntimeChanged)
    else if SettlesAt(log, k, window) then Settled(log[k].info.value)
    else if log[k].now >= deadline then Failed(RevisionChurn)
    else Waiting
  }

  predicate RunningUpTo(log: seq<Observation>, n: nat, base: Sample, deadline: real, window: real) {
    n <= |log| && forall k :: 0 <= k < n ==> Verdict(log, k, base, deadline, window) == Waiting
  }

  /** Observation k is the first that ends the wait, and this is how. */
  predicate DecidedAt(log: seq<Observation>, k: nat, base: Sample, deadline: real, window: real, r: Outcome) {
    k < |log| && RunningUpTo(log, k, base, deadline, window) && Verdict(log, k, base, deadline, window) == r
  }

  predicate Decided(log: seq<Observation>, base: Sample, deadline: real, window: real, r: Outcome) {
    exists k :: 0 <= k < |log| && DecidedAt(log, k, base, deadline, window, r)
  }

  /** Polls until the source settles; the verdict of the first observation that has one. */
  method WaitForStableSettledSource(initial: Option<Info>, log: seq<Observation>, start: real, timeout: real, window: real)
    returns (r: Outcome)
    ensures SettledSourceSample(initial).None? ==> r == Failed(BoundaryUnavailable)
    ensures SettledSourceSample(initial).Some? ==>
      var base := SettledSourceSample(initial).value;
      if r.Waiting? then RunningUpTo(log, |log|, base, start + timeout, window)
      else Decided(log, base, start + timeout, window, r)
  {
    var expected := SettledSourceSample(initial);
    if expected.None? {
      return Failed(BoundaryUnavailable);
    }
    var base, deadline := expected.value, start + timeout;
    var candidate: Option<(int, string)>, stableSince := None, 0.0;
    ghost var a := 0;
    for k := 0 to |log|
      invariant RunningUpTo(log, k, base, deadline, window)
      invariant candidate.None? ==> k == 0 || Seen(log, k - 1).None?
      invariant candidate.Some? ==>
        && k > 0 && Since(log, a, k - 1) && stableSince == log[a].now && Seen(log, k - 1).value.runtime == base.runtime
        && candidate.value == (Seen(log, k - 1).value.revision, Seen(log, k - 1).value.settled)
    {
      var sample, now := SettledSourceSample(log[k].info), log[k].now;
      if sample.Some? {
        var seen := sample.value;
        if seen.revision < base.revision {
          assert DecidedAt(log, k, base, deadline, window, Failed(RevisionRegressed));
          return Failed(RevisionRegressed);
        }
        if seen.settled != base.settled {
          assert DecidedAt(log, k, base, deadline, window, Failed(BoundaryChanged));
          return Failed(BoundaryChanged);
        }
        if seen.runtime != base.runtime {
          assert DecidedAt(log, k, base, deadline, window, Failed(RuntimeChanged));
          return Failed(RuntimeChanged);
        }
        var current := (seen.revision, seen.settled);
        if candidate != Some(current) {
          candidate, stableSince, a := Some(current), now, k;
          SinceIsNow(log, k);
        } else {
          SinceContinues(log, a, k);
          if now - stableSince >= window {
            assert DecidedAt(log, k, base, deadline, window, Settled(log[k].info.value));
            return Settled(log[k].info.value);
          }
        }
      } else {
        candidate := None;
      }
      NotSettled(log, k, window, a);
      if now >= deadline {
        assert DecidedAt(log, k, base, deadline, window, Failed(RevisionChurn));
        return Failed(RevisionChurn);
      }
    }
    r := Waiting;
  }

  lemma SinceIsUnique(log: seq<Observation>, a: nat, b: nat, k: nat)
    requires Since(log, a, k) && Since(log, b, k)
    ensures a == b
  {
  }

  lemma SinceIsNow(log: seq<Observation>, k: nat)
    requires k < |log| && Seen(log, k).Some? && (k > 0 ==> Seen(log, k - 1) != Seen(log, k))
    ensures Since(log, k, k)
  {
  }

  lemma SinceContinues(log: seq<Observation>, a: nat, k: nat)
    requires 0 < k < |log| && Since(log, a, k - 1) && Seen(log, k) == Seen(log, k - 1)
    ensures Since(log, a, k)
  {
  }

  lemma NotSettled(log: seq<Observation>, k: nat, window: real, a: nat)
    requires k < |log|
    requires Seen(log, k).Some? ==> Since(log, a, k) && (a == k || log[k].now - log[a].now < window)
    ensures !SettlesAt(log, k, window)
  {
    if b: nat :| b < k && Since(log, b, k) && log[k].now - log[b].now >= window {
      SinceIsUnique(log, a, b, k);
    }
  }

  // What a settled source means

  predicate Matches(base: Sample, s: Sample) {
    s.runtime == base.runtime && s.settled == base.settled && s.revision >= base.revision
  }

  /** A returned observation shows a boundary that was read, without a gap or a change, over at
      least the stable window and in more than one poll; and everything readable that was seen up
      to then was the caller's runtime and boundary, never older than its revision. */
  lemma SettledIsStable(log: seq<Observation>, k: nat, base: Sample, deadline: real, window: real)
    requires k < |log| && DecidedAt(log, k, base, deadline, window, Verdict(log, k, base, deadline, window))
    requires Verdict(log, k, base, deadline, window).Settled?
    ensures exists a: nat :: a < k && Unchanged(log, a, k) && log[k].now - log[a].now >= window
    ensures forall i :: 0 <= i <= k && Seen(log, i).Some? ==> Matches(base, Seen(log, i).value)
    ensures log[k].info == Some(Verdict(log, k, base, deadline, window).info) && Seen(log, k).Some?
    ensures forall i :: 0 <= i < k ==> log[i].now < deadline
  {
    var a: nat :| a < k && Since(log, a, k) && log[k].now - log[a].now >= window;
    assert Unchanged(log, a, k);
    forall i | 0 <= i <= k && Seen(log, i).Some? ensures Matches(base, Seen(log, i).value) {
      assert i < k ==> Verdict(log, i, base, deadline, window) == Waiting;
    }
    forall i | 0 <= i < k ensures log[i].now < deadline {
      assert Verdict(log, i, base, deadline, window) == Waiting;
    }
  }

  predicate Monotone(log: seq<Observation>) {
    forall i, j :: 0 <= i <= j < |log| ==> log[i].now <= log[j].now
  }

  lemma {:induction false} StartOf(log: seq<Observation>, a: nat, k: nat) returns (start: nat)
    requires Unchanged(log, a, k)
    ensures start <= a && Since(log, start, k)
    decreases a
  {
    if a == 0 || Seen(log, a - 1) != Seen(log, k) {
      start := a;
    } else {
      start := StartOf(log, a - 1, k);
    }
  }

  /** Conversely, once one boundary has been read unchanged for the window, the wait is over. */
  lemma StableSettles(log: seq<Observation>, a: nat, k: nat, base: Sample, deadline: real, window: real)
    requires Monotone(log) && a < k && Unchanged(log, a, k) && log[k].now - log[a].now >= window
    ensures Verdict(log, k, base, deadline, window) ==
      if Matches(base, Seen(log, k).value) then Settled(log[k].info.value)
      else if Seen(log, k).value.revision < base.revision then Failed(RevisionRegressed)
      else if Seen(log, k).value.settled != base.settled then Failed(BoundaryChanged)
      else Failed(RuntimeChanged)
  {
    var start := StartOf(log, a, k);
    assert log[start].now <= log[a].now;
    assert SettlesAt(log, k, window);
  }

  // Retrying a rejected Fork

  const MAX_FORK_REVISION_RETRIES: int := 1

  const REVISION_CONFLICT_DIAGNOSTIC: string :=
    "error: " + "host rejected the request: " + "revision conflict; refresh this host"

  /** What one Fork command left behind for its caller. */
  datatype Process = Completed(returncode: int, stdout: string, stderr: string)

  function Stripped(s: string): string {
    StrippedRight(StrippedLeft(s))
  }

  function StrippedLeft(s: string): string {
    if s != "" && IsSpace(s[0]) then StrippedLeft(s[1..]) else s
  }

  function StrippedRight(s: string): string {
    if s != "" && IsSpace(s[|s| - 1]) then StrippedRight(s[..|s| - 1]) else s
  }

  lemma BlankJoins(a: string, b: string)
    ensures Blank(a + b) <==> Blank(a) && Blank(b)
  {
    assert forall i :: 0 <= i < |a| ==> (a + b)[i] == a[i];
    assert forall i :: 0 <= i < |b| ==> (a + b)[|a| + i] == b[i];
  }

  lemma {:induction false} LeftStripped(s: string) returns (a: string)
    ensures Blank(a) && s == a + StrippedLeft(s)
    ensures StrippedLeft(s) != "" ==> !IsSpace(StrippedLeft(s)[0])
  {
    a := "";
    if s != "" && IsSpace(s[0]) {
      var rest := LeftStripped(s[1..]);
      a := [s[0]] + rest;
      BlankJoins([s[0]], rest);
    }
  }

  lemma {:induction false} RightStripped(s: string) returns (b: string)
    ensures Blank(b) && s == StrippedRight(s) + b
    ensures StrippedRight(s) != "" ==> StrippedRight(s)[0] == s[0] && !IsSpace(StrippedRight(s)[|StrippedRight(s)| - 1])
  {
    b := "";
    var last := |s| - 1;
    if s != "" && IsSpace(s[last]) {
      var rest := RightStripped(s[..last]);
      b := rest + [s[last]];
      BlankJoins(rest, [s[last]]);
      assert s == s[..last] + [s[last]];
    }
  }

  /** The text without the blanks around it: it begins and ends with something else, if it is not empty. */
  predicate Core(core: string) {
    core != "" ==> !IsSpace(core[0]) && !IsSpace(core[|core| - 1])
  }

  /** Text with blanks around it. */
  predicate Framed(s: string, a: string, core: string, b: string) {
    s == a + core + b && Blank(a) && Blank(b)
  }

  /** Stripping takes off exactly the blanks at both ends. */
  lemma StrippedExactly(s: string)
    ensures Core(Stripped(s)) && exists a, b :: Framed(s, a, Stripped(s), b)
  {
    var a := LeftStripped(s);
    var b := RightStripped(StrippedLeft(s));
    assert a + (Stripped(s) + b) == a + Stripped(s) + b;
    assert Framed(s, a, Stripped(s), b);
  }

  /** There is only one such text. */
  lemma CoreIsUnique(s: string, a: string, core: string, b: string, c: string, other: string, d: string)
    requires Framed(s, a, core, b) && Framed(s, c, other, d) && Core(core) && Core(other) && core != "" && other != ""
    ensures core == other
  {
    assert s[|a|] == core[0] && s[|c|] == other[0];
    var i, j := |a| + |core| - 1, |c| + |other| - 1;
    assert s[i] == core[|core| - 1] && s[j] == other[|other| - 1];
    assert core == s[|a|..i + 1] && other == s[|c|..j + 1];
  }

  /** The one failure that is recognised as the host's rejection before it creates anything. */
  predicate IsPreEffectConflict(p: Process) {
    p.returncode != 0 && Blank(p.stdout) && Stripped(p.stderr) == REVISION_CONFLICT_DIAGNOSTIC
  }

  lemma DiagnosticIsCore()
    ensures Core(REVISION_CONFLICT_DIAGNOSTIC) && REVISION_CONFLICT_DIAGNOSTIC != ""
  {
    var text := REVISION_CONFLICT_DIAGNOSTIC;
    assert "error: "[0] == 'e' && text[0] == 'e' && text[|text| - 1] == 't';
    assert !IsSpace('e') && !IsSpace('t');
  }

  /** It is recognised exactly by its code, a blank output, and its diagnostic with only blanks around
      it, such as the newline that a command prints after it. */
  lemma ConflictExactly(p: Process)
    ensures IsPreEffectConflict(p) <==>
      && p.returncode != 0 && Blank(p.stdout)
      && exists a, b :: Framed(p.stderr, a, REVISION_CONFLICT_DIAGNOSTIC, b)
  {
    StrippedExactly(p.stderr);
    var core := Stripped(p.stderr);
    var a, b :| Framed(p.stderr, a, core, b);
    if c, d :| Framed(p.stderr, c, REVISION_CONFLICT_DIAGNOSTIC, d) {
      DiagnosticIsCore();
      assert p.stderr[|c|] == REVISION_CONFLICT_DIAGNOSTIC[0];
      CoreIsUnique(p.stderr, a, core, b, c, REVISION_CONFLICT_DIAGNOSTIC, d);
    }
  }

  datatype Category =
    | RevisionConflictSeen | RecoveryRequired | ExternalEffectUnknown | SourceUnavailable | CreationUnavailable
    | TimedOut | ProtocolUnavailable | OtherFailure

  predicate HoldsAt(text: string, fragment: string, i: nat) {
    i + |fragment| <= |text| && text[i..i + |fragment|] == fragment
  }

  predicate Holds(text: string, fragment: string) {
    exists i :: 0 <= i <= |text| && HoldsAt(text, fragment, i)
  }

  /** A text holds a fragment exactly when it stands between two other texts. */
  lemma HoldsExactly(text: string, fragment: string)
    ensures Holds(text, fragment) <==> exists a, b :: text == a + fragment + b
  {
    if i :| 0 <= i <= |text| && HoldsAt(text, fragment, i) {
      assert text == text[..i] + fragment + text[i + |fragment|..];
    }
    if a, b :| text == a + fragment + b {
      assert HoldsAt(text, fragment, |a|);
    }
  }

  /** The fragments that are looked for, in this order. */
  const CATEGORIES: seq<(string, Category)> := [
    ("revision conflict; refresh this host", RevisionConflictSeen),
    ("workstream outcome needs recovery", RecoveryRequired),
    ("OpenCode Fork response was lost", ExternalEffectUnknown),
    ("fork source is no longer available", SourceUnavailable),
    ("workstream creation is unavailable", CreationUnavailable),
    ("host command timed out", TimedOut),
    ("host command failed without a usable protocol response", ProtocolUnavailable)]

  function FirstCategory(table: seq<(string, Category)>, stderr: string): Category {
    if table == [] then OtherFailure
    else if Holds(stderr, table[0].0) then table[0].1
    else FirstCategory(table[1..], stderr)
  }

  /** The first entry whose fragment the diagnostics hold. */
  predicate FirstHeld(table: seq<(string, Category)>, stderr: string, i: nat) {
    i < |table| && Holds(stderr, table[i].0) && forall j :: 0 <= j < i ==> !Holds(stderr, table[j].0)
  }

  /** A failure is in the category of the first fragment its diagnostics hold, and in none of them
      exactly when they hold none. */
  lemma {:induction false} FirstCategoryExactly(table: seq<(string, Category)>, stderr: string)
    ensures forall i: nat :: FirstHeld(table, stderr, i) ==> FirstCategory(table, stderr) == table[i].1
    ensures (forall i :: 0 <= i < |table| ==> !Holds(stderr, table[i].0)) ==> FirstCategory(table, stderr) == OtherFailure
    decreases |table|
  {
    if table != [] {
      FirstCategoryExactly(table[1..], stderr);
      forall i: nat | FirstHeld(table, stderr, i) ensures FirstCategory(table, stderr) == table[i].1 {
        if i > 0 {
          assert !Holds(stderr, table[0].0) && FirstHeld(table[1..], stderr, i - 1);
        }
      }
    }
  }

  /** Classifies a failed command by the first fragment its diagnostics hold. */
  function FailureCategory(stderr: string): Category {
    FirstCategory(CATEGORIES, stderr)
  }

  datatype ForkOutcome = Accepted | CommandFailed(category: Category) | Rejected(reason: Failure)

  /** What the outside does at each attempt. Whether a Fork was really created is not something the
      caller sees. */
  datatype World = World(
    answers: nat -> Process, forked: nat -> bool, quiet: nat -> bool, refreshed: nat -> Option<Info>)

  /** What the host promises: success means that the Fork exists, and its conflict diagnostic that it
      does not. Of any other failure it promises nothing, a lost response among them. */
  ghost predicate Truthful(w: World) {
    forall i: nat ::
      && (w.answers(i).returncode == 0 ==> w.forked(i))
      && (IsPreEffectConflict(w.answers(i)) ==> !w.forked(i))
  }

  /** Attempt i was refused before any effect, and the source was read again: same boundary, same
      runtime, and a newer revision that the next attempt uses. */
  predicate Retried(w: World, base: Sample, tried: seq<int>, i: nat)
    requires i + 1 < |tried|
  {
    && IsPreEffectConflict(w.answers(i)) && w.quiet(i)
    && var again := SettledSourceSample(w.refreshed(i));
       again.Some? && Matches(base, again.value) && again.value.revision == tried[i + 1] && tried[i + 1] != tried[i]
  }

  function Budget(maxRetries: int): (r: nat) {
    var asked := if maxRetries < 0 then 0 else maxRetries;
    if asked < MAX_FORK_REVISION_RETRIES then asked else MAX_FORK_REVISION_RETRIES
  }

  /** Why the last attempt ended the loop. */
  function LastVerdict(w: World, base: Sample, tried: seq<int>, budget: nat): Option<ForkOutcome>
    requires tried != []
  {
    var n := |tried| - 1;
    var answer := w.answers(n);
    if answer.returncode == 0 then Some(Accepted)
    else if !IsPreEffectConflict(answer) then Some(CommandFailed(FailureCategory(answer.stderr)))
    else if n >= budget then Some(Rejected(RevisionChurn))
    else if !w.quiet(n) then Some(Rejected(EffectSeen))
    else
      match RefreshVerdict(base, SettledSourceSample(w.refreshed(n)), tried[n])
      case None => None
      case Some(reason) => Some(Rejected(reason))
  }

  /** Why the source that was read again does not allow another attempt. */
  function RefreshVerdict(base: Sample, again: Option<Sample>, expected: int): Option<Failure> {
    match again
    case None => Some(BoundaryUnavailable)
    case Some(s) =>
      if s.settled != base.settled then Some(BoundaryChanged)
      else if s.runtime != base.runtime then Some(RuntimeChanged)
      else if s.revision < base.revision then Some(RevisionRegressed)
      else if s.revision == expected then Some(RevisionChurn)
      else None
  }

  /** How the loop came to its result. */
  predicate Course(w: World, base: Sample, tried: seq<int>, budget: nat, r: ForkOutcome) {
    && 1 <= |tried| <= budget + 1 && tried[0] == base.revision
    && (forall i :: 0 <= i < |tried| - 1 ==> Retried(w, base, tried, i))
    && LastVerdict(w, base, tried, budget) == Some(r)
  }

  /** Invokes the Fork, and invokes it again only after a refusal that came before any effect. The
      trailing failure after the loop is never reached. */
  method InvokeForkWithRevisionRetry(source: Option<Info>, w: World, maxRetries: int)
    returns (r: ForkOutcome, tried: seq<int>)
    ensures SettledSourceSample(source).None? ==> r == Rejected(BoundaryUnavailable) && tried == []
    ensures SettledSourceSample(source).Some? ==>
      Course(w, SettledSourceSample(source).value, tried, Budget(maxRetries), r)
  {
    tried := [];
    var baseline := SettledSourceSample(source);
    if baseline.None? {
      return Rejected(BoundaryUnavailable), tried;
    }
    var base, expected, budget, attempt := baseline.value, baseline.value.revision, Budget(maxRetries), 0;
    while true
      invariant 0 <= attempt == |tried| <= budget
      invariant forall i :: 0 <= i < |tried| - 1 ==> Retried(w, base, tried, i)
      invariant if attempt == 0 then expected == base.revision
                else tried[0] == base.revision && Retried(w, base, tried + [expected], attempt - 1)
      decreases budget - attempt
    {
      ghost var before := tried;
      tried := tried + [expected];
      assert forall i :: 0 <= i < |before| ==> tried[i] == before[i];
      var result := w.answers(attempt);
      if result.returncode == 0 {
        return Accepted, tried;
      }
      if !IsPreEffectConflict(result) {
        return CommandFailed(FailureCategory(result.stderr)), tried;
      }
      if attempt >= budget {
        return Rejected(RevisionChurn), tried;
      }
      if !w.quiet(attempt) {
        return Rejected(EffectSeen), tried;
      }
      var current := SettledSourceSample(w.refreshed(attempt));
      var refused := RefreshVerdict(base, current, expected);
      if refused.Some? {
        return Rejected(refused.value), tried;
      }
      expected, attempt := current.value.revision, attempt + 1;
    }
  }

  /** The source was read again at the caller's runtime and boundary, at a newer revision. */
  predicate Refreshed(base: Sample, info: Option<Info>) {
    var again := SettledSourceSample(info);
    again.Some? && again.value.settled == base.settled && again.value.runtime == base.runtime
    && again.value.revision > base.revision
  }

  /** A second attempt is made exactly when one is asked for, the first was rejected before any effect,
      and the source was read again without one and at a newer revision; a result is accepted exactly
      when the last attempt succeeded. */
  lemma RetriesExactly(w: World, base: Sample, tried: seq<int>, maxRetries: int, r: ForkOutcome)
    requires Course(w, base, tried, Budget(maxRetries), r)
    ensures |tried| == 2 <==>
      maxRetries >= 1 && IsPreEffectConflict(w.answers(0)) && w.quiet(0) && Refreshed(base, w.refreshed(0))
    ensures |tried| == 2 ==> tried == [base.revision, SettledSourceSample(w.refreshed(0)).value.revision]
    ensures |tried| != 2 ==> tried == [base.revision]
    ensures r == Accepted <==> w.answers(|tried| - 1).returncode == 0
  {
    if |tried| == 2 {
      assert Retried(w, base, tried, 0);
    }
  }

  /** Why a conflict was not retried: the attempts were used up, an effect was seen, or the source that
      was read again has no boundary, another one, another Runtime, an older revision or the same. */
  lemma RejectedExactly(w: World, base: Sample, tried: seq<int>, maxRetries: int, r: ForkOutcome)
    requires Course(w, base, tried, Budget(maxRetries), r) && r.Rejected?
    ensures var n := |tried| - 1;
      var again := SettledSourceSample(w.refreshed(n));
      r.reason ==
        if n == 1 || maxRetries < 1 then RevisionChurn
        else if !w.quiet(0) then EffectSeen
        else if again.None? then BoundaryUnavailable
        else if again.value.settled != base.settled then BoundaryChanged
        else if again.value.runtime != base.runtime then RuntimeChanged
        else if again.value.revision < base.revision then RevisionRegressed
        else RevisionChurn
  {
  }

  /** A conflict that is printed as a line is retried: a command that fails with it and then succeeds is
      accepted, at the newer revision. */
  lemma ConflictLineIsRetried(w: World, base: Sample, tried: seq<int>, maxRetries: int, r: ForkOutcome, code: int)
    requires Course(w, base, tried, Budget(maxRetries), r) && maxRetries >= 1 && code != 0
    requires w.answers(0) == Completed(code, "", REVISION_CONFLICT_DIAGNOSTIC + "\n")
    requires w.quiet(0) && Refreshed(base, w.refreshed(0)) && w.answers(1).returncode == 0
    ensures r == Accepted && tried == [base.revision, SettledSourceSample(w.refreshed(0)).value.revision]
  {
    var stderr := w.answers(0).stderr;
    assert "" + REVISION_CONFLICT_DIAGNOSTIC == REVISION_CONFLICT_DIAGNOSTIC;
    assert Framed(stderr, "", REVISION_CONFLICT_DIAGNOSTIC, "\n");
    ConflictExactly(w.answers(0));
    RetriesExactly(w, base, tried, maxRetries, r);
  }

  /** Attempt i was made and created a Fork. */
  predicate ForkedAt(w: World, tried: seq<int>, i: nat) {
    i < |tried| && w.forked(i)
  }

  /** Every attempt but the last was refused before any effect, so at most the last one creates a
      Fork, whatever the host is like otherwise. Acceptance means that it did; a failed command is the
      only other result under which it may have; every rejection means that there is none. A retry
      uses a strictly newer revision of the same boundary. */
  lemma ForkedAtMostOnce(w: World, base: Sample, tried: seq<int>, budget: nat, r: ForkOutcome)
    requires Truthful(w) && budget <= MAX_FORK_REVISION_RETRIES && Course(w, base, tried, budget, r)
    ensures forall i :: ForkedAt(w, tried, i) ==> i == |tried| - 1
    ensures r == Accepted ==> ForkedAt(w, tried, |tried| - 1)
    ensures r.Rejected? ==> forall i :: !ForkedAt(w, tried, i)
    ensures r.CommandFailed? <==>
      w.answers(|tried| - 1).returncode != 0 && !IsPreEffectConflict(w.answers(|tried| - 1))
    ensures forall i :: 0 <= i < |tried| - 1 ==> tried[i] < tried[i + 1]
  {
    forall i | 0 <= i < |tried| - 1 ensures !w.forked(i) && tried[i] < tried[i + 1] {
      assert Retried(w, base, tried, i);
    }
  }

  /** A failed command really leaves both possible, whatever its diagnostics: hosts that keep their
      promise answer alike whether or not the Fork was created. So does one whose response was lost. */
  lemma FailureIsUndecided(p: Process, base: Sample, created: bool)
    requires p.returncode != 0 && !IsPreEffectConflict(p)
    ensures var w := World(i => p, i => created, i => true, i => None);
      && Truthful(w)
      && Course(w, base, [base.revision], 0, CommandFailed(FailureCategory(p.stderr)))
      && (ForkedAt(w, [base.revision], 0) <==> created)
  {
  }
}
