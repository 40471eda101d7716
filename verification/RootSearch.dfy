/** Looking for a root path in raw process bytes without taking a longer path for it
    (spikes/opencode-production-d8.2.py). */
module RootSearch {
  import opened Bytes

  const BEFORE: set<Byte> := {0, 32, 9, 10, 61, 58, 39, 34}   // NUL, blank, tab, newline, = : ' "
  const AFTER: set<Byte> := {0, 32, 47, 92, 58, 39, 34}       // NUL, blank, / \ : ' "

  predicate OccursAt(value: Bytes, root: Bytes, i: nat) {
    i + |root| <= |value| && value[i..i + |root|] == root
  }

  predicate Bounded(value: Bytes, root: Bytes, i: nat) {
    && OccursAt(value, root, i)
    && (i == 0 || value[i - 1] in BEFORE)
    && (i + |root| == |value| || value[i + |root|] in AFTER)
  }

  predicate ContainsRoot(value: Bytes, root: Bytes) {
    exists i :: 0 <= i <= |value| && Bounded(value, root, i)
  }

  /** What may stand before a root: nothing, or one of these bytes at the end. */
  predicate EndsAtBoundary(before: Bytes) {
    before != [] ==> before[|before| - 1] in Ascii("\0 \t\n=:'\"")
  }

  /** What may stand behind it. */
  predicate BeginsAtBoundary(behind: Bytes) {
    behind != [] ==> behind[0] in Ascii("\0 /\\:'\"")
  }

  lemma BoundariesAre(b: Byte)
    ensures b in BEFORE <==> b in Ascii("\0 \t\n=:'\"")
    ensures b in AFTER <==> b in Ascii("\0 /\\:'\"")
  {
    var before, behind := Ascii("\0 \t\n=:'\""), Ascii("\0 /\\:'\"");
    assert before == [0, 32, 9, 10, 61, 58, 39, 34] && behind == [0, 32, 47, 92, 58, 39, 34];
  }

  /** A value contains a root exactly when the root stands between two other texts, each of which ends
      or begins at a boundary. */
  lemma ContainsExactly(value: Bytes, root: Bytes)
    ensures ContainsRoot(value, root) <==>
      exists before, behind :: value == before + root + behind && EndsAtBoundary(before) && BeginsAtBoundary(behind)
  {
    if i :| 0 <= i <= |value| && Bounded(value, root, i) {
      var before, behind := value[..i], value[i + |root|..];
      if i > 0 { BoundariesAre(value[i - 1]); }
      if behind != [] { BoundariesAre(behind[0]); }
      assert value == before + root + behind && EndsAtBoundary(before) && BeginsAtBoundary(behind);
    }
    if before, behind :| value == before + root + behind && EndsAtBoundary(before) && BeginsAtBoundary(behind) {
      if before != [] { BoundariesAre(before[|before| - 1]); }
      if behind != [] { BoundariesAre(behind[0]); }
      assert Bounded(value, root, |before|);
    }
  }

  /** The first occurrence at or after the start. */
  method Find(value: Bytes, root: Bytes, start: nat) returns (at: Option<nat>)
    ensures at.Some? ==> start <= at.value && OccursAt(value, root, at.value)
    ensures at.Some? ==> forall i :: start <= i < at.value ==> !OccursAt(value, root, i)
    ensures at.None? ==> forall i :: start <= i ==> !OccursAt(value, root, i)
  {
    var i := start;
    while i + |root| <= |value|
      invariant start <= i && forall j :: start <= j < i ==> !OccursAt(value, root, j)
    {
      if value[i..i + |root|] == root {
        return Some(i);
      }
      i := i + 1;
    }
    at := None;
  }

  /** True exactly when some occurrence stands on boundaries, overlapping ones and the empty root
      included. */
  method BytesContainRoot(value: Bytes, root: Bytes) returns (found: bool)
    ensures found <==> ContainsRoot(value, root)
  {
    var start := 0;
    while true
      invariant start <= |value| + 1 && forall i :: 0 <= i < start ==> !Bounded(value, root, i)
      decreases |value| + 1 - start
    {
      var offset := Find(value, root, start);
      if offset.None? {
        return false;
      }
      var after := offset.value + |root|;
      if (offset.value == 0 || value[offset.value - 1] in BEFORE) && (after == |value| || value[after] in AFTER) {
        assert Bounded(value, root, offset.value);
        return true;
      }
      start := offset.value + 1;
    }
  }
}
