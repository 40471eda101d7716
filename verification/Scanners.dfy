/** The two provider scanners (spikes/d17-provider-grammar.py) as loops over positions, and
    what normalising promises. */
module Scanners {
  import opened Bytes
  import opened Providers
  import opened Grammar
  import opened Strings

  method CheckArgumentShape(arguments: seq<string>) returns (ok: bool)
    ensures ok == SafeShape(arguments)
  {
    if |arguments| > MAX_ARGUMENTS { return false; }
    for i := 0 to |arguments|
      invariant forall j :: 0 <= j < i ==> SafeArgument(arguments[j])
    {
      if !SafeArgument(arguments[i]) { return false; }
    }
    return true;
  }

  /** How far a scan has come: the groups read so far, and the rest to be parsed. */
  ghost predicate Scanned(p: Provider, arguments: seq<string>, index: nat, groups: seq<Group>,
                          seen: set<Name>, normalized: seq<string>)
  {
    && index <= |arguments|
    && Parse(p, arguments) == PrependAll(groups, Parse(p, arguments[index..]))
    && AllWellKinded(p, groups) && DistinctNames(groups) && ValidTexts(p, groups)
    && (forall n :: n in seen <==> Mentions(groups, n))
    && normalized == Render(LongForms(groups))
  }

  function PrependAll(groups: seq<Group>, rest: Option<seq<Group>>): Option<seq<Group>> {
    if rest.None? then None else Some(groups + rest.value)
  }

  lemma {:induction false} RenderAppend(groups: seq<Group>, g: Group)
    ensures Render(groups + [g]) == Render(groups) + RenderGroup(g)
  {
    if groups == [] {
      assert groups + [g] == [g] && [g][1..] == [];
    } else {
      RenderAppend(groups[1..], g);
      assert (groups + [g])[1..] == groups[1..] + [g];
    }
  }

  lemma ScanBegins(p: Provider, arguments: seq<string>)
    ensures Scanned(p, arguments, 0, [], {}, [])
  {
    assert arguments[0..] == arguments;
    var all := Parse(p, arguments);
    if all.Some? {
      assert [] + all.value == all.value;
    }
    assert LongForms([]) == [];
  }

  lemma MentionsAppend(groups: seq<Group>, g: Group, n: Name)
    ensures Mentions(groups + [g], n) <==> Mentions(groups, n) || n == g.name
  {
    var more := groups + [g];
    if i :| 0 <= i < |groups| && groups[i].name == n {
      assert more[i].name == n;
    }
    assert more[|groups|] == g;
  }

  /** One more valid group with a new name. */
  lemma ValidAppend(p: Provider, groups: seq<Group>, seen: set<Name>, g: Group)
    requires AllWellKinded(p, groups) && DistinctNames(groups) && ValidTexts(p, groups)
    requires forall n :: n in seen <==> Mentions(groups, n)
    requires WellKinded(p, g) && g.name !in seen && (g.Setting? ==> ValidText(p, g.name, g.text))
    ensures AllWellKinded(p, groups + [g]) && DistinctNames(groups + [g]) && ValidTexts(p, groups + [g])
    ensures forall n :: n in seen + {g.name} <==> Mentions(groups + [g], n)
  {
    forall n ensures n in seen + {g.name} <==> Mentions(groups + [g], n) {
      MentionsAppend(groups, g, n);
    }
    forall i | 0 <= i < |groups| ensures groups[i].name != g.name {
      assert Mentions(groups, groups[i].name);
    }
  }

  /** One more group has been read. */
  lemma ScanGroup(p: Provider, arguments: seq<string>, index: nat, groups: seq<Group>,
                  seen: set<Name>, normalized: seq<string>, g: Group, next: nat)
    requires Scanned(p, arguments, index, groups, seen, normalized)
    requires index < next <= |arguments|
    requires Parse(p, arguments[index..]) == Prepend(g, Parse(p, arguments[next..]))
    requires WellKinded(p, g) && g.name !in seen && (g.Setting? ==> ValidText(p, g.name, g.text))
    ensures Scanned(p, arguments, next, groups + [g], seen + {g.name}, normalized + RenderGroup(LongForm(g)))
  {
    ValidAppend(p, groups, seen, g);
    LongFormAppend(groups, g);
    PrependAppend(groups, g, Parse(p, arguments[next..]));
    assert Parse(p, arguments) == PrependAll(groups + [g], Parse(p, arguments[next..]));
  }

  lemma LongFormAppend(groups: seq<Group>, g: Group)
    ensures Render(LongForms(groups + [g])) == Render(LongForms(groups)) + RenderGroup(LongForm(g))
  {
    assert LongForms(groups + [g]) == LongForms(groups) + [LongForm(g)];
    RenderAppend(LongForms(groups), LongForm(g));
  }

  lemma PrependAppend(groups: seq<Group>, g: Group, rest: Option<seq<Group>>)
    ensures PrependAll(groups, Prepend(g, rest)) == PrependAll(groups + [g], rest)
  {
    if rest.Some? {
      assert groups + ([g] + rest.value) == groups + [g] + rest.value;
    }
  }

  /** The list is refused: its next group repeats a name or holds an invalid value. */
  lemma ScanStops(p: Provider, arguments: seq<string>, index: nat, groups: seq<Group>,
                  seen: set<Name>, normalized: seq<string>, g: Group, next: nat)
    requires Scanned(p, arguments, index, groups, seen, normalized)
    requires index < next <= |arguments|
    requires Parse(p, arguments[index..]) == Prepend(g, Parse(p, arguments[next..]))
    requires g.name in seen || (g.Setting? && !ValidText(p, g.name, g.text))
    requires SafeShape(arguments) && !IsInformational(p, arguments)
    ensures Classified(p, arguments) == Refused
  {
    if Parse(p, arguments).Some? {
      var all := Parse(p, arguments).value;
      var k := |groups|;
      assert all[k] == g;
      if g.name in seen {
        assert Mentions(groups, g.name);
        var i :| 0 <= i < k && groups[i].name == g.name;
        assert all[i].name == all[k].name;
      }
    }
  }

  /** The whole list has been read. */
  lemma ScanEnds(p: Provider, arguments: seq<string>, index: nat, groups: seq<Group>,
                 seen: set<Name>, normalized: seq<string>)
    requires Scanned(p, arguments, index, groups, seen, normalized) && index == |arguments|
    requires SafeShape(arguments) && !IsInformational(p, arguments)
    ensures Classified(p, arguments) == if LocalProvider in seen && Oss !in seen then Refused else ManagedFresh(normalized)
  {
    assert arguments[index..] == [] && groups + [] == groups;
  }

  /** Reading a flag: a new one goes on, a repeated one refuses the list. */
  lemma ScanFlag(p: Provider, arguments: seq<string>, index: nat, groups: seq<Group>,
                 seen: set<Name>, normalized: seq<string>)
    requires Scanned(p, arguments, index, groups, seen, normalized) && index < |arguments|
    requires SafeShape(arguments) && !IsInformational(p, arguments) && FlagNamed(p, arguments[index]).Some?
    ensures var n := FlagNamed(p, arguments[index]).value;
      if n in seen then Classified(p, arguments) == Refused
      else Scanned(p, arguments, index + 1, groups + [Flag(n)], seen + {n}, normalized + [arguments[index]])
  {
    var g := Flag(FlagNamed(p, arguments[index]).value);
    assert arguments[index..][1..] == arguments[index + 1..];
    if g.name in seen {
      ScanStops(p, arguments, index, groups, seen, normalized, g, index + 1);
    } else {
      ScanGroup(p, arguments, index, groups, seen, normalized, g, index + 1);
    }
  }

  /** Reading a setting: it needs a known name, a value, and a valid one; else the list is refused. */
  lemma ScanSetting(p: Provider, arguments: seq<string>, index: nat, groups: seq<Group>,
                    seen: set<Name>, normalized: seq<string>)
    requires Scanned(p, arguments, index, groups, seen, normalized) && index < |arguments|
    requires SafeShape(arguments) && !IsInformational(p, arguments) && FlagNamed(p, arguments[index]).None?
    ensures var setting := SettingNamed(p, arguments[index]);
      if setting.None? || index + 1 >= |arguments| then Classified(p, arguments) == Refused
      else
        var (n, short) := setting.value;
        var text := arguments[index + 1];
        if n in seen || !ValidText(p, n, text) then Classified(p, arguments) == Refused
        else Scanned(p, arguments, index + 2, groups + [Setting(n, short, text)], seen + {n},
                     normalized + [Spelling(n), text])
  {
    var setting := SettingNamed(p, arguments[index]);
    if setting.Some? && index + 1 < |arguments| {
      var g := Setting(setting.value.0, setting.value.1, arguments[index + 1]);
      assert arguments[index..][2..] == arguments[index + 2..];
      if g.name in seen || !ValidText(p, g.name, g.text) {
        ScanStops(p, arguments, index, groups, seen, normalized, g, index + 2);
      } else {
        ScanGroup(p, arguments, index, groups, seen, normalized, g, index + 2);
      }
    }
  }

  method ClassifyCodex(arguments: seq<string>) returns (r: Classification)
    ensures r == Classified(Codex, arguments)
  {
    var shaped := CheckArgumentShape(arguments);
    if !shaped { return Refused; }
    if IsInformational(Codex, arguments) { return Unmanaged; }
    var normalized: seq<string> := [];
    var seen: set<Name> := {};
    var index := 0;
    ghost var groups: seq<Group> := [];
    ScanBegins(Codex, arguments);
    while index < |arguments|
      invariant Scanned(Codex, arguments, index, groups, seen, normalized)
    {
      var argument := arguments[index];
      var flag := FlagNamed(Codex, argument);
      if flag.Some? {
        ScanFlag(Codex, arguments, index, groups, seen, normalized);
        if flag.value in seen { return Refused; }
        seen := seen + {flag.value};
        normalized := normalized + [argument];
        groups := groups + [Flag(flag.value)];
        index := index + 1;
      } else {
        ScanSetting(Codex, arguments, index, groups, seen, normalized);
        var setting := SettingNamed(Codex, argument);
        if setting.None? || index + 1 >= |arguments| { return Refused; }
        var (name, short) := setting.value;
        var value := arguments[index + 1];
        if name in seen { return Refused; }
        if !ValidText(Codex, name, value) { return Refused; }
        seen := seen + {name};
        normalized := normalized + [Spelling(name), value];
        groups := groups + [Setting(name, short, value)];
        index := index + 2;
      }
    }
    ScanEnds(Codex, arguments, index, groups, seen, normalized);
    if LocalProvider in seen && Oss !in seen { return Refused; }
    return ManagedFresh(normalized);
  }

  method ClassifyOpenCode(arguments: seq<string>) returns (r: Classification)
    ensures r == Classified(OpenCode, arguments)
  {
    var shaped := CheckArgumentShape(arguments);
    if !shaped { return Refused; }
    if IsInformational(OpenCode, arguments) { return Unmanaged; }
    var normalized: seq<string> := [];
    var seen: set<Name> := {};
    var index := 0;
    ghost var groups: seq<Group> := [];
    ScanBegins(OpenCode, arguments);
    while index < |arguments|
      invariant Scanned(OpenCode, arguments, index, groups, seen, normalized)
    {
      var argument := arguments[index];
      var flag := FlagNamed(OpenCode, argument);
      if flag.Some? {
        ScanFlag(OpenCode, arguments, index, groups, seen, normalized);
        if flag.value in seen { return Refused; }
        seen := seen + {flag.value};
        normalized := normalized + [argument];
        groups := groups + [Flag(flag.value)];
        index := index + 1;
      } else {
        ScanSetting(OpenCode, arguments, index, groups, seen, normalized);
        var setting := SettingNamed(OpenCode, argument);
        if setting.None? || index + 1 >= |arguments| { return Refused; }
        var (name, short) := setting.value;
        var value := arguments[index + 1];
        if name in seen { return Refused; }
        if !ValidText(OpenCode, name, value) { return Refused; }
        seen := seen + {name};
        normalized := normalized + [Spelling(name), value];
        groups := groups + [Setting(name, short, value)];
        index := index + 2;
      }
    }
    ScanEnds(OpenCode, arguments, index, groups, seen, normalized);
    NoLocalProvider(groups);
    return ManagedFresh(normalized);
  }

  lemma NoLocalProvider(groups: seq<Group>)
    requires AllWellKinded(OpenCode, groups)
    ensures !Mentions(groups, LocalProvider)
  {
  }

  // Normalising

  lemma {:induction false} RenderLength(groups: seq<Group>)
    ensures |Render(LongForms(groups))| == |Render(groups)|
  {
    if groups != [] {
      RenderLength(groups[1..]);
      assert LongForms(groups)[1..] == LongForms(groups[1..]);
    }
  }

  predicate IsPlain(s: string) {
    forall i :: 0 <= i < |s| ==> s[i] == '-' || 'a' <= s[i] <= 'z'
  }

  lemma PlainIsSafe(s: string)
    requires IsPlain(s) && 2 < |s| <= MAX_ARGUMENT_BYTES
    ensures SafeArgument(s)
  {
    SmallTextIsShort(s);
  }

  lemma SpellingIsPlain(n: Name)
    ensures IsPlain(Spelling(n)) && 2 < |Spelling(n)| < 20
  {
    match n
    case Oss => case Search => case NoAltScreen => case ApproveForMe =>
    case Pure => case Auto => case Mini => case NoReplay =>
    case Model => case LocalProvider => case Sandbox => case AskForApproval =>
    case Agent => case ReplayLimit =>
  }

  lemma {:induction false} SmallTextIsShort(s: string)
    requires forall i :: 0 <= i < |s| ==> s[i] < '\U{80}'
    ensures Utf8Length(s) == |s|
  {
    if s != [] {
      SmallTextIsShort(s[1..]);
    }
  }

  lemma {:induction false} LongFormsAreSafe(groups: seq<Group>)
    requires AllSafe(Render(groups))
    ensures AllSafe(Render(LongForms(groups)))
  {
    if groups != [] {
      var g, rest := groups[0], groups[1..];
      assert LongForms(groups)[1..] == LongForms(rest);
      assert forall i :: 0 <= i < |Render(rest)| ==> Render(rest)[i] == Render(groups)[|RenderGroup(g)| + i];
      LongFormsAreSafe(rest);
      SpellingIsPlain(g.name);
      PlainIsSafe(Spelling(g.name));
      if g.Setting? {
        assert Render(groups)[1] == g.text;
      }
    }
  }

  lemma LongFormsAccepted(p: Provider, groups: seq<Group>)
    requires Accepts(p, groups)
    ensures Accepts(p, LongForms(groups))
    ensures LongForms(LongForms(groups)) == LongForms(groups)
  {
    var long := LongForms(groups);
    forall i | 0 <= i < |long| ensures long[i].name == groups[i].name && WellKinded(p, long[i]) {
      assert WellKinded(p, groups[i]);
    }
    forall n ensures Mentions(long, n) <==> Mentions(groups, n) {
      if i :| 0 <= i < |groups| && groups[i].name == n {
        assert long[i].name == n;
      }
    }
  }

  /** Normalising keeps the length, and a normalised list is managed and normalises to itself. */
  lemma NormalisingIsIdempotent(p: Provider, arguments: seq<string>)
    requires Classified(p, arguments).ManagedFresh?
    ensures var normalized := Classified(p, arguments).normalized;
      |normalized| == |arguments| && Classified(p, normalized) == ManagedFresh(normalized)
  {
    var groups := Parse(p, arguments).value;
    RenderParsed(p, arguments);
    RenderLength(groups);
    LongFormsAreSafe(groups);
    LongFormsAccepted(p, groups);
    ManagedExactly(p, Render(LongForms(groups)), Render(LongForms(groups)));
  }

  // Permutations

  /** No element twice: each distinct pair of positions differs. */
  lemma RepeatsStep(g: Group, rest: seq<Group>)
    ensures NoRepeats([g] + rest) <==> g !in rest && NoRepeats(rest)
  {
    var all := [g] + rest;
    assert forall i :: 0 <= i < |rest| ==> all[i + 1] == rest[i];
    if g in rest {
      var i :| 0 <= i < |rest| && rest[i] == g;
      assert all[0] == all[i + 1];
    } else if NoRepeats(rest) {
      forall i, j | 0 <= i < j < |all| ensures all[i] != all[j] {
        assert all[j] == rest[j - 1];
      }
    } else {
      var i, j :| 0 <= i < j < |rest| && rest[i] == rest[j];
      assert all[i + 1] == all[j + 1];
    }
  }

  lemma {:induction false} NoRepeatsByCount(groups: seq<Group>)
    ensures NoRepeats(groups) <==> forall g :: g in groups ==> multiset(groups)[g] == 1
  {
    if groups != [] {
      var g, rest := groups[0], groups[1..];
      NoRepeatsByCount(rest);
      RepeatsStep(g, rest);
      assert groups == [g] + rest;
      assert multiset(groups) == multiset{g} + multiset(rest);
      if !NoRepeats(rest) {
        var x :| x in rest && multiset(rest)[x] != 1;
        assert x in groups && multiset(groups)[x] > 1;
      }
      assert g in groups;
    }
  }

  /** Distinct names in terms of membership and repetition only. */
  lemma DistinctByMembers(groups: seq<Group>)
    ensures DistinctNames(groups)
       <==> NoRepeats(groups) && forall g, h :: g in groups && h in groups && g != h ==> g.name != h.name
  {
  }

  lemma PermutedMembers(gs: seq<Group>, hs: seq<Group>)
    requires multiset(gs) == multiset(hs)
    ensures forall g :: g in gs <==> g in hs
  {
    forall g ensures g in gs <==> g in hs {
      assert g in gs <==> g in multiset(gs);
      assert g in hs <==> g in multiset(hs);
    }
  }

  lemma PermutedAccepted(p: Provider, gs: seq<Group>, hs: seq<Group>)
    requires multiset(gs) == multiset(hs) && Accepts(p, gs)
    ensures Accepts(p, hs)
  {
    PermutedMembers(gs, hs);
    NoRepeatsByCount(gs);
    NoRepeatsByCount(hs);
    DistinctByMembers(gs);
    DistinctByMembers(hs);
    forall i | 0 <= i < |hs| ensures WellKinded(p, hs[i]) && (hs[i].Setting? ==> ValidText(p, hs[i].name, hs[i].text)) {
      assert hs[i] in gs;
    }
    forall n ensures Mentions(gs, n) <==> Mentions(hs, n) {
      if i :| 0 <= i < |gs| && gs[i].name == n {
        assert gs[i] in hs;
      }
      if i :| 0 <= i < |hs| && hs[i].name == n {
        assert hs[i] in gs;
      }
    }
  }

  predicate SafeGroup(g: Group) {
    AllSafe(RenderGroup(g))
  }

  lemma AllSafeAppend(a: seq<string>, b: seq<string>)
    ensures AllSafe(a + b) <==> AllSafe(a) && AllSafe(b)
  {
    assert forall i :: 0 <= i < |a| ==> (a + b)[i] == a[i];
    assert forall i :: 0 <= i < |b| ==> (a + b)[|a| + i] == b[i];
  }

  predicate AllGroupsSafe(groups: seq<Group>) {
    forall g :: g in groups ==> SafeGroup(g)
  }

  lemma {:induction false} SafeByGroups(groups: seq<Group>)
    ensures AllSafe(Render(groups)) <==> AllGroupsSafe(groups)
  {
    if groups == [] {
      assert Render(groups) == [];
    } else {
      var g, rest := groups[0], groups[1..];
      SafeByGroups(rest);
      RenderStep(groups);
      AllSafeAppend(RenderGroup(g), Render(rest));
      GroupsSafeStep(groups);
    }
  }

  lemma RenderStep(groups: seq<Group>)
    requires groups != []
    ensures Render(groups) == RenderGroup(groups[0]) + Render(groups[1..])
  {
  }

  lemma GroupsSafeStep(groups: seq<Group>)
    requires groups != []
    ensures AllGroupsSafe(groups) <==> SafeGroup(groups[0]) && AllGroupsSafe(groups[1..])
  {
    assert groups == [groups[0]] + groups[1..];
  }

  /** Rearranging the groups of a managed list in any order gives a managed list, and its
      normal form is the normal form rearranged the same way; a value that spells an option
      stays with its setting. */
  lemma NormalisingCommutesWithPermutation(p: Provider, gs: seq<Group>, hs: seq<Group>)
    requires multiset(gs) == multiset(hs)
    requires Classified(p, Render(gs)).ManagedFresh? && AllWellKinded(p, gs)
    ensures Classified(p, Render(hs)) == ManagedFresh(Render(LongForms(hs)))
    ensures Classified(p, Render(gs)) == ManagedFresh(Render(LongForms(gs)))
  {
    ParseRendered(p, gs);
    PermutedAccepted(p, gs, hs);
    PermutedMembers(gs, hs);
    SafeByGroups(gs);
    SafeByGroups(hs);
    AcceptedIsShort(p, hs);
    ManagedExactly(p, Render(hs), Render(LongForms(hs)));
    ManagedExactly(p, Render(gs), Render(LongForms(gs)));
  }

  // How long a managed list can be

  function Names(groups: seq<Group>, settings: bool): set<Name> {
    set i | 0 <= i < |groups| && groups[i].Setting? == settings :: groups[i].name
  }

  lemma NamesStep(g: Group, rest: seq<Group>, settings: bool)
    ensures Names([g] + rest, settings) == Names(rest, settings) + if g.Setting? == settings then {g.name} else {}
  {
    var groups := [g] + rest;
    forall n | n in Names(rest, settings) ensures n in Names(groups, settings) {
      var i :| 0 <= i < |rest| && rest[i].Setting? == settings && rest[i].name == n;
      assert groups[i + 1] == rest[i];
    }
    if g.Setting? == settings {
      assert groups[0].name in Names(groups, settings);
    }
  }

  lemma NewName(g: Group, rest: seq<Group>)
    requires DistinctNames([g] + rest)
    ensures g.name !in Names(rest, true) && g.name !in Names(rest, false) && DistinctNames(rest)
  {
    var groups := [g] + rest;
    assert groups[0] == g;
    assert forall i :: 0 <= i < |rest| ==> groups[i + 1] == rest[i];
  }

  lemma {:induction false} SizeByNames(groups: seq<Group>)
    requires DistinctNames(groups)
    ensures |Render(groups)| == |Names(groups, false)| + 2 * |Names(groups, true)|
  {
    if groups != [] {
      var g, rest := groups[0], groups[1..];
      assert groups == [g] + rest;
      SizeByNames(rest);
      NamesStep(g, rest, false);
      NamesStep(g, rest, true);
      NewName(g, rest);
      RenderStep(groups);
    }
  }

  lemma SubsetSize(a: set<Name>, b: set<Name>)
    requires a <= b
    ensures |a| <= |b|
  {
    assert |b| == |a| + |b - a| by {
      assert b == a + (b - a);
    }
  }

  function OptionsOf(p: Provider, settings: bool): set<Name> {
    if p == Codex then
      if settings then {Model, LocalProvider, Sandbox, AskForApproval} else {Oss, Search, NoAltScreen, ApproveForMe}
    else
      if settings then {Model, Agent, ReplayLimit} else {Pure, Auto, Mini, NoReplay}
  }

  lemma NamesAreOptions(p: Provider, groups: seq<Group>, settings: bool)
    requires AllWellKinded(p, groups)
    ensures |Names(groups, settings)| <= if p == OpenCode && settings then 3 else 4
  {
    var options := OptionsOf(p, settings);
    forall n | n in Names(groups, settings) ensures n in options {
      var i :| 0 <= i < |groups| && groups[i].Setting? == settings && groups[i].name == n;
      assert WellKinded(p, groups[i]);
    }
    SubsetSize(Names(groups, settings), options);
    assert |options| <= if p == OpenCode && settings then 3 else 4;
  }

  /** Distinct options bound the list: at most 12 arguments for codex, 10 for opencode. */
  lemma AcceptedIsShort(p: Provider, groups: seq<Group>)
    requires Accepts(p, groups)
    ensures |Render(groups)| <= if p == Codex then 12 else 10
  {
    SizeByNames(groups);
    NamesAreOptions(p, groups, false);
    NamesAreOptions(p, groups, true);
  }

  /** So the limit of 16 arguments never decides whether a list is managed. */
  lemma CountLimitNeverBinds(p: Provider, arguments: seq<string>)
    requires Parse(p, arguments).Some? && Accepts(p, Parse(p, arguments).value) && AllSafe(arguments)
    ensures Classified(p, arguments).ManagedFresh?
    ensures |arguments| <= if p == Codex then 12 else 10
  {
    RenderParsed(p, arguments);
    AcceptedIsShort(p, Parse(p, arguments).value);
    if IsInformational(p, arguments) {
      InformationalIsNotParsed(p, arguments);
    }
  }
}
