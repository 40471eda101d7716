/** The fresh-TUI command grammar (spikes/d17-provider-grammar.py): which provider argument
    lists are managed, and what they normalise to. The scanners work through the list by
    position; the grammar says the same with groups, one option each. */
module Grammar {
  import opened Bytes
  import opened Providers
  import opened Strings

  const MAX_ARGUMENTS := 16
  const MAX_ARGUMENT_BYTES := 160
  const MAX_REPLAY_LIMIT := 10_000

  datatype Name =
    | Oss | Search | NoAltScreen | ApproveForMe                 // codex flags
    | Pure | Auto | Mini | NoReplay                             // opencode flags
    | Model | LocalProvider | Sandbox | AskForApproval          // codex settings (and opencode's model)
    | Agent | ReplayLimit                                       // opencode settings

  datatype Classification = Unmanaged | ManagedFresh(normalized: seq<string>) | Refused

  /** One option as it stands in an argument list. */
  datatype Group = Flag(name: Name) | Setting(name: Name, short: bool, text: string)

  // Characters and values

  function Utf8Length(s: string): (n: nat) {
    if s == [] then 0
    else (if s[0] < '\U{80}' then 1 else if s[0] < '\U{800}' then 2 else if s[0] < '\U{10000}' then 3 else 4)
         + Utf8Length(s[1..])
  }

  predicate IsDigit(c: char) { '0' <= c <= '9' }

  predicate IsAgentChar(c: char) {
    'A' <= c <= 'Z' || 'a' <= c <= 'z' || IsDigit(c) || c in {'.', '_', ':', '-'}
  }

  predicate IsValueChar(c: char) {
    IsAgentChar(c) || c in {'/', '='}
  }

  function ToLower(s: string): (r: string)
    ensures |r| == |s|
  {
    seq(|s|, i requires 0 <= i < |s| => if 'A' <= s[i] <= 'Z' then s[i] + 32 as char else s[i])
  }

  predicate LooksSecret(s: string) {
    var lower := ToLower(s);
    "sk-" <= lower || "sk_" <= lower || "token-" <= lower || "bearer-" <= lower || "ghp_" <= lower || "xoxb-" <= lower
  }

  predicate SafeValue(s: string, agent: bool) {
    && s != "" && Utf8Length(s) <= MAX_ARGUMENT_BYTES
    && (forall i :: 0 <= i < |s| ==> if agent then IsAgentChar(s[i]) else IsValueChar(s[i]))
    && !LooksSecret(s)
  }

  function NumberOf(s: string): int {
    if s == [] then 0 else 10 * NumberOf(s[..|s| - 1]) + (s[|s| - 1] as int - '0' as int)
  }

  predicate SafeReplayLimit(s: string) {
    s != "" && (forall i :: 0 <= i < |s| ==> IsDigit(s[i])) && NumberOf(s) <= MAX_REPLAY_LIMIT
  }

  predicate SafeArgument(s: string) {
    && s != "" && Utf8Length(s) <= MAX_ARGUMENT_BYTES
    && (forall i :: 0 <= i < |s| ==> s[i] != '\0' && !IsSpace(s[i]))
    && s != "--" && '=' !in s
  }

  // Names

  predicate IsFlag(p: Provider, n: Name) {
    match p
    case Codex => n in {Oss, Search, NoAltScreen, ApproveForMe}
    case OpenCode => n in {Pure, Auto, Mini, NoReplay}
  }

  predicate IsSetting(p: Provider, n: Name) {
    match p
    case Codex => n in {Model, LocalProvider, Sandbox, AskForApproval}
    case OpenCode => n in {Model, Agent, ReplayLimit}
  }

  predicate HasShort(p: Provider, n: Name) {
    n == Model || (p == Codex && (n == Sandbox || n == AskForApproval))
  }

  function Spelling(n: Name): string {
    match n
    case Oss => "--oss"
    case Search => "--search"
    case NoAltScreen => "--no-alt-screen"
    case ApproveForMe => "--approve-for-me"
    case Pure => "--pure"
    case Auto => "--auto"
    case Mini => "--mini"
    case NoReplay => "--no-replay"
    case Model => "--model"
    case LocalProvider => "--local-provider"
    case Sandbox => "--sandbox"
    case AskForApproval => "--ask-for-approval"
    case Agent => "--agent"
    case ReplayLimit => "--replay-limit"
  }

  function ShortSpelling(n: Name): string {
    match n
    case Model => "-m"
    case Sandbox => "-s"
    case AskForApproval => "-a"
    case _ => Spelling(n)
  }

  function FlagNamed(p: Provider, s: string): (n: Option<Name>)
    ensures n.Some? ==> IsFlag(p, n.value) && Spelling(n.value) == s
  {
    match p
    case Codex =>
      if s == "--oss" then Some(Oss)
      else if s == "--search" then Some(Search)
      else if s == "--no-alt-screen" then Some(NoAltScreen)
      else if s == "--approve-for-me" then Some(ApproveForMe)
      else None
    case OpenCode =>
      if s == "--pure" then Some(Pure)
      else if s == "--auto" then Some(Auto)
      else if s == "--mini" then Some(Mini)
      else if s == "--no-replay" then Some(NoReplay)
      else None
  }

  /** The setting a spelling stands for, and whether it is the short spelling. */
  function SettingNamed(p: Provider, s: string): (n: Option<(Name, bool)>)
    ensures n.Some? ==>
      && IsSetting(p, n.value.0) && (n.value.1 ==> HasShort(p, n.value.0))
      && s == (if n.value.1 then ShortSpelling(n.value.0) else Spelling(n.value.0))
  {
    if s == "-m" then Some((Model, true))
    else if s == "--model" then Some((Model, false))
    else
      match p
      case Codex =>
        if s == "--local-provider" then Some((LocalProvider, false))
        else if s == "-s" then Some((Sandbox, true))
        else if s == "--sandbox" then Some((Sandbox, false))
        else if s == "-a" then Some((AskForApproval, true))
        else if s == "--ask-for-approval" then Some((AskForApproval, false))
        else None
      case OpenCode =>
        if s == "--agent" then Some((Agent, false))
        else if s == "--replay-limit" then Some((ReplayLimit, false))
        else None
  }

  predicate ValidText(p: Provider, n: Name, text: string) {
    match n
    case Agent => SafeValue(text, true)
    case ReplayLimit => SafeReplayLimit(text)
    case LocalProvider => SafeValue(text, false) && text in {"lmstudio", "ollama"}
    case Sandbox => SafeValue(text, false) && text in {"read-only", "workspace-write", "danger-full-access"}
    case AskForApproval => SafeValue(text, false) && text in {"on-request", "never"}
    case _ => SafeValue(text, false)
  }

  // The grammar

  predicate WellKinded(p: Provider, g: Group) {
    match g
    case Flag(n) => IsFlag(p, n)
    case Setting(n, short, _) => IsSetting(p, n) && (short ==> HasShort(p, n))
  }

  predicate AllWellKinded(p: Provider, groups: seq<Group>) {
    forall i :: 0 <= i < |groups| ==> WellKinded(p, groups[i])
  }

  function RenderGroup(g: Group): seq<string> {
    match g
    case Flag(n) => [Spelling(n)]
    case Setting(n, short, text) => [if short then ShortSpelling(n) else Spelling(n), text]
  }

  function Render(groups: seq<Group>): seq<string> {
    if groups == [] then [] else RenderGroup(groups[0]) + Render(groups[1..])
  }

  function LongForm(g: Group): Group {
    match g
    case Flag(n) => g
    case Setting(n, _, text) => Setting(n, false, text)
  }

  function LongForms(groups: seq<Group>): (r: seq<Group>)
    ensures |r| == |groups|
  {
    seq(|groups|, i requires 0 <= i < |groups| => LongForm(groups[i]))
  }

  predicate DistinctNames(groups: seq<Group>) {
    forall i, j :: 0 <= i < j < |groups| ==> groups[i].name != groups[j].name
  }

  predicate Mentions(groups: seq<Group>, n: Name) {
    exists i :: 0 <= i < |groups| && groups[i].name == n
  }

  predicate ValidTexts(p: Provider, groups: seq<Group>) {
    forall i :: 0 <= i < |groups| && groups[i].Setting? ==> ValidText(p, groups[i].name, groups[i].text)
  }

  /** The declarative grammar: distinct options with valid values, and `--local-provider`
      only beside the flag `--oss`. */
  predicate Accepts(p: Provider, groups: seq<Group>) {
    && AllWellKinded(p, groups) && DistinctNames(groups) && ValidTexts(p, groups)
    && (Mentions(groups, LocalProvider) ==> Mentions(groups, Oss))
  }

  predicate AllSafe(arguments: seq<string>) {
    forall i :: 0 <= i < |arguments| ==> SafeArgument(arguments[i])
  }

  predicate SafeShape(arguments: seq<string>) {
    |arguments| <= MAX_ARGUMENTS && AllSafe(arguments)
  }

  predicate IsInformational(p: Provider, arguments: seq<string>) {
    && |arguments| == 1
    && match p
       case Codex => arguments[0] in {"-h", "--help", "-V", "--version", "login"}
       case OpenCode => arguments[0] in {"-h", "--help", "-v", "--version", "providers"}
  }

  /** Reads an argument list as groups; a setting takes the next argument whatever it spells. */
  function Parse(p: Provider, arguments: seq<string>): Option<seq<Group>> {
    if arguments == [] then Some([])
    else
      var flag := FlagNamed(p, arguments[0]);
      if flag.Some? then Prepend(Flag(flag.value), Parse(p, arguments[1..]))
      else
        var setting := SettingNamed(p, arguments[0]);
        if setting.None? || |arguments| < 2 then None
        else Prepend(Setting(setting.value.0, setting.value.1, arguments[1]), Parse(p, arguments[2..]))
  }

  function Prepend(g: Group, rest: Option<seq<Group>>): Option<seq<Group>> {
    if rest.None? then None else Some([g] + rest.value)
  }

  /** What the scanners compute. */
  function Classified(p: Provider, arguments: seq<string>): Classification {
    if !SafeShape(arguments) then Refused
    else if IsInformational(p, arguments) then Unmanaged
    else
      var groups := Parse(p, arguments);
      if groups.Some? && Accepts(p, groups.value) then ManagedFresh(Render(LongForms(groups.value))) else Refused
  }

  // Parsing and rendering are inverse

  lemma ReadsFlag(p: Provider, n: Name)
    requires IsFlag(p, n)
    ensures FlagNamed(p, Spelling(n)) == Some(n)
  {
  }

  lemma ReadsSetting(p: Provider, n: Name, short: bool)
    requires IsSetting(p, n) && (short ==> HasShort(p, n))
    ensures var s := if short then ShortSpelling(n) else Spelling(n);
      FlagNamed(p, s) == None && SettingNamed(p, s) == Some((n, short))
  {
  }

  lemma {:induction false} ParseRendered(p: Provider, groups: seq<Group>)
    requires AllWellKinded(p, groups)
    ensures Parse(p, Render(groups)) == Some(groups)
  {
    if groups != [] {
      var g, rest := groups[0], groups[1..];
      assert WellKinded(p, g) && groups == [g] + rest;
      ParseRendered(p, rest);
      var arguments := Render(groups);
      match g
      case Flag(n) =>
        ReadsFlag(p, n);
        assert arguments[1..] == Render(rest);
      case Setting(n, short, text) =>
        ReadsSetting(p, n, short);
        assert arguments[0] == RenderGroup(g)[0] && arguments[1] == text;
        assert arguments[2..] == Render(rest);
    }
  }

  lemma {:induction false} RenderParsed(p: Provider, arguments: seq<string>)
    ensures Parse(p, arguments).Some? ==>
      Render(Parse(p, arguments).value) == arguments && AllWellKinded(p, Parse(p, arguments).value)
  {
    if arguments != [] && Parse(p, arguments).Some? {
      var groups := Parse(p, arguments).value;
      FirstGroup(p, arguments);
      var n := if groups[0].Flag? then 1 else 2;
      RenderParsed(p, arguments[n..]);
      RestWellKinded(p, groups);
      assert Render(groups) == RenderGroup(groups[0]) + Render(groups[1..]);
      assert arguments == arguments[..n] + arguments[n..];
    }
  }

  lemma RestWellKinded(p: Provider, groups: seq<Group>)
    requires groups != [] && WellKinded(p, groups[0]) && AllWellKinded(p, groups[1..])
    ensures AllWellKinded(p, groups)
  {
    assert forall i :: 1 <= i < |groups| ==> groups[i] == groups[1..][i - 1];
  }

  /** The first group of a list is the one its first arguments spell. */
  lemma FirstGroup(p: Provider, arguments: seq<string>)
    requires arguments != [] && Parse(p, arguments).Some?
    ensures var g := Parse(p, arguments).value[0]; var n := if g.Flag? then 1 else 2;
      && n <= |arguments| && RenderGroup(g) == arguments[..n] && WellKinded(p, g)
      && Parse(p, arguments[n..]) == Some(Parse(p, arguments).value[1..])
  {
  }

  /** An informational command is not a list of options. */
  lemma InformationalIsNotParsed(p: Provider, arguments: seq<string>)
    requires IsInformational(p, arguments)
    ensures Parse(p, arguments).None?
  {
  }

  /** A list is managed exactly when it renders an accepted list of groups, and then it
      normalises to the same groups with long option names. The groups are unique. */
  lemma ManagedExactly(p: Provider, arguments: seq<string>, normalized: seq<string>)
    ensures Classified(p, arguments) == ManagedFresh(normalized)
       <==> exists groups ::
              && Render(groups) == arguments && Accepts(p, groups) && SafeShape(arguments)
              && Render(LongForms(groups)) == normalized
  {
    RenderParsed(p, arguments);
    if IsInformational(p, arguments) {
      InformationalIsNotParsed(p, arguments);
    }
    if groups :| Render(groups) == arguments && Accepts(p, groups) && SafeShape(arguments)
                 && Render(LongForms(groups)) == normalized {
      ParseRendered(p, groups);
    }
  }
}
