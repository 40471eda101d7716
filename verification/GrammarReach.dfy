/** What the argument grammar reaches (spikes/d17-provider-grammar.py): the values an option may have,
    every option of both providers in one managed list, and the lists that are not managed. */
module GrammarReach {
  import opened Bytes
  import opened Providers
  import opened Grammar
  import opened Scanners
  import opened Strings

  // Values

  predicate AsciiLetter(c: char) {
    65 <= c as int <= 90 || 97 <= c as int <= 122
  }

  /** The text begins with this lower-case prefix, in whatever case it is written. */
  predicate BeginsLike(s: string, prefix: string) {
    && |prefix| <= |s|
    && forall i :: 0 <= i < |prefix| ==>
         s[i] == prefix[i] || ('A' <= s[i] <= 'Z' && s[i] as int + 32 == prefix[i] as int)
  }

  lemma LowerPrefix(s: string, prefix: string)
    requires forall i :: 0 <= i < |prefix| ==> !('A' <= prefix[i] <= 'Z')
    ensures prefix <= ToLower(s) <==> BeginsLike(s, prefix)
  {
    if |prefix| <= |s| {
      assert prefix <= ToLower(s) <==> forall i :: 0 <= i < |prefix| ==> ToLower(s)[i] == prefix[i];
    }
  }

  predicate BeginsSecretly(s: string) {
    || BeginsLike(s, "sk-") || BeginsLike(s, "sk_") || BeginsLike(s, "token-")
    || BeginsLike(s, "bearer-") || BeginsLike(s, "ghp_") || BeginsLike(s, "xoxb-")
  }

  lemma SecretsExactly(s: string)
    ensures LooksSecret(s) <==> BeginsSecretly(s)
  {
    LowerPrefix(s, "sk-");
    LowerPrefix(s, "sk_");
    LowerPrefix(s, "token-");
    LowerPrefix(s, "bearer-");
    LowerPrefix(s, "ghp_");
    LowerPrefix(s, "xoxb-");
  }

  /** An argument that can be the value of a model: up to 160 letters, digits and a few marks, none of
      which is an equals sign, that does not begin like a secret. */
  lemma ModelExactly(s: string)
    ensures SafeArgument(s) && ValidText(Codex, Model, s) <==>
      && 1 <= |s| <= 160 && s != "--" && !BeginsSecretly(s)
      && forall i :: 0 <= i < |s| ==> AsciiLetter(s[i]) || 48 <= s[i] as int <= 57 || s[i] in ['.', '_', '/', ':', '-']
    ensures ValidText(OpenCode, Model, s) <==> ValidText(Codex, Model, s)
  {
    SecretsExactly(s);
    if forall i :: 0 <= i < |s| ==> IsValueChar(s[i]) {
      SmallTextIsShort(s);
    }
  }

  /** Likewise for an agent, which may not hold a slash either. */
  lemma AgentExactly(s: string)
    ensures ValidText(OpenCode, Agent, s) <==>
      && 1 <= |s| <= 160 && !BeginsSecretly(s)
      && forall i :: 0 <= i < |s| ==> AsciiLetter(s[i]) || 48 <= s[i] as int <= 57 || s[i] in ['.', '_', ':', '-']
  {
    SecretsExactly(s);
    if forall i :: 0 <= i < |s| ==> IsAgentChar(s[i]) {
      SmallTextIsShort(s);
    }
  }

  /** How many bytes a character takes. */
  function Width(c: char): nat {
    if c as int < 128 then 1 else if c as int < 2048 then 2 else if c as int < 65536 then 3 else 4
  }

  /** A text of equally wide characters is as long as they are together. */
  lemma {:induction false} WideText(s: string, width: nat)
    requires forall i :: 0 <= i < |s| ==> Width(s[i]) == width
    ensures Utf8Length(s) == width * |s|
  {
    if s != [] {
      WideText(s[1..], width);
    }
  }

  /** A number in decimal, with leading zeros if so many digits are asked for. */
  function Digits(n: nat, places: nat): (s: string)
    requires places > 0
    decreases places, n
  {
    if places == 1 && n < 10 then [(48 + n) as char]
    else Digits(n / 10, if places == 1 then 1 else places - 1) + [(48 + n % 10) as char]
  }

  lemma {:induction false} DigitsRead(n: nat, places: nat)
    requires places > 0
    ensures var s := Digits(n, places);
      s != "" && (forall i :: 0 <= i < |s| ==> IsDigit(s[i])) && NumberOf(s) == n
    decreases places, n
  {
    var s := Digits(n, places);
    if places == 1 && n < 10 {
      assert NumberOf(s[..0]) == 0;
    } else {
      var rest := if places == 1 then 1 else places - 1;
      DigitsRead(n / 10, rest);
      assert s[..|s| - 1] == Digits(n / 10, rest);
    }
  }

  /** A printed number is a replay limit exactly up to ten thousand. */
  lemma ReplayLimitExactly(n: nat, places: nat)
    requires places > 0
    ensures ValidText(OpenCode, ReplayLimit, Digits(n, places)) <==> n <= 10_000
  {
    DigitsRead(n, places);
  }

  // The longest lists

  const CODEX_FLAGS: seq<Group> := [Flag(Oss), Flag(Search), Flag(NoAltScreen), Flag(ApproveForMe)]
  const OPENCODE_FLAGS: seq<Group> := [Flag(Pure), Flag(Auto), Flag(Mini), Flag(NoReplay)]

  /** Every option of Codex once. */
  function CodexGroups(short: bool, model: string, local: string, sandbox: string, approval: string): seq<Group> {
    CODEX_FLAGS + [Setting(Model, short, model)] + [Setting(LocalProvider, false, local)]
    + [Setting(Sandbox, short, sandbox)] + [Setting(AskForApproval, short, approval)]
  }

  /** Every option of OpenCode once. */
  function OpencodeGroups(short: bool, model: string, agent: string, limit: string): seq<Group> {
    OPENCODE_FLAGS + [Setting(Model, short, model)] + [Setting(Agent, false, agent)] + [Setting(ReplayLimit, false, limit)]
  }

  /** The value, if there is one, is allowed for its option, and can stand in a list. */
  predicate Fine(p: Provider, g: Group) {
    g.Setting? ==> ValidText(p, g.name, g.text) && SafeArgument(g.text)
  }

  predicate AllFine(p: Provider, groups: seq<Group>) {
    forall g :: g in groups ==> Fine(p, g)
  }

  lemma OneMoreFine(p: Provider, groups: seq<Group>, g: Group)
    requires AllFine(p, groups) && Fine(p, g)
    ensures AllFine(p, groups + [g])
  {
  }

  lemma FineIsValid(p: Provider, groups: seq<Group>)
    requires AllFine(p, groups)
    ensures ValidTexts(p, groups) && forall g :: g in groups && g.Setting? ==> SafeArgument(g.text)
  {
    forall i | 0 <= i < |groups| && groups[i].Setting? ensures ValidText(p, groups[i].name, groups[i].text) {
      assert Fine(p, groups[i]);
    }
    forall g | g in groups && g.Setting? ensures SafeArgument(g.text) {
      assert Fine(p, g);
    }
  }

  lemma PlainIsValue(s: string)
    requires IsPlain(s) && 2 < |s| < 20 && s[0] !in ['s', 't', 'b', 'g', 'x']
    ensures SafeValue(s, false) && SafeArgument(s)
  {
    SecretsExactly(s);
    SmallTextIsShort(s);
    PlainIsSafe(s);
  }

  lemma SpellingsAreSafe(groups: seq<Group>)
    requires forall g :: g in groups ==> g.Setting? ==> SafeArgument(g.text)
    requires forall g :: g in groups && g.Setting? && g.short ==> SafeArgument(ShortSpelling(g.name))
    ensures AllSafe(Render(groups))
  {
    forall g | g in groups ensures SafeGroup(g) {
      SpellingIsPlain(g.name);
      PlainIsSafe(Spelling(g.name));
    }
    SafeByGroups(groups);
  }

  lemma {:induction false} RenderSize(groups: seq<Group>, flags: nat)
    requires flags <= |groups| && forall i :: 0 <= i < |groups| ==> (groups[i].Flag? <==> i < flags)
    ensures |Render(groups)| == flags + 2 * (|groups| - flags)
    decreases |groups|
  {
    if groups != [] {
      RenderSize(groups[1..], if flags > 0 then flags - 1 else 0);
    }
  }

  lemma ShortsAreSafe()
    ensures SafeArgument("-m") && SafeArgument("-s") && SafeArgument("-a")
  {
    SmallTextIsShort("-m");
    SmallTextIsShort("-s");
    SmallTextIsShort("-a");
  }

  /** A list that renders accepted groups of safe arguments is managed. */
  lemma AcceptedIsManaged(p: Provider, groups: seq<Group>)
    requires Accepts(p, groups) && (forall g :: g in groups && g.Setting? ==> SafeArgument(g.text))
    ensures Classified(p, Render(groups)) == ManagedFresh(Render(LongForms(groups)))
  {
    ShortsAreSafe();
    forall g | g in groups && g.Setting? && g.short ensures SafeArgument(ShortSpelling(g.name)) {
      var i :| 0 <= i < |groups| && groups[i] == g;
      assert WellKinded(p, groups[i]);
    }
    SpellingsAreSafe(groups);
    AcceptedIsShort(p, groups);
    ManagedExactly(p, Render(groups), Render(LongForms(groups)));
  }

  /** The local providers, exactly. */
  lemma LocalExactly(local: string)
    ensures Fine(Codex, Setting(LocalProvider, false, local)) <==> local == "lmstudio" || local == "ollama"
  {
    if local == "lmstudio" || local == "ollama" {
      PlainIsValue(local);
    }
  }

  lemma SandboxIsValue(sandbox: string)
    requires sandbox == "read-only" || sandbox == "workspace-write" || sandbox == "danger-full-access"
    ensures SafeValue(sandbox, false) && SafeArgument(sandbox)
  {
    PlainIsValue(sandbox);
  }

  /** The sandboxes, exactly. */
  lemma SandboxExactly(short: bool, sandbox: string)
    ensures Fine(Codex, Setting(Sandbox, short, sandbox)) <==>
      sandbox == "read-only" || sandbox == "workspace-write" || sandbox == "danger-full-access"
  {
    if sandbox == "read-only" || sandbox == "workspace-write" || sandbox == "danger-full-access" {
      SandboxIsValue(sandbox);
    }
  }

  /** The approvals, exactly. */
  lemma ApprovalExactly(short: bool, approval: string)
    ensures Fine(Codex, Setting(AskForApproval, short, approval)) <==> approval == "on-request" || approval == "never"
  {
    if approval == "on-request" || approval == "never" {
      PlainIsValue(approval);
    }
  }

  lemma CodexIsKinded(short: bool, model: string, local: string, sandbox: string, approval: string)
    ensures var groups := CodexGroups(short, model, local, sandbox, approval);
      && AllWellKinded(Codex, groups) && DistinctNames(groups) && Mentions(groups, Oss)
      && |groups| == 8 && forall i :: 0 <= i < 8 ==> (groups[i].Flag? <==> i < 4)
  {
    assert CodexGroups(short, model, local, sandbox, approval)[0].name == Oss;
  }

  /** Each value that is allowed for its option. */
  predicate CodexValues(local: string, sandbox: string, approval: string) {
    && (local == "lmstudio" || local == "ollama")
    && (sandbox == "read-only" || sandbox == "workspace-write" || sandbox == "danger-full-access")
    && (approval == "on-request" || approval == "never")
  }

  lemma FirstSettingsAreFine(short: bool, model: string, local: string)
    requires Fine(Codex, Setting(Model, short, model)) && (local == "lmstudio" || local == "ollama")
    ensures AllFine(Codex, CODEX_FLAGS + [Setting(Model, short, model)] + [Setting(LocalProvider, false, local)])
  {
    OneMoreFine(Codex, CODEX_FLAGS, Setting(Model, short, model));
    LocalExactly(local);
    OneMoreFine(Codex, CODEX_FLAGS + [Setting(Model, short, model)], Setting(LocalProvider, false, local));
  }

  lemma CodexIsFine(short: bool, model: string, local: string, sandbox: string, approval: string)
    requires Fine(Codex, Setting(Model, short, model)) && CodexValues(local, sandbox, approval)
    ensures AllFine(Codex, CodexGroups(short, model, local, sandbox, approval))
  {
    var first := CODEX_FLAGS + [Setting(Model, short, model)] + [Setting(LocalProvider, false, local)];
    FirstSettingsAreFine(short, model, local);
    SandboxExactly(short, sandbox);
    ApprovalExactly(short, approval);
    OneMoreFine(Codex, first, Setting(Sandbox, short, sandbox));
    OneMoreFine(Codex, first + [Setting(Sandbox, short, sandbox)], Setting(AskForApproval, short, approval));
  }

  lemma FineIsManaged(p: Provider, groups: seq<Group>)
    requires AllFine(p, groups) && AllWellKinded(p, groups) && DistinctNames(groups)
    requires Mentions(groups, LocalProvider) ==> Mentions(groups, Oss)
    ensures Classified(p, Render(groups)) == ManagedFresh(Render(LongForms(groups)))
  {
    FineIsValid(p, groups);
    AcceptedIsManaged(p, groups);
  }

  /** Every option of Codex can be given at once, with any of its values: the bound of 12 arguments is
      reached. */
  lemma CodexReaches(short: bool, model: string, local: string, sandbox: string, approval: string)
    requires Fine(Codex, Setting(Model, short, model)) && CodexValues(local, sandbox, approval)
    ensures var groups := CodexGroups(short, model, local, sandbox, approval);
      Classified(Codex, Render(groups)) == ManagedFresh(Render(LongForms(groups))) && |Render(groups)| == 12
  {
    var groups := CodexGroups(short, model, local, sandbox, approval);
    CodexIsKinded(short, model, local, sandbox, approval);
    CodexIsFine(short, model, local, sandbox, approval);
    FineIsManaged(Codex, groups);
    RenderSize(groups, 4);
  }

  lemma OpencodeIsKinded(short: bool, model: string, agent: string, limit: string)
    ensures var groups := OpencodeGroups(short, model, agent, limit);
      && AllWellKinded(OpenCode, groups) && DistinctNames(groups) && !Mentions(groups, LocalProvider)
      && |groups| == 7 && forall i :: 0 <= i < 7 ==> (groups[i].Flag? <==> i < 4)
  {
  }

  /** Likewise for OpenCode: the bound of 10 is reached. */
  lemma OpencodeReaches(short: bool, model: string, agent: string, limit: string)
    requires Fine(OpenCode, Setting(Model, short, model)) && Fine(OpenCode, Setting(Agent, false, agent))
    requires Fine(OpenCode, Setting(ReplayLimit, false, limit))
    ensures var groups := OpencodeGroups(short, model, agent, limit);
      Classified(OpenCode, Render(groups)) == ManagedFresh(Render(LongForms(groups))) && |Render(groups)| == 10
  {
    var groups := OpencodeGroups(short, model, agent, limit);
    OpencodeIsKinded(short, model, agent, limit);
    FineIsManaged(OpenCode, groups);
    RenderSize(groups, 4);
  }

  // Lists that are not managed

  predicate AsksForInformation(p: Provider, argument: string) {
    || argument == "-h" || argument == "--help" || argument == "--version"
    || argument == (if p == Codex then "-V" else "-v") || argument == (if p == Codex then "login" else "providers")
  }

  lemma WordIsSafe(s: string)
    requires s == "--help" || s == "--version" || s == "login" || s == "providers"
    ensures SafeArgument(s)
  {
    PlainIsSafe(s);
  }

  lemma LetterIsSafe(s: string)
    requires s == "-h" || s == "-V" || s == "-v"
    ensures SafeArgument(s)
  {
    SmallTextIsShort(s);
  }

  lemma InformationIsSafe(p: Provider, argument: string)
    requires AsksForInformation(p, argument)
    ensures SafeArgument(argument)
  {
    if |argument| == 2 {
      LetterIsSafe(argument);
    } else {
      WordIsSafe(argument);
    }
  }

  /** Exactly a single request for information is left to the provider. */
  lemma UnmanagedExactly(p: Provider, arguments: seq<string>)
    ensures Classified(p, arguments) == Unmanaged <==> |arguments| == 1 && AsksForInformation(p, arguments[0])
  {
    if |arguments| == 1 && AsksForInformation(p, arguments[0]) {
      InformationIsSafe(p, arguments[0]);
    }
  }

  /** An argument that is empty, too long, or holds a blank, a NUL or an equals sign, or two hyphens
      alone, refuses its list, wherever it stands; so do more than 16 arguments. */
  lemma UnsafeIsRefused(p: Provider, arguments: seq<string>, i: nat)
    ensures |arguments| > 16 ==> Classified(p, arguments) == Refused
    ensures i < |arguments| && (arguments[i] == "" || Utf8Length(arguments[i]) > 160 || arguments[i] == "--"
                                || '=' in arguments[i] || '\0' in arguments[i] || exists c :: c in arguments[i] && IsSpace(c))
      ==> Classified(p, arguments) == Refused
  {
  }

  lemma ManagedIsAccepted(p: Provider, groups: seq<Group>)
    requires AllWellKinded(p, groups) && Classified(p, Render(groups)).ManagedFresh?
    ensures Accepts(p, groups)
  {
    ParseRendered(p, groups);
  }

  lemma AcceptedIsSound(p: Provider, groups: seq<Group>, i: nat)
    requires Accepts(p, groups) && i < |groups| && groups[i].name == LocalProvider
    ensures Flag(Oss) in groups
  {
    assert Mentions(groups, LocalProvider);
    var j :| 0 <= j < |groups| && groups[j].name == Oss;
    assert WellKinded(p, groups[j]);
  }

  /** A managed list names no option twice, and a local provider only beside the flag for it. */
  lemma ManagedIsSound(p: Provider, groups: seq<Group>, i: nat, j: nat)
    requires AllWellKinded(p, groups) && Classified(p, Render(groups)).ManagedFresh? && i < j < |groups|
    ensures groups[i].name != groups[j].name
    ensures groups[i].name == LocalProvider || groups[j].name == LocalProvider ==> Flag(Oss) in groups
  {
    ManagedIsAccepted(p, groups);
    if groups[i].name == LocalProvider {
      AcceptedIsSound(p, groups, i);
    } else if groups[j].name == LocalProvider {
      AcceptedIsSound(p, groups, j);
    }
  }
}
