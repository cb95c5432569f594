/**
 The recipe checker and the command splitter. Both walk the same fields of a command line; what
 the checker accepts is what the splitter later runs.
 */
module Recipe {
  import opened Wrappers
  import opened GoStrings

  datatype Kind = Web | Terminal | OtherKind(name: string)

  datatype Recipe = Recipe(kind: Kind, cwd: string, install: seq<string>, start: string, port: int,
                           env: map<string, string>)

  datatype CommandError = EmptyCommand | HasToken(token: string) | NoProgram | NotAllowed(program: string)

  datatype RecipeError =
    | BadKind
    | BadCwd
    | TooManyCommands
    | BadInstall(command: string, error: CommandError)
    | MissingStart
    | PortOutOfRange
    | BadStart(error: CommandError)
    | BadEnv(key: string)

  const MAX_INSTALL := 8

  const ALLOWED_PROGRAMS: set<string> := {
    "npm", "npx", "pnpm", "yarn", "bun", "bunx", "node", "deno",
    "pip", "pip3", "python", "python3", "poetry", "uv", "pipenv",
    "streamlit", "uvicorn", "gunicorn", "flask", "gradio",
    "go", "cargo", "make", "bundle", "ruby", "rails",
    "hugo", "jekyll", "mkdocs", "php", "composer", "dotnet",
    "corepack", "env", "true"
  }

  const FORBIDDEN_TOKENS: seq<string> :=
    ["|", "`", "$(", ">", "<", ";", "&&", "||", "sudo", "curl", "wget", "chmod", "eval"]

  /** A leading KEY=VALUE assignment. */
  predicate IsAssignment(f: string) { '=' in f && !HasPrefix(f, "-") }

  /** How many leading fields are assignments. */
  function EnvCount(fs: seq<string>): (n: nat)
    ensures n <= |fs|
    ensures forall i | 0 <= i < n :: IsAssignment(fs[i])
    ensures n < |fs| ==> !IsAssignment(fs[n])
  {
    if fs != [] && IsAssignment(fs[0]) then 1 + EnvCount(fs[1..]) else 0
  }

  /** The first token of the list, in list order, that occurs in c. */
  function FirstToken(c: string, tokens: seq<string>): Option<string> {
    if tokens == [] then None
    else if Contains(c, tokens[0]) then Some(tokens[0])
    else FirstToken(c, tokens[1..])
  }

  /** What the checker decides for a command line. */
  function CommandFault(c: string): Option<CommandError> { FaultOf(c, FORBIDDEN_TOKENS, ALLOWED_PROGRAMS) }

  /** The decision for any token list and any set of programs. */
  function FaultOf(c: string, tokens: seq<string>, programs: set<string>): Option<CommandError> {
    var t := TrimSpace(c);
    var fs := Fields(t);
    var token := FirstToken(t, tokens);
    if t == "" then Some(EmptyCommand)
    else if token.Some? then Some(HasToken(token.value))
    else if EnvCount(fs) >= |fs| then Some(NoProgram)
    else if fs[EnvCount(fs)] !in programs then Some(NotAllowed(fs[EnvCount(fs)]))
    else None
  }

  predicate Accepted(c: string) { CommandFault(c).None? }

  lemma {:induction false} FirstTokenNone(c: string, tokens: seq<string>)
    ensures FirstToken(c, tokens).None? <==> forall t | t in tokens :: !Contains(c, t)
  {
    if tokens != [] {
      FirstTokenNone(c, tokens[1..]);
      assert forall t :: t in tokens <==> t == tokens[0] || t in tokens[1..];
    }
  }

  /** validateCommand. */
  method ValidateCommand(command: string) returns (fault: Option<CommandError>)
    ensures fault == CommandFault(command)
  {
    var c := TrimSpace(command);
    if c == "" {
      return Some(EmptyCommand);
    }
    for k := 0 to |FORBIDDEN_TOKENS|
      invariant FirstToken(c, FORBIDDEN_TOKENS) == FirstToken(c, FORBIDDEN_TOKENS[k..])
    {
      if Contains(c, FORBIDDEN_TOKENS[k]) {
        return Some(HasToken(FORBIDDEN_TOKENS[k]));
      }
      assert FORBIDDEN_TOKENS[k..][1..] == FORBIDDEN_TOKENS[k + 1..];
    }
    var fields := Fields(c);
    var i := 0;
    while i < |fields| && IsAssignment(fields[i])
      invariant 0 <= i <= |fields|
      invariant EnvCount(fields) == i + EnvCount(fields[i..])
    {
      assert fields[i..][1..] == fields[i + 1..];
      i := i + 1;
    }
    if i >= |fields| {
      return Some(NoProgram);
    }
    if fields[i] !in ALLOWED_PROGRAMS {
      return Some(NotAllowed(fields[i]));
    }
    return None;
  }

  datatype Command = Command(env: seq<string>, program: string, args: seq<string>)

  function SplitSpec(c: string): Command {
    var fs := Fields(c);
    var n := EnvCount(fs);
    if n < |fs| then Command(fs[..n], fs[n], fs[n + 1..]) else Command(fs[..n], "", [])
  }

  /** Split: program, arguments and environment of a command line. */
  method Split(c: string) returns (env: seq<string>, program: string, args: seq<string>)
    ensures Command(env, program, args) == SplitSpec(c)
  {
    var fields := Fields(c);
    env, program, args := [], "", [];
    var i := 0;
    while i < |fields| && IsAssignment(fields[i])
      invariant 0 <= i <= |fields|
      invariant EnvCount(fields) == i + EnvCount(fields[i..])
      invariant env == fields[..i]
    {
      assert fields[i..][1..] == fields[i + 1..];
      env := env + [fields[i]];
      i := i + 1;
    }
    if i < |fields| {
      program := fields[i];
      args := fields[i + 1..];
    }
  }

  lemma SplitParts(c: string)
    requires EnvCount(Fields(c)) < |Fields(c)|
    ensures var s := SplitSpec(c); var n := EnvCount(Fields(c));
      && s.env + [s.program] + s.args == Fields(c)
      && (forall e | e in s.env :: IsAssignment(e))
      && s.program == Fields(c)[n] && !IsAssignment(s.program)
  {
    hide Fields, EnvCount, IsAssignment;
    var fs, n := Fields(c), EnvCount(Fields(c));
    assert fs[..n] + [fs[n]] + fs[n + 1..] == fs;
  }

  lemma FaultFreeSplits(c: string, tokens: seq<string>, programs: set<string>)
    requires FaultOf(c, tokens, programs).None?
    ensures var s := SplitSpec(c);
      && s.env + [s.program] + s.args == Fields(c)
      && (forall e | e in s.env :: IsAssignment(e))
      && s.program in programs && !IsAssignment(s.program)
  {
    FieldsTrimSpace(c);
    SplitParts(c);
  }

  /**
   Checker and splitter agree: whatever the checker accepts splits into exactly its own fields,
   with assignments first and an allow-listed program.
   */
  lemma AcceptedSplits(c: string)
    requires Accepted(c)
    ensures var s := SplitSpec(c);
      && s.env + [s.program] + s.args == Fields(c)
      && (forall e | e in s.env :: '=' in e && !HasPrefix(e, "-"))
      && s.program in ALLOWED_PROGRAMS && !IsAssignment(s.program)
  {
    FaultFreeSplits(c, FORBIDDEN_TOKENS, ALLOWED_PROGRAMS);
  }

  lemma FaultFree(c: string, tokens: seq<string>, programs: set<string>)
    requires "" !in programs
    ensures FaultOf(c, tokens, programs).None? <==>
      SplitSpec(c).program in programs && forall t | t in tokens :: !Contains(TrimSpace(c), t)
  {
    FieldsTrimSpace(c);
    FirstTokenNone(TrimSpace(c), tokens);
  }

  /** The checker accepts exactly the lines free of forbidden tokens whose split names an allowed program. */
  lemma AcceptedIff(c: string)
    ensures Accepted(c) <==>
      && SplitSpec(c).program in ALLOWED_PROGRAMS
      && forall t | t in FORBIDDEN_TOKENS :: !Contains(TrimSpace(c), t)
  {
    FaultFree(c, FORBIDDEN_TOKENS, ALLOWED_PROGRAMS);
  }

  lemma {:induction false} FirstTokenIsFirst(c: string, tokens: seq<string>)
    ensures FirstToken(c, tokens).Some? ==>
      exists k | 0 <= k < |tokens| ::
        tokens[k] == FirstToken(c, tokens).value && Contains(c, tokens[k]) && forall j | 0 <= j < k :: !Contains(c, tokens[j])
  {
    if tokens != [] && !Contains(c, tokens[0]) && FirstToken(c, tokens).Some? {
      FirstTokenIsFirst(c, tokens[1..]);
      var k :| 0 <= k < |tokens| - 1 && tokens[1..][k] == FirstToken(c, tokens).value && Contains(c, tokens[1..][k])
        && forall j | 0 <= j < k :: !Contains(c, tokens[1..][j]);
      forall j | 0 <= j < k + 1 ensures !Contains(c, tokens[j]) {
        assert j > 0 ==> tokens[j] == tokens[1..][j - 1];
      }
      assert tokens[k + 1] == tokens[1..][k];
    }
  }

  predicate TokenFree(c: string, tokens: seq<string>) { forall t | t in tokens :: !Contains(c, t) }

  /** A field that sets a variable: it has an equals sign and does not start with a dash. */
  predicate Sets(f: string) { f != "" && '=' in f && f[0] != '-' }

  lemma {:induction false} TrimmedLeft(s: string)
    ensures TrimLeft(s) == "" || !IsSpace(TrimLeft(s)[0])
  {
    if s != "" && IsSpace(s[0]) {
      TrimmedLeft(s[1..]);
    }
  }

  lemma {:induction false} TrimRightKeepsFirst(s: string)
    requires s != "" && !IsSpace(s[0])
    ensures TrimRight(s) != "" && TrimRight(s)[0] == s[0]
  {
    if IsSpace(s[|s| - 1]) {
      TrimRightKeepsFirst(s[..|s| - 1]);
    }
  }

  lemma TrimmedIsEmpty(c: string)
    ensures TrimSpace(c) == "" <==> Fields(c) == []
  {
    FieldsTrimSpace(c);
    TrimmedLeft(c);
    if TrimLeft(c) != "" {
      TrimRightKeepsFirst(TrimLeft(c));
    }
  }

  /** What each fault says, for any tokens and programs. */
  predicate Fits(f: CommandError, c: string, tokens: seq<string>, programs: set<string>) {
    var t, fs := TrimSpace(c), Fields(c);
    match f
    case EmptyCommand => fs == []
    case HasToken(token) =>
      fs != [] && exists k | 0 <= k < |tokens| ::
        tokens[k] == token && Contains(t, tokens[k]) && forall j | 0 <= j < k :: !Contains(t, tokens[j])
    case NoProgram => fs != [] && TokenFree(t, tokens) && forall f | f in fs :: Sets(f)
    case NotAllowed(p) =>
      TokenFree(t, tokens) && p !in programs
      && exists n | 0 <= n < |fs| :: fs[n] == p && !Sets(fs[n]) && forall i | 0 <= i < n :: Sets(fs[i])
  }

  lemma SetsIsAssignment(c: string)
    ensures forall f | f in Fields(c) :: Sets(f) <==> IsAssignment(f)
  {
  }

  lemma FaultFits(c: string, tokens: seq<string>, programs: set<string>)
    ensures FaultOf(c, tokens, programs).Some? ==> Fits(FaultOf(c, tokens, programs).value, c, tokens, programs)
  {
    FieldsTrimSpace(c);
    TrimmedIsEmpty(c);
    SetsIsAssignment(c);
    var t, fs := TrimSpace(c), Fields(c);
    FirstTokenNone(t, tokens);
    FirstTokenIsFirst(t, tokens);
    hide TrimSpace, Fields, FirstToken, IsAssignment, Sets, Contains;
  }

  /**
   Every refusal says exactly why: nothing but white space; the first forbidden token of the list that
   occurs; only assignments; or the first field that is none, when it is no allowed program.
   */
  lemma RefusalsFit(c: string)
    ensures CommandFault(c).Some? ==> Fits(CommandFault(c).value, c, FORBIDDEN_TOKENS, ALLOWED_PROGRAMS)
  {
    FaultFits(c, FORBIDDEN_TOKENS, ALLOWED_PROGRAMS);
  }

  /** Writing a command's parts with single spaces and splitting the line gives the parts back. */
  lemma SplitInvertsSpaced(s: Command)
    requires forall w | w in s.env + [s.program] + s.args :: IsWord(w)
    requires forall e | e in s.env :: '=' in e && e[0] != '-'
    requires '=' !in s.program || s.program[0] == '-'
    ensures SplitSpec(Spaced(s.env + [s.program] + s.args)) == s
  {
    var ws := s.env + [s.program] + s.args;
    forall e | e in s.env ensures IsAssignment(e) {}
    assert s.program in ws;
    FieldsOfSpaced(ws);
    var n := EnvCount(ws);
    assert forall i | 0 <= i < |s.env| :: ws[i] == s.env[i];
    assert ws[|s.env|] == s.program;
    assert ws[..n] == s.env && ws[n + 1..] == s.args;
  }

  // ------------------------------------------------------------- Validate

  predicate GoodEnv(k: string, v: string) {
    k != "" && '=' !in k && ' ' !in k && '\n' !in k && '\n' !in v
  }

  /** What a recipe must satisfy before any of its commands runs. */
  predicate ValidRecipe(r: Recipe) {
    && !r.kind.OtherKind?
    && !HasPrefix(r.cwd, "/") && !Contains(r.cwd, "..")
    && |r.install| <= MAX_INSTALL
    && (forall c | c in r.install :: Accepted(c))
    && (r.kind.Web? ==> r.start != "" && 1 <= r.port <= 65535)
    && (r.start != "" ==> Accepted(r.start))
    && (forall k | k in r.env :: GoodEnv(k, r.env[k]))
  }

  /** The recipe's kind, directory and number of commands. */
  predicate GoodOutline(r: Recipe) {
    !r.kind.OtherKind? && !HasPrefix(r.cwd, "/") && !Contains(r.cwd, "..") && |r.install| <= MAX_INSTALL
  }

  predicate AllAccepted(cmds: seq<string>) { forall c | c in cmds :: Accepted(c) }

  /** What a reported fault says about the recipe: this is wrong, and nothing checked before it is. */
  predicate Explains(e: RecipeError, r: Recipe) {
    match e
    case BadKind => r.kind.OtherKind?
    case BadCwd => !r.kind.OtherKind? && (HasPrefix(r.cwd, "/") || Contains(r.cwd, ".."))
    case TooManyCommands =>
      !r.kind.OtherKind? && !HasPrefix(r.cwd, "/") && !Contains(r.cwd, "..") && |r.install| > MAX_INSTALL
    case BadInstall(c, f) =>
      GoodOutline(r) && exists k | 0 <= k < |r.install| ::
        r.install[k] == c && CommandFault(c) == Some(f) && AllAccepted(r.install[..k])
    case MissingStart => GoodOutline(r) && AllAccepted(r.install) && r.kind.Web? && r.start == ""
    case PortOutOfRange =>
      GoodOutline(r) && AllAccepted(r.install) && r.kind.Web? && r.start != "" && !(1 <= r.port <= 65535)
    case BadStart(f) =>
      && GoodOutline(r) && AllAccepted(r.install) && (r.kind.Web? ==> 1 <= r.port <= 65535)
      && r.start != "" && CommandFault(r.start) == Some(f)
    case BadEnv(k) =>
      && GoodOutline(r) && AllAccepted(r.install) && (r.kind.Web? ==> r.start != "" && 1 <= r.port <= 65535)
      && (r.start != "" ==> Accepted(r.start)) && k in r.env && !GoodEnv(k, r.env[k])
  }

  /** Validate. The environment is scanned in no particular order, as a Go map is. */
  method Validate(r: Recipe) returns (fault: Option<RecipeError>)
    ensures fault.None? <==> ValidRecipe(r)
    ensures fault.Some? ==> Explains(fault.value, r)
  {
    if r.kind.OtherKind? {
      return Some(BadKind);
    }
    if HasPrefix(r.cwd, "/") || Contains(r.cwd, "..") {
      return Some(BadCwd);
    }
    if |r.install| > MAX_INSTALL {
      return Some(TooManyCommands);
    }
    for i := 0 to |r.install|
      invariant AllAccepted(r.install[..i])
    {
      var e := ValidateCommand(r.install[i]);
      assert r.install[..i + 1] == r.install[..i] + [r.install[i]];
      if e.Some? {
        assert r.install[i] in r.install;
        return Some(BadInstall(r.install[i], e.value));
      }
    }
    assert r.install[..|r.install|] == r.install;
    if r.kind.Web? {
      if r.start == "" {
        return Some(MissingStart);
      }
      if r.port < 1 || r.port > 65535 {
        return Some(PortOutOfRange);
      }
    }
    if r.start != "" {
      var e := ValidateCommand(r.start);
      if e.Some? {
        return Some(BadStart(e.value));
      }
    }
    var keys := r.env.Keys;
    while keys != {}
      invariant keys <= r.env.Keys
      invariant forall k | k in r.env.Keys - keys :: GoodEnv(k, r.env[k])
      decreases keys
    {
      var k :| k in keys;
      if !GoodEnv(k, r.env[k]) {
        return Some(BadEnv(k));
      }
      keys := keys - {k};
    }
    return None;
  }

  /** What model.go's Repair promises: an error, or one to eight accepted commands. */
  predicate RepairReply(reply: Option<seq<string>>) {
    reply.Some? ==> 1 <= |reply.value| <= MAX_INSTALL && forall c | c in reply.value :: Accepted(c)
  }
}
