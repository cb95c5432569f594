/**
 The two loops of the build pipeline that rewrite or re-read what they loop over: running install
 commands with repairs, and probing for the port the started app listens on. The sandbox, the
 model and the clock are arbitrary functions of the call number.
 */
module Install {
  import opened Wrappers
  import opened GoStrings
  import R = Recipe
  import P = Probe

  // ------------------------------------------------------------- Go slices

  /** A Go slice: a backing array, whose length is the capacity, and how much of it is in use. */
  datatype Slice = Slice(data: array<string>, len: nat) {
    ghost predicate Valid() reads data { len <= data.Length }
    ghost function Items(): seq<string>
      requires Valid()
      reads data
    {
      data[..len]
    }
  }

  /** append([]string(nil), xs...): a fresh array with some spare capacity. */
  method CopyOf(xs: seq<string>, spare: nat) returns (s: Slice)
    ensures s.Valid() && fresh(s.data) && s.Items() == xs
  {
    var data := new string[|xs| + spare](i => if 0 <= i < |xs| then xs[i] else "");
    s := Slice(data, |xs|);
    assert s.Items() == xs;
  }

  /** append(s[:keep], xs...): in place when the capacity allows, else into a fresh array. */
  method AppendTo(s: Slice, keep: nat, xs: seq<string>, spare: nat) returns (r: Slice)
    requires s.Valid() && keep <= s.len
    modifies s.data
    ensures r.Valid() && r.Items() == old(s.Items()[..keep]) + xs
    ensures r.data == s.data || fresh(r.data)
  {
    ghost var kept := s.data[..keep];
    if keep + |xs| <= s.data.Length {
      for k := 0 to |xs|
        invariant s.data[..keep + k] == kept + xs[..k]
      {
        s.data[keep + k] := xs[k];
      }
      r := Slice(s.data, keep + |xs|);
      assert xs[..|xs|] == xs;
    } else {
      r := CopyOf(s.data[..keep] + xs, spare);
    }
    assert old(s.Items()[..keep]) == kept;
  }

  // --------------------------------------------------------------- install

  datatype ExecReply = ExecFailed | Exited(code: int)

  /** One command sent to the sandbox and what came of it. */
  datatype Run = Run(command: string, reply: ExecReply)

  datatype Verdict =
    | Installed
    | OverBudget
    | ExecError
    | CommandFailed(command: string, code: int)
    | RepairFailed(command: string, code: int)

  /** exec and expired answer the n-th command, repair the n-th request; spare is append's growth. */
  datatype Env = Env(exec: nat -> ExecReply, expired: nat -> bool, hasModel: bool,
                     repair: nat -> Option<seq<string>>, spare: nat)

  /** The model client's promise: an error, or one to eight accepted commands. */
  ghost predicate Honest(env: Env) { forall n :: R.RepairReply(env.repair(n)) }

  const MAX_REPAIRS := 2

  datatype Outcome = Outcome(trace: seq<Run>, final: seq<string>, verdict: Verdict)

  function Before(r: Run, o: Outcome): Outcome { o.(trace := [r] + o.trace) }

  /** What is left to happen with commands cmds, of which i have exited 0, after n commands were run. */
  function Remaining(env: Env, cmds: seq<string>, i: nat, repairs: nat, n: nat): Outcome
    requires i <= |cmds| && repairs <= MAX_REPAIRS
    decreases MAX_REPAIRS - repairs, |cmds| - i
  {
    if i == |cmds| then Outcome([], cmds, Installed)
    else if env.expired(n) then Outcome([], cmds, OverBudget)
    else
      var c := cmds[i];
      var run := Run(c, env.exec(n));
      if run.reply.ExecFailed? then Outcome([run], cmds, ExecError)
      else if run.reply.code == 0 then Before(run, Remaining(env, cmds, i + 1, repairs, n + 1))
      else if !env.hasModel || repairs == MAX_REPAIRS then Outcome([run], cmds, CommandFailed(c, run.reply.code))
      else if env.repair(repairs).None? then Outcome([run], cmds, RepairFailed(c, run.reply.code))
      else Before(run, Remaining(env, cmds[..i] + env.repair(repairs).value, i, repairs + 1, n + 1))
  }

  /** The recipe object the pipeline shares a pointer to. */
  class RecipeRef {
    var install: Slice
    constructor (install: Slice)
      ensures this.install == install
    {
      this.install := install;
    }
  }

  /** The outcome with what has already run put in front. */
  function After(done: seq<Run>, o: Outcome): Outcome { o.(trace := done + o.trace) }

  lemma AfterStep(done: seq<Run>, run: Run, o: Outcome)
    ensures After(done, Before(run, o)) == After(done + [run], o)
  {
    assert done + ([run] + o.trace) == done + [run] + o.trace;
  }

  lemma NothingYet(o: Outcome)
    ensures After([], o) == o && Programs([]) == []
  {
    assert [] + o.trace == o.trace;
  }

  lemma RemainingNone(env: Env, cmds: seq<string>, repairs: nat, done: seq<Run>)
    requires repairs <= MAX_REPAIRS
    ensures After(done, Remaining(env, cmds, |cmds|, repairs, |done|)) == Outcome(done, cmds, Installed)
  {
    assert done + [] == done;
  }

  /** The programs a trace launched. */
  function Programs(trace: seq<Run>): (programs: seq<string>)
    ensures |programs| == |trace|
  {
    seq(|trace|, k requires 0 <= k < |trace| => R.SplitSpec(trace[k].command).program)
  }

  lemma ProgramsSnoc(trace: seq<Run>, run: Run)
    ensures Programs(trace + [run]) == Programs(trace) + [R.SplitSpec(run.command).program]
  {
  }

  /** What one command and its reply lead to: stop with a verdict, or go on with a list from a position. */
  datatype Next = Stop(verdict: Verdict) | GoOn(cmds: seq<string>, i: nat, repairs: nat)

  /** One turn of the loop of builder.install, for a command that was run. */
  function Turn(env: Env, cmds: seq<string>, i: nat, repairs: nat, reply: ExecReply): (next: Next)
    requires i < |cmds| && repairs <= MAX_REPAIRS
    ensures next.GoOn? ==> next.i <= |next.cmds| && next.repairs <= MAX_REPAIRS
  {
    if reply.ExecFailed? then Stop(ExecError)
    else if reply.code == 0 then GoOn(cmds, i + 1, repairs)
    else if !env.hasModel || repairs == MAX_REPAIRS then Stop(CommandFailed(cmds[i], reply.code))
    else if env.repair(repairs).None? then Stop(RepairFailed(cmds[i], reply.code))
    else GoOn(cmds[..i] + env.repair(repairs).value, i, repairs + 1)
  }

  /** Remaining, turn by turn. */
  lemma RemainingTurn(env: Env, cmds: seq<string>, i: nat, repairs: nat, done: seq<Run>)
    requires i < |cmds| && repairs <= MAX_REPAIRS
    ensures var n := |done|; var o := After(done, Remaining(env, cmds, i, repairs, n));
      if env.expired(n) then o == Outcome(done, cmds, OverBudget)
      else
        var run := Run(cmds[i], env.exec(n));
        match Turn(env, cmds, i, repairs, env.exec(n))
        case Stop(v) => o == Outcome(done + [run], cmds, v)
        case GoOn(cmds', i', repairs') => o == After(done + [run], Remaining(env, cmds', i', repairs', n + 1))
  {
    var n := |done|;
    assert done + [] == done;
    if !env.expired(n) {
      var run := Run(cmds[i], env.exec(n));
      match Turn(env, cmds, i, repairs, env.exec(n))
      case Stop(v) =>
      case GoOn(cmds', i', repairs') => AfterStep(done, run, Remaining(env, cmds', i', repairs', n + 1));
    }
  }

  /** The repair branch: the rest of the list is replaced, and the recipe gets its own copy. */
  method Repair(env: Env, rcp: RecipeRef, cmds: Slice, i: nat, fixed: seq<string>) returns (r: Slice)
    requires cmds.Valid() && i < cmds.len && rcp.install.Valid() && rcp.install.data != cmds.data
    modifies rcp, cmds.data
    ensures r.Valid() && rcp.install.Valid() && fresh(rcp.install.data) && rcp.install.data != r.data
    ensures r.data == cmds.data || fresh(r.data)
    ensures r.Items() == old(cmds.Items()[..i]) + fixed && rcp.install.Items() == r.Items()
  {
    r := AppendTo(cmds, i, fixed, env.spare);
    rcp.install := CopyOf(r.data[..r.len], env.spare);
  }

  /**
   builder.install. Only the recipe's own field and fresh arrays are written: the array the field
   had on entry, which the build's published record still shares, is never altered.
   */
  method RunInstall(env: Env, rcp: RecipeRef) returns (verdict: Verdict, ghost trace: seq<Run>, launched: seq<string>)
    requires rcp.install.Valid()
    modifies rcp
    ensures rcp.install.Valid()
    ensures Outcome(trace, rcp.install.Items(), verdict) == Remaining(env, old(rcp.install.Items()), 0, 0, 0)
    ensures old(rcp.install.data)[..] == old(rcp.install.data[..])
    ensures launched == Programs(trace)
  {
    hide R.SplitSpec, Remaining, After, Programs;
    trace, launched := [], [];
    ghost var goal := Remaining(env, rcp.install.Items(), 0, 0, 0);
    NothingYet(goal);
    var cmds := CopyOf(rcp.install.data[..rcp.install.len], env.spare);
    var repairs := 0;
    var i := 0;
    while i < cmds.len
      invariant cmds.Valid() && rcp.install.Valid() && fresh(cmds.data) && cmds.data != rcp.install.data
      invariant 0 <= i <= cmds.len && 0 <= repairs <= MAX_REPAIRS
      invariant rcp.install.Items() == cmds.Items()
      invariant rcp.install.data == old(rcp.install.data) || fresh(rcp.install.data)
      invariant goal == After(trace, Remaining(env, cmds.Items(), i, repairs, |trace|))
      invariant launched == Programs(trace)
      decreases MAX_REPAIRS - repairs, cmds.len - i
    {
      RemainingTurn(env, cmds.Items(), i, repairs, trace);
      var c := cmds.data[i];
      var n := |launched|;
      var envVars, prog, args := R.Split(c);
      if env.expired(n) {
        verdict := OverBudget;
        return;
      }
      var reply := env.exec(n);
      launched := launched + [prog];
      ProgramsSnoc(trace, Run(c, reply));
      trace := trace + [Run(c, reply)];
      if reply.ExecFailed? {
        verdict := ExecError;
        return;
      }
      if reply.code == 0 {
        i := i + 1;
        continue;
      }
      if !env.hasModel || repairs >= MAX_REPAIRS {
        verdict := CommandFailed(c, reply.code);
        return;
      }
      var fixed := env.repair(repairs);
      repairs := repairs + 1;
      if fixed.None? {
        verdict := RepairFailed(c, reply.code);
        return;
      }
      cmds := Repair(env, rcp, cmds, i, fixed.value);
    }
    RemainingNone(env, cmds.Items(), repairs, trace);
    verdict := Installed;
  }

  // -------------------------------------------------- what install promises

  /** The commands of a trace that exited 0, in order. */
  function Succeeded(trace: seq<Run>): seq<string> {
    if trace == [] then []
    else (if trace[0].reply == Exited(0) then [trace[0].command] else []) + Succeeded(trace[1..])
  }

  /** The longest list r repairs can leave: every repair keeps all but the failing command. */
  function Longest(repairs: nat): nat { R.MAX_INSTALL + (R.MAX_INSTALL - 1) * repairs }

  /** How far an outcome has got, for a list of which i commands had exited 0 and r repairs were used. */
  ghost predicate Progress(cmds: seq<string>, i: nat, repairs: nat, o: Outcome)
    requires i <= |cmds|
  {
    && (o.verdict.Installed? ==> o.final == cmds[..i] + Succeeded(o.trace))
    && cmds[..i] + Succeeded(o.trace) <= o.final
    && |o.final| <= Longest(MAX_REPAIRS)
    && |o.trace| - |Succeeded(o.trace)| <= MAX_REPAIRS - repairs + (if o.verdict.Installed? then 0 else 1)
    && (o.verdict.Installed? || |Succeeded(o.trace)| + i < |o.final|)
  }

  lemma SucceededCons(run: Run, trace: seq<Run>)
    ensures Succeeded([run] + trace) == (if run.reply == Exited(0) then [run.command] else []) + Succeeded(trace)
    ensures Succeeded([]) == []
  {
    assert ([run] + trace)[1..] == trace;
  }

  lemma ProgressAfterSuccess(cmds: seq<string>, i: nat, repairs: nat, o: Outcome)
    requires i < |cmds| && Progress(cmds, i + 1, repairs, o)
    ensures Progress(cmds, i, repairs, Before(Run(cmds[i], Exited(0)), o))
  {
    SucceededCons(Run(cmds[i], Exited(0)), o.trace);
    assert cmds[..i + 1] + Succeeded(o.trace) == cmds[..i] + ([cmds[i]] + Succeeded(o.trace));
  }

  lemma ProgressAfterRepair(cmds: seq<string>, i: nat, repairs: nat, run: Run, fixed: seq<string>, o: Outcome)
    requires i < |cmds| && Progress(cmds[..i] + fixed, i, repairs + 1, o) && run.reply != Exited(0)
    ensures Progress(cmds, i, repairs, Before(run, o))
  {
    SucceededCons(run, o.trace);
    assert (cmds[..i] + fixed)[..i] == cmds[..i];
    assert [] + Succeeded(o.trace) == Succeeded(o.trace);
  }

  lemma ProgressAtStop(cmds: seq<string>, i: nat, repairs: nat, o: Outcome)
    requires i <= |cmds| <= Longest(MAX_REPAIRS) && repairs <= MAX_REPAIRS && o.final == cmds
    requires if o.verdict.Installed? then i == |cmds| && o.trace == []
             else i < |cmds| && (o.trace == [] || (|o.trace| == 1 && o.trace[0].reply != Exited(0)))
    ensures Progress(cmds, i, repairs, o)
  {
    if o.trace != [] {
      assert o.trace == [o.trace[0]] + [];
      SucceededCons(o.trace[0], []);
    }
    assert cmds[..i] + [] == cmds[..i];
  }

  lemma {:induction false} InstallKeepsProgress(env: Env, cmds: seq<string>, i: nat, repairs: nat, n: nat)
    requires Honest(env) && i <= |cmds| <= Longest(repairs) && repairs <= MAX_REPAIRS
    ensures Progress(cmds, i, repairs, Remaining(env, cmds, i, repairs, n))
    decreases MAX_REPAIRS - repairs, |cmds| - i
  {
    hide Progress;
    var o := Remaining(env, cmds, i, repairs, n);
    if i == |cmds| || env.expired(n) {
      ProgressAtStop(cmds, i, repairs, o);
      return;
    }
    var run := Run(cmds[i], env.exec(n));
    match Turn(env, cmds, i, repairs, run.reply)
    case Stop(_) => ProgressAtStop(cmds, i, repairs, o);
    case GoOn(cmds', i', repairs') =>
      assert repairs' > repairs ==> R.RepairReply(env.repair(repairs));
      InstallKeepsProgress(env, cmds', i', repairs', n + 1);
      var rest := Remaining(env, cmds', i', repairs', n + 1);
      if repairs' == repairs {
        ProgressAfterSuccess(cmds, i, repairs, rest);
      } else {
        ProgressAfterRepair(cmds, i, repairs, run, env.repair(repairs).value, rest);
      }
  }

  /**
   When install succeeds, the commands that exited 0, in order, are exactly the recipe's final list.
   At most two commands are repaired; at most 24 run; the final list has at most 22. On failure the
   successes are a proper prefix of the list being worked on.
   */
  lemma InstallOutcome(env: Env, cmds: seq<string>)
    requires Honest(env) && |cmds| <= R.MAX_INSTALL
    ensures var o := Remaining(env, cmds, 0, 0, 0);
      && (o.verdict.Installed? <==> Succeeded(o.trace) == o.final)
      && Succeeded(o.trace) <= o.final
      && |o.final| <= 22 && |o.trace| <= 24
      && |o.trace| - |Succeeded(o.trace)| <= 3
  {
    InstallKeepsProgress(env, cmds, 0, 0, 0);
    var o := Remaining(env, cmds, 0, 0, 0);
    assert cmds[..0] + Succeeded(o.trace) == Succeeded(o.trace);
  }

  /** How many commands of a trace did not exit 0. */
  function Failures(trace: seq<Run>): nat {
    if trace == [] then 0 else (if trace[0].reply == Exited(0) then 0 else 1) + Failures(trace[1..])
  }

  /** The last command run failed with a code, and the model was asked and gave a list. */
  ghost predicate LastRepaired(env: Env, repairs: nat, trace: seq<Run>)
    requires trace != [] && repairs + Failures(trace) > 0
  {
    && env.hasModel && repairs + Failures(trace) <= MAX_REPAIRS
    && env.repair(repairs + Failures(trace) - 1).Some?
  }

  /** From the n-th on, the replies are the sandbox's, none past the budget, and only the last one a failure to run. */
  predicate Replies(env: Env, n: nat, trace: seq<Run>)
    decreases |trace|
  {
    trace != [] ==>
      && trace[0].reply == env.exec(n) && !env.expired(n) && (|trace| > 1 ==> trace[0].reply.Exited?)
      && Replies(env, n + 1, trace[1..])
  }

  /** Why a run of install that began with r repairs behind it stopped where it did, before the next command. */
  ghost predicate StoppedFor(env: Env, repairs: nat, next: nat, trace: seq<Run>, verdict: Verdict) {
    if trace == [] then verdict.Installed? || (verdict.OverBudget? && env.expired(next))
    else
      var last := trace[|trace| - 1];
      match verdict
      case Installed => last.reply == Exited(0)
      case OverBudget =>
        && env.expired(next) && last.reply.Exited?
        && (last.reply == Exited(0) || (repairs + Failures(trace) > 0 && LastRepaired(env, repairs, trace)))
      case ExecError => last.reply.ExecFailed?
      case CommandFailed(c, code) =>
        code != 0 && last == Run(c, Exited(code)) && (env.hasModel ==> repairs + Failures(trace) == MAX_REPAIRS + 1)
      case RepairFailed(c, code) =>
        && code != 0 && last == Run(c, Exited(code)) && env.hasModel
        && 0 < repairs + Failures(trace) <= MAX_REPAIRS && env.repair(repairs + Failures(trace) - 1).None?
  }

  lemma RepliesCons(env: Env, n: nat, run: Run, trace: seq<Run>)
    requires Replies(env, n + 1, trace) && run.reply == env.exec(n) && !env.expired(n) && run.reply.Exited?
    ensures Replies(env, n, [run] + trace)
  {
    assert ([run] + trace)[1..] == trace;
  }

  lemma FailuresCons(run: Run, trace: seq<Run>)
    ensures Failures([run] + trace) == Failures(trace) + if run.reply == Exited(0) then 0 else 1
  {
    assert ([run] + trace)[1..] == trace;
  }

  lemma StoppedCons(env: Env, repairs: nat, repairs': nat, next: nat, run: Run, o: Outcome)
    requires run.reply.Exited?
    requires if run.reply == Exited(0) then repairs' == repairs
             else && repairs' == repairs + 1 <= MAX_REPAIRS && env.hasModel && env.repair(repairs).Some?
                  && (o.verdict.Installed? ==> o.trace != [])
    requires StoppedFor(env, repairs', next, o.trace, o.verdict)
    ensures StoppedFor(env, repairs, next, [run] + o.trace, o.verdict)
  {
    FailuresCons(run, o.trace);
    var all := [run] + o.trace;
    if o.trace == [] {
      assert all[|all| - 1] == run && Failures(o.trace) == 0;
    } else {
      assert all[|all| - 1] == o.trace[|o.trace| - 1];
    }
    hide Failures;
  }

  /**
   On any run, install stops for exactly the reason it reports: the budget was spent before the next
   command, the sandbox failed to run the last one, or the last one exited with that code and no model was
   there to ask, both repairs were spent, or the model had no answer. It succeeds only after a command that
   exited 0, and no command was run after the budget was spent or after one that could not be run.
   */
  lemma {:induction false} InstallStopsFor(env: Env, cmds: seq<string>, i: nat, repairs: nat, n: nat)
    requires Honest(env) && i <= |cmds| && repairs <= MAX_REPAIRS
    ensures var o := Remaining(env, cmds, i, repairs, n);
      && Replies(env, n, o.trace) && StoppedFor(env, repairs, n + |o.trace|, o.trace, o.verdict)
      && (o.trace == [] && o.verdict.Installed? ==> i == |cmds|)
    decreases MAX_REPAIRS - repairs, |cmds| - i
  {
    hide StoppedFor, Replies;
    if i == |cmds| || env.expired(n) {
      StopsBefore(env, cmds, i, repairs, n);
    } else {
      match Turn(env, cmds, i, repairs, env.exec(n))
      case Stop(_) => StopsAt(env, cmds, i, repairs, n);
      case GoOn(cmds', i', repairs') =>
        assert repairs' > repairs ==> R.RepairReply(env.repair(repairs));
        InstallStopsFor(env, cmds', i', repairs', n + 1);
        var run, rest := Run(cmds[i], env.exec(n)), Remaining(env, cmds', i', repairs', n + 1);
        RepliesCons(env, n, run, rest.trace);
        StoppedCons(env, repairs, repairs', n + 1 + |rest.trace|, run, rest);
    }
  }

  lemma StopsBefore(env: Env, cmds: seq<string>, i: nat, repairs: nat, n: nat)
    requires i <= |cmds| && repairs <= MAX_REPAIRS && (i == |cmds| || env.expired(n))
    ensures var o := Remaining(env, cmds, i, repairs, n);
      && Replies(env, n, o.trace) && StoppedFor(env, repairs, n + |o.trace|, o.trace, o.verdict)
      && o.trace == [] && (o.verdict.Installed? ==> i == |cmds|)
  {
  }

  lemma StopsAt(env: Env, cmds: seq<string>, i: nat, repairs: nat, n: nat)
    requires i < |cmds| && repairs <= MAX_REPAIRS && !env.expired(n) && Turn(env, cmds, i, repairs, env.exec(n)).Stop?
    ensures var o := Remaining(env, cmds, i, repairs, n);
      Replies(env, n, o.trace) && o.trace != [] && StoppedFor(env, repairs, n + |o.trace|, o.trace, o.verdict)
  {
    var run := Run(cmds[i], env.exec(n));
    assert [run] == [run] + [];
    FailuresCons(run, []);
  }

  /** One list comes from another by the model's answers, each in place of some command and all after it. */
  ghost predicate Edited(env: Env, cmds: seq<string>, from: nat, to: nat, final: seq<string>)
    decreases to - from
  {
    if from >= to then final == cmds
    else
      && env.repair(from).Some?
      && exists k | 0 <= k < |cmds| :: Edited(env, cmds[..k] + env.repair(from).value, from + 1, to, final)
  }

  /** The failures of an outcome that were repaired: all, but for the one it stopped at. */
  function Repaired(o: Outcome): nat {
    if o.verdict.Installed? || o.verdict.OverBudget? || Failures(o.trace) == 0 then Failures(o.trace)
    else Failures(o.trace) - 1
  }

  /**
   The final list is the recipe's, with the model's answers and nothing else put in, in the order they were
   given, each in place of the command that failed and all after it.
   */
  lemma {:induction false} InstallEdits(env: Env, cmds: seq<string>, i: nat, repairs: nat, n: nat)
    requires i <= |cmds| && repairs <= MAX_REPAIRS
    ensures var o := Remaining(env, cmds, i, repairs, n);
      && Edited(env, cmds, repairs, repairs + Repaired(o), o.final)
      && (!(o.verdict.Installed? || o.verdict.OverBudget?) ==> Failures(o.trace) > 0)
    decreases MAX_REPAIRS - repairs, |cmds| - i
  {
    hide Edited;
    Unedited(env, cmds, repairs);
    var o := Remaining(env, cmds, i, repairs, n);
    if i < |cmds| && !env.expired(n) {
      var run := Run(cmds[i], env.exec(n));
      match Turn(env, cmds, i, repairs, env.exec(n))
      case Stop(_) =>
        assert o.trace == [run] + [];
        FailuresCons(run, []);
      case GoOn(cmds', i', repairs') =>
        var rest := Remaining(env, cmds', i', repairs', n + 1);
        InstallEdits(env, cmds', i', repairs', n + 1);
        FailuresCons(run, rest.trace);
        if repairs' > repairs {
          EditedAt(env, cmds, i, repairs, repairs + Repaired(o), o.final);
        }
    }
  }

  lemma EditedAt(env: Env, cmds: seq<string>, k: nat, from: nat, to: nat, final: seq<string>)
    requires from < to && env.repair(from).Some? && k < |cmds|
    requires Edited(env, cmds[..k] + env.repair(from).value, from + 1, to, final)
    ensures Edited(env, cmds, from, to, final)
  {
  }

  lemma Unedited(env: Env, cmds: seq<string>, from: nat)
    ensures Edited(env, cmds, from, from, cmds)
  {
  }

  /** k commands in a row that exit 0. */
  lemma {:induction false} Stretch(env: Env, cmds: seq<string>, i: nat, k: nat, repairs: nat, n: nat)
    requires i + k <= |cmds| && repairs <= MAX_REPAIRS
    requires forall j | n <= j < n + k :: !env.expired(j) && env.exec(j) == Exited(0)
    ensures var a, b := Remaining(env, cmds, i, repairs, n), Remaining(env, cmds, i + k, repairs, n + k);
      a.verdict == b.verdict && a.final == b.final && |a.trace| == |b.trace| + k
    decreases k
  {
    if k > 0 {
      Stretch(env, cmds, i + 1, k - 1, repairs, n + 1);
    }
  }

  /** The last command of a list of which the others succeed, and whose failure the model repairs. */
  lemma FailAtEnd(env: Env, cmds: seq<string>, i: nat, repairs: nat, n: nat)
    requires i < |cmds| && repairs < MAX_REPAIRS && env.hasModel && env.repair(repairs).Some?
    requires var last := n + |cmds| - 1 - i;
      && (forall j | n <= j < last :: !env.expired(j) && env.exec(j) == Exited(0))
      && !env.expired(last) && env.exec(last) == Exited(1)
    ensures var a := Remaining(env, cmds, i, repairs, n); var k := |cmds| - 1;
      var b := Remaining(env, cmds[..k] + env.repair(repairs).value, k, repairs + 1, n + |cmds| - i);
      a.verdict == b.verdict && a.final == b.final && |a.trace| == |b.trace| + |cmds| - i
  {
    Stretch(env, cmds, i, |cmds| - 1 - i, repairs, n);
  }

  /** A model that always answers with eight commands, in a sandbox where the 8th and the 16th run fail. */
  function WorstCase(c: string): Env {
    Env(n => Exited(if n == 7 || n == 15 then 1 else 0), n => false, true, r => Some(seq(8, _ => c)), 0)
  }

  /** The bounds of InstallOutcome are reached, so the final list can be longer than a valid recipe's. */
  lemma InstallBoundsAreReached(c: string)
    requires R.Accepted(c)
    ensures var o := Remaining(WorstCase(c), seq(8, _ => c), 0, 0, 0);
      Honest(WorstCase(c)) && o.verdict.Installed? && |o.final| == 22 && |o.trace| == 24
  {
    hide R.CommandFault;
    var env, eight := WorstCase(c), seq(8, _ => c);
    FailAtEnd(env, eight, 0, 0, 0);
    var second := eight[..7] + eight;
    FailAtEnd(env, second, 7, 1, 8);
    var third := second[..14] + eight;
    Stretch(env, third, 14, 8, 2, 16);
  }

  /** Model repairs included, only accepted commands run, and only they end up in the recipe. */
  lemma {:induction false} InstallRunsAcceptedCommands(env: Env, cmds: seq<string>, i: nat, repairs: nat, n: nat)
    requires Honest(env) && i <= |cmds| && repairs <= MAX_REPAIRS
    requires forall c | c in cmds :: R.Accepted(c)
    ensures var o := Remaining(env, cmds, i, repairs, n);
      && (forall run | run in o.trace :: R.Accepted(run.command))
      && (forall c | c in o.final :: R.Accepted(c))
    decreases MAX_REPAIRS - repairs, |cmds| - i
  {
    hide R.CommandFault;
    if i < |cmds| && !env.expired(n) {
      assert cmds[i] in cmds;
      match Turn(env, cmds, i, repairs, env.exec(n))
      case Stop(_) =>
      case GoOn(cmds', i', repairs') =>
        assert repairs' > repairs ==> R.RepairReply(env.repair(repairs));
        InstallRunsAcceptedCommands(env, cmds', i', repairs', n + 1);
    }
  }

  /** For a valid recipe, every program install or start launches is on the allow-list, on any run. */
  lemma OnlyAllowedProgramsLaunch(env: Env, r: R.Recipe)
    requires Honest(env) && R.ValidRecipe(r)
    ensures forall run | run in Remaining(env, r.install, 0, 0, 0).trace ::
      R.SplitSpec(run.command).program in R.ALLOWED_PROGRAMS
    ensures r.start != "" ==> R.SplitSpec(r.start).program in R.ALLOWED_PROGRAMS
  {
    InstallRunsAcceptedCommands(env, r.install, 0, 0, 0);
    forall run | run in Remaining(env, r.install, 0, 0, 0).trace
      ensures R.SplitSpec(run.command).program in R.ALLOWED_PROGRAMS
    {
      R.AcceptedSplits(run.command);
    }
    if r.start != "" {
      R.AcceptedSplits(r.start);
    }
  }

  // ----------------------------------------------------------------- probe

  /** What startAndProbe reports. */
  datatype Decision = Web(port: int) | TerminalOnly | Broken

  /**
   output is the n-th probe's stdout, None when the exec failed; now is the clock at the end of the
   n-th round, which every round's pause moves on.
   */
  datatype ProbeEnv = ProbeEnv(startOk: bool, output: nat -> Option<string>, now: nat -> int, deadline: int,
                               cancelled: nat -> bool)

  ghost predicate ClockAdvances(env: ProbeEnv) { forall m: nat, n: nat | m < n :: env.now(m) < env.now(n) }

  function PortsAt(env: ProbeEnv, n: nat): seq<int> {
    if env.output(n).Some? then P.Listening(Lines(env.output(n).value)) else []
  }

  predicate Saw(env: ProbeEnv, n: nat) { PortsAt(env, n) != [] }

  /** Some round before the n-th saw a port. */
  predicate SawBefore(env: ProbeEnv, n: nat) { Earlier((k: nat) => Saw(env, k), n) }

  predicate Earlier(saw: nat -> bool, n: nat) { n > 0 && (saw(n - 1) || Earlier(saw, n - 1)) }

  /** Round n settles the matter: the hint listens, or something does and an earlier round saw something too. */
  predicate Commits(env: ProbeEnv, hint: int, n: nat) {
    hint in PortsAt(env, n) || (Saw(env, n) && SawBefore(env, n))
  }

  lemma {:induction false} EarlierMeans(saw: nat -> bool, n: nat)
    ensures Earlier(saw, n) <==> exists j | 0 <= j < n :: saw(j)
  {
    if n > 0 {
      EarlierMeans(saw, n - 1);
    }
  }

  lemma SawBeforeMeans(env: ProbeEnv, n: nat)
    ensures SawBefore(env, n) <==> exists j | 0 <= j < n :: Saw(env, j)
  {
    hide Saw;
    var saw := (k: nat) => Saw(env, k);
    EarlierMeans(saw, n);
    if j: nat :| j < n && Saw(env, j) {
      assert saw(j);
    }
    if j: nat :| j < n && saw(j) {
      assert Saw(env, j);
    }
  }

  /** The choice among a round's ports: positive exactly when there are any, the hint exactly when it listens. */
  lemma ChoiceAt(env: ProbeEnv, hint: int, n: nat)
    ensures var port := P.Chosen(hint, PortsAt(env, n));
      && (port > 0 <==> Saw(env, n))
      && (port > 0 ==> port in PortsAt(env, n))
      && (port > 0 ==> (port == hint <==> hint in PortsAt(env, n)))
      && (hint !in PortsAt(env, n) ==> forall q | q in PortsAt(env, n) :: port <= q)
      && (forall q | q in PortsAt(env, n) :: q > 0 && !P.Reserved(q))
  {
    var ports := PortsAt(env, n);
    if env.output(n).Some? {
      P.ListedPortsAreUsable(Lines(env.output(n).value));
    }
    P.ChosenMeaning(hint, ports);
    if ports != [] {
      assert ports[0] in ports;
    }
  }

  /** A round that neither fails nor passes the deadline nor is cancelled. */
  predicate Continues(env: ProbeEnv, n: nat) {
    env.output(n).Some? && env.now(n) <= env.deadline && !env.cancelled(n)
  }

  /** The decision, if round n is the one that makes it. */
  function DecisionAt(env: ProbeEnv, hint: int, n: nat): Decision {
    if env.output(n).None? then Broken
    else if Commits(env, hint, n) then Web(P.Chosen(hint, PortsAt(env, n)))
    else if env.now(n) > env.deadline then TerminalOnly
    else Broken
  }

  /** The first deciding round in plain terms: what every round before it lacked, and what it came to. */
  ghost predicate Decides(env: ProbeEnv, hint: int, n: nat, d: Decision) {
    var twice := Saw(env, n) && exists j | 0 <= j < n :: Saw(env, j);
    && (forall j | 0 <= j < n ::
          env.output(j).Some? && hint !in PortsAt(env, j) && env.now(j) <= env.deadline && !env.cancelled(j))
    && (forall j, k | 0 <= j < k < n :: !(Saw(env, j) && Saw(env, k)))
    && if hint in PortsAt(env, n) then d == Web(hint)
       else if twice then d.Web? && d.port in PortsAt(env, n) && forall q | q in PortsAt(env, n) :: d.port <= q
       else if env.output(n).None? then d == Broken
       else if env.now(n) > env.deadline then d == TerminalOnly
       else d == Broken && env.cancelled(n)
  }

  /** One turn of the probe loop; settle says whether an earlier turn saw a port. */
  method ProbeRound(env: ProbeEnv, hint: int, n: nat, settle: bool) returns (decided: Option<Decision>, settled: bool)
    requires settle == SawBefore(env, n)
    ensures decided.None? ==> Continues(env, n) && !Commits(env, hint, n) && settled == SawBefore(env, n + 1)
    ensures decided.Some? ==>
      (!Continues(env, n) || Commits(env, hint, n)) && decided.value == DecisionAt(env, hint, n)
  {
    settled := settle;
    if env.output(n).None? {
      return Some(Broken), settled;
    }
    var listening := P.ParseListening(env.output(n).value);
    var port := P.ChoosePort(hint, listening);
    ChoiceAt(env, hint, n);
    if port > 0 {
      if port == hint || settle {
        return Some(Web(port)), settled;
      }
      settled := true;
    }
    if env.now(n) > env.deadline {
      return Some(TerminalOnly), settled;
    }
    if env.cancelled(n) {
      return Some(Broken), settled;
    }
    return None, settled;
  }

  /** No round before n decides. */
  ghost predicate Undecided(env: ProbeEnv, hint: int, n: nat) {
    forall j | 0 <= j < n :: Continues(env, j) && !Commits(env, hint, j)
  }

  lemma StillUndecided(env: ProbeEnv, hint: int, n: nat)
    requires Undecided(env, hint, n) && Continues(env, n) && !Commits(env, hint, n)
    ensures Undecided(env, hint, n + 1)
  {
  }

  /** The probe loop: it stops, for time passes, and the first round that decides is the one that does. */
  method ProbeLoop(env: ProbeEnv, hint: int) returns (decision: Decision, ghost rounds: nat)
    requires ClockAdvances(env)
    ensures Undecided(env, hint, rounds) && (!Continues(env, rounds) || Commits(env, hint, rounds))
    ensures decision == DecisionAt(env, hint, rounds)
  {
    assert Undecided(env, hint, 0) && !SawBefore(env, 0);
    hide Undecided, Commits, Continues, SawBefore, DecisionAt;
    var settle := false;
    var n := 0;
    while true
      invariant Undecided(env, hint, n)
      invariant settle == SawBefore(env, n)
      decreases env.deadline - env.now(n)
    {
      var decided;
      decided, settle := ProbeRound(env, hint, n, settle);
      if decided.Some? {
        return decided.value, n;
      }
      assert env.now(n) <= env.deadline by { InTime(env, n); }
      StillUndecided(env, hint, n);
      n := n + 1;
    }
  }

  lemma InTime(env: ProbeEnv, n: nat)
    requires Continues(env, n)
    ensures env.now(n) <= env.deadline
  {
  }

  /**
   builder.startAndProbe: the decision is that of the first round that does not simply go on, and
   launched is the program of the start command, if one was started.
   */
  method StartAndProbe(env: ProbeEnv, start: string, hint: int)
      returns (decision: Decision, launched: Option<string>, ghost rounds: nat)
    requires ClockAdvances(env)
    ensures start == "" ==> decision == TerminalOnly && launched == None
    ensures start != "" ==> launched == Some(R.SplitSpec(start).program)
    ensures start != "" && !env.startOk ==> decision == Broken
    ensures start != "" && env.startOk ==>
      && Undecided(env, hint, rounds) && (!Continues(env, rounds) || Commits(env, hint, rounds))
      && decision == DecisionAt(env, hint, rounds)
      && Decides(env, hint, rounds, decision)
  {
    hide *;
    rounds := 0;
    if start == "" {
      return TerminalOnly, None, 0;
    }
    var envVars, prog, args := R.Split(start);
    launched := Some(prog);
    if !env.startOk {
      decision := Broken;
      return;
    }
    decision, rounds := ProbeLoop(env, hint);
    DecisionMeans(env, hint, rounds);
  }

  /**
   Probe decision: a build is served on port p only if p listens at the last probe and is the hint,
   or is that probe's lowest port with the hint absent and something seen before as well.
   */
  lemma WebMeansSettled(env: ProbeEnv, hint: int, n: nat, p: int)
    requires DecisionAt(env, hint, n) == Web(p)
    ensures p in PortsAt(env, n) && p > 0 && !P.Reserved(p)
    ensures p == hint || (&& hint !in PortsAt(env, n)
                          && (forall q | q in PortsAt(env, n) :: p <= q)
                          && exists j | 0 <= j < n :: Saw(env, j))
  {
    ChoiceAt(env, hint, n);
    SawBeforeMeans(env, n);
  }

  lemma SeenTwiceCommits(env: ProbeEnv, hint: int, j: nat, k: nat)
    requires j < k && Saw(env, j) && Saw(env, k)
    ensures Commits(env, hint, k)
  {
    SawBeforeMeans(env, k);
    hide Saw, SawBefore, PortsAt;
  }

  /** A round that does not commit has not seen the hint. */
  lemma NoHint(env: ProbeEnv, hint: int, n: nat)
    requires !Commits(env, hint, n)
    ensures hint !in PortsAt(env, n)
  {
  }

  lemma NotSeenTwice(env: ProbeEnv, hint: int, n: nat)
    requires Undecided(env, hint, n)
    ensures forall j | 0 <= j < n ::
      env.output(j).Some? && hint !in PortsAt(env, j) && env.now(j) <= env.deadline && !env.cancelled(j)
    ensures forall j, k | 0 <= j < k < n :: !(Saw(env, j) && Saw(env, k))
  {
    forall j | 0 <= j < n
      ensures env.output(j).Some? && hint !in PortsAt(env, j) && env.now(j) <= env.deadline && !env.cancelled(j)
    {
      assert Continues(env, j);
      NoHint(env, hint, j);
    }
    forall j: nat, k: nat | j < k < n ensures !(Saw(env, j) && Saw(env, k)) {
      hide Saw, PortsAt, Commits, Continues;
      if Saw(env, j) && Saw(env, k) {
        SeenTwiceCommits(env, hint, j, k);
      }
    }
    hide Saw, PortsAt, SawBefore;
  }

  /**
   The probe decides as it should: in its first deciding round a listening hint is served; failing that, the
   lowest port of a second sighting; failing that, a failed probe breaks the build, a passed deadline makes
   it a terminal, and only a cancelled build is broken in time.
   */
  lemma DecisionMeans(env: ProbeEnv, hint: int, n: nat)
    requires Undecided(env, hint, n) && (!Continues(env, n) || Commits(env, hint, n))
    ensures Decides(env, hint, n, DecisionAt(env, hint, n))
  {
    hide P.Chosen, P.Listening;
    NotSeenTwice(env, hint, n);
    ChoiceAt(env, hint, n);
    SawBeforeMeans(env, n);
    hide Undecided, SawBefore;
  }

  lemma GaveUpAt(env: ProbeEnv, hint: int, n: nat)
    requires DecisionAt(env, hint, n) == TerminalOnly
    ensures env.now(n) > env.deadline && !Commits(env, hint, n)
  {
    hide Commits;
  }

  lemma NoneCommitted(env: ProbeEnv, hint: int, n: nat)
    requires Undecided(env, hint, n) && !Commits(env, hint, n)
    ensures forall j | 0 <= j <= n :: !Commits(env, hint, j)
  {
    hide Commits, Continues;
  }

  /** Giving up means time ran out with the hint never up and at most one probe seeing anything at all. */
  lemma TerminalMeansNothingSettled(env: ProbeEnv, hint: int, n: nat)
    requires Undecided(env, hint, n) && DecisionAt(env, hint, n) == TerminalOnly
    ensures env.now(n) > env.deadline
    ensures forall j | 0 <= j <= n :: hint !in PortsAt(env, j)
    ensures forall j, k | 0 <= j < k <= n :: !(Saw(env, j) && Saw(env, k))
  {
    hide *;
    GaveUpAt(env, hint, n);
    NoneCommitted(env, hint, n);
    forall j | 0 <= j <= n ensures hint !in PortsAt(env, j) {
      NoHint(env, hint, j);
    }
    forall j: nat, k: nat | j < k <= n ensures !(Saw(env, j) && Saw(env, k)) {
      if Saw(env, j) && Saw(env, k) {
        SeenTwiceCommits(env, hint, j, k);
      }
    }
  }
}
