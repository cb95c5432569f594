/**
 What a build does inside its sandbox, between the sandbox being ready and the snapshot: clone,
 inspect, find a recipe, check the tools, install, start and probe. The builder's Work step is
 this; how it ends decides whether the build goes on, fails or is unsupported.
 */
module Pipeline {
  import opened Wrappers
  import R = Recipe
  import P = Probe
  import I = Install

  datatype Phase = Clone | Detect | Installing | Starting

  /** How the work ended. */
  datatype Result =
    | Failed(phase: Phase)
    | Unsupported(phase: Phase)
    | Worked(install: seq<string>, web: bool, port: int)

  /**
   Everything outside: the clone's reply, whether the inspector gave a manifest, the recipe a detector
   or the model found, the programs the sandbox lacks when asked before the install and again before the
   start, and what the two loops meet.
   */
  datatype World = World(
    clone: I.ExecReply,
    inspected: bool,
    recipe: Option<R.Recipe>,
    absent: string -> bool,
    absentLater: string -> bool,
    install: I.Env,
    probe: I.ProbeEnv)

  /** Recipes are validated where they are found, repairs where they are received; time passes. */
  ghost predicate Sound(w: World) {
    && (w.recipe.Some? ==> R.ValidRecipe(w.recipe.value))
    && I.Honest(w.install)
    && I.ClockAdvances(w.probe)
  }

  /** The command's program, if it has one, is not known to be missing. */
  predicate Present(c: string, absent: string -> bool) {
    R.SplitSpec(c).program == "" || !absent(R.SplitSpec(c).program)
  }

  predicate AllPresent(cmds: seq<string>, absent: string -> bool) { forall c | c in cmds :: Present(c, absent) }

  /** missingTools: the first command program that is missing, or "". */
  method MissingTools(cmds: seq<string>, absent: string -> bool) returns (missing: string)
    ensures missing == "" <==> AllPresent(cmds, absent)
    ensures missing != "" ==> exists i | 0 <= i < |cmds| ::
      R.SplitSpec(cmds[i]).program == missing && absent(missing) && AllPresent(cmds[..i], absent)
  {
    hide R.SplitSpec;
    for i := 0 to |cmds|
      invariant AllPresent(cmds[..i], absent)
    {
      var _, prog, _ := R.Split(cmds[i]);
      assert cmds[i] in cmds && cmds[..i + 1] == cmds[..i] + [cmds[i]];
      if prog == "" {
        continue;
      }
      if absent(prog) {
        assert !Present(cmds[i], absent);
        return prog;
      }
    }
    assert cmds[..|cmds|] == cmds;
    return "";
  }

  lemma OnePresent(c: string, absent: string -> bool)
    ensures AllPresent([c], absent) <==> Present(c, absent)
  {
    assert c in [c];
  }

  /** What the install loop comes to. */
  function Installation(w: World): I.Outcome
    requires w.recipe.Some?
  {
    I.Remaining(w.install, w.recipe.value.install, 0, 0, 0)
  }

  /** There is a recipe to install. */
  predicate Detected(w: World) { w.clone == I.Exited(0) && w.inspected && w.recipe.Some? }

  /** The tools were there, and the final list is what exited 0. */
  predicate InstalledAll(w: World) {
    && Detected(w) && AllPresent(w.recipe.value.install, w.absent)
    && I.Succeeded(Installation(w).trace) == Installation(w).final
  }

  /** Where the work stops before the app is started, if it does. */
  function Obstacle(w: World): (stop: Option<Result>)
    ensures stop.None? ==> w.recipe.Some?
  {
    if w.clone != I.Exited(0) then Some(Failed(Clone))
    else if !w.inspected then Some(Failed(Detect))
    else if w.recipe.None? then Some(Unsupported(Detect))
    else if !AllPresent(w.recipe.value.install, w.absent) then Some(Unsupported(Installing))
    else if !Installation(w).verdict.Installed? then Some(Failed(Installing))
    else if w.recipe.value.start != "" && !Present(w.recipe.value.start, w.absentLater) then Some(Unsupported(Starting))
    else None
  }

  /** Some probe saw the port listening, and either it is the hint or the hint was absent and ports were seen before. */
  ghost predicate Settled(env: I.ProbeEnv, hint: int, port: int) {
    exists n: nat :: SettledAt(env, hint, port, n)
  }

  ghost predicate SettledAt(env: I.ProbeEnv, hint: int, port: int, n: nat) {
    && port in I.PortsAt(env, n) && port > 0 && !P.Reserved(port)
    && (port == hint || (&& hint !in I.PortsAt(env, n)
                         && (forall q | q in I.PortsAt(env, n) :: port <= q)
                         && exists j | 0 <= j < n :: I.Saw(env, j)))
  }

  predicate AllAllowed(programs: seq<string>) { forall p | p in programs :: p in R.ALLOWED_PROGRAMS }

  lemma InstallIsAllowed(w: World)
    requires w.recipe.Some? && Sound(w)
    ensures AllAllowed(I.Programs(Installation(w).trace))
  {
    var trace := Installation(w).trace;
    I.OnlyAllowedProgramsLaunch(w.install, w.recipe.value);
    forall p | p in I.Programs(trace) ensures p in R.ALLOWED_PROGRAMS {
      var k :| 0 <= k < |trace| && I.Programs(trace)[k] == p;
      assert trace[k] in trace;
    }
  }

  /** Up to the install: the slice the published recipe keeps sharing, and what stopped the work, if anything. */
  method PrepareRepo(w: World)
      returns (stop: Option<Result>, rcp: I.RecipeRef, published: I.Slice, launched: seq<string>)
    requires w.recipe.Some? && Sound(w)
    ensures published.Valid() && published.Items() == w.recipe.value.install
    ensures fresh(rcp) && rcp.install.Valid()
    ensures AllAllowed(launched)
    ensures stop == if !AllPresent(w.recipe.value.install, w.absent) then Some(Unsupported(Installing))
                    else if !Installation(w).verdict.Installed? then Some(Failed(Installing))
                    else None
    ensures stop.None? ==> rcp.install.Items() == Installation(w).final
  {
    hide R.ValidRecipe, AllAllowed, R.SplitSpec;
    InstallIsAllowed(w);
    assert AllAllowed([]) by { AllowedNone(); }
    launched := [];
    published := I.CopyOf(w.recipe.value.install, 0);
    rcp := new I.RecipeRef(published);
    var missing := MissingTools(w.recipe.value.install, w.absent);
    if missing != "" {
      stop := Some(Unsupported(Installing));
      return;
    }
    label Installing0:
    var verdict;
    ghost var trace;
    verdict, trace, launched := I.RunInstall(w.install, rcp);
    assert published.data[..] == old@Installing0(published.data[..]);
    assert published.Items() == published.data[..][..published.len];
    stop := if verdict.Installed? then None else Some(Failed(Installing));
  }

  lemma AllowedNone()
    ensures AllAllowed([])
  {
  }

  /** Round n is the first one of the probe that does not simply go on. */
  ghost predicate FirstDeciding(env: I.ProbeEnv, hint: int, n: nat) {
    && I.Undecided(env, hint, n)
    && (!I.Continues(env, n) || I.Commits(env, hint, n))
  }

  /** What starting the app comes to, if the probe decides in round n. */
  function Started(w: World, n: nat): I.Decision
    requires w.recipe.Some?
  {
    if w.recipe.value.start == "" then I.TerminalOnly
    else if !w.probe.startOk then I.Broken
    else I.DecisionAt(w.probe, w.recipe.value.port, n)
  }

  function Reported(d: I.Decision, install: seq<string>): Result {
    match d
    case Web(p) => Worked(install, true, p)
    case TerminalOnly => Worked(install, false, 0)
    case Broken => Failed(Starting)
  }

  /**
   What the app's start comes to, in plain terms: a terminal if the recipe has nothing to start, a failure if
   it cannot be started, and else as the probe's first deciding round decides.
   */
  ghost predicate StartedAs(w: World, r: Result, n: nat)
    requires w.recipe.Some?
  {
    var start, hint := w.recipe.value.start, w.recipe.value.port;
    match r
    case Worked(_, true, p) => start != "" && w.probe.startOk && I.Decides(w.probe, hint, n, I.Web(p))
    case Worked(_, false, p) =>
      p == 0 && (start == "" || (w.probe.startOk && I.Decides(w.probe, hint, n, I.TerminalOnly)))
    case Failed(phase) => phase == Starting && start != "" && (!w.probe.startOk || I.Decides(w.probe, hint, n, I.Broken))
    case Unsupported(_) => false
  }

  lemma WebIsSettled(w: World, n: nat)
    requires w.recipe.Some? && Started(w, n).Web?
    ensures Settled(w.probe, w.recipe.value.port, Started(w, n).port)
  {
    var p := Started(w, n).port;
    I.WebMeansSettled(w.probe, w.recipe.value.port, n, p);
    assert SettledAt(w.probe, w.recipe.value.port, p, n);
  }

  /** startAndProbe, and what its decision comes to. */
  method StartApp(w: World, install: seq<string>) returns (r: Result, launched: Option<string>, ghost rounds: nat)
    requires w.recipe.Some? && Sound(w)
    ensures launched.Some? ==> launched.value in R.ALLOWED_PROGRAMS
    ensures r == Reported(Started(w, rounds), install)
    ensures StartedAs(w, r, rounds)
    ensures w.recipe.value.start != "" && w.probe.startOk ==> FirstDeciding(w.probe, w.recipe.value.port, rounds)
  {
    var rcp := w.recipe.value;
    I.OnlyAllowedProgramsLaunch(w.install, rcp);
    hide R.ValidRecipe, R.SplitSpec, I.DecisionAt, I.Continues, I.Commits;
    var decision;
    decision, launched, rounds := I.StartAndProbe(w.probe, rcp.start, rcp.port);
    match decision
    case Web(p) => r := Worked(install, true, p);
    case TerminalOnly => r := Worked(install, false, 0);
    case Broken => r := Failed(Starting);
  }

  /**
   The work of execute. It stops at the first obstacle, for the right reason. If it works, the recipe's
   final install list is exactly the commands that exited 0, in order, and a port it reports was
   settled on. Whatever happens, every program launched is allow-listed, and the recipe published
   before the install still lists what it listed then.
   */
  method Work(w: World)
      returns (r: Result, published: Option<I.Slice>, launched: seq<string>, ghost rounds: nat)
    requires Sound(w)
    ensures Obstacle(w).Some? ==> r == Obstacle(w).value
    ensures Obstacle(w).None? ==>
      && r == Reported(Started(w, rounds), Installation(w).final)
      && (w.recipe.value.start != "" && w.probe.startOk ==> FirstDeciding(w.probe, w.recipe.value.port, rounds))
    ensures r == Failed(Clone) <==> w.clone != I.Exited(0)
    ensures r == Failed(Detect) <==> w.clone == I.Exited(0) && !w.inspected
    ensures r == Unsupported(Detect) <==> w.clone == I.Exited(0) && w.inspected && w.recipe.None?
    ensures r == Unsupported(Installing) <==> Detected(w) && !AllPresent(w.recipe.value.install, w.absent)
    ensures r == Failed(Installing) <==>
      && Detected(w) && AllPresent(w.recipe.value.install, w.absent)
      && I.Succeeded(Installation(w).trace) != Installation(w).final
    ensures r == Unsupported(Starting) <==>
      InstalledAll(w) && w.recipe.value.start != "" && !Present(w.recipe.value.start, w.absentLater)
    ensures r.Worked? || r == Failed(Starting) <==>
      InstalledAll(w) && (w.recipe.value.start == "" || Present(w.recipe.value.start, w.absentLater))
    ensures r.Worked? || r == Failed(Starting) ==> StartedAs(w, r, rounds)
    ensures r.Worked? ==>
      && w.recipe.Some? && r.install == Installation(w).final == I.Succeeded(Installation(w).trace)
      && (if r.web then Settled(w.probe, w.recipe.value.port, r.port) else r.port == 0)
    ensures forall p | p in launched :: p in R.ALLOWED_PROGRAMS
    ensures published.Some? ==>
      w.recipe.Some? && published.value.Valid() && published.value.Items() == w.recipe.value.install
  {
    hide R.ValidRecipe, R.SplitSpec, I.Remaining, I.Succeeded, Settled, FirstDeciding, StartedAs, AllPresent,
      Present;
    published, launched, rounds := None, [], 0;
    if w.clone != I.Exited(0) {
      return Failed(Clone), None, [], 0;
    }
    if !w.inspected {
      return Failed(Detect), None, [], 0;
    }
    if w.recipe.None? {
      return Unsupported(Detect), None, [], 0;
    }
    InstalledMeans(w);
    var stop, rcp, shared;
    stop, rcp, shared, launched := PrepareRepo(w);
    published := Some(shared);
    if stop.Some? {
      r := stop.value;
      return;
    }
    if w.recipe.value.start != "" {
      var missing := MissingTools([w.recipe.value.start], w.absentLater);
      OnePresent(w.recipe.value.start, w.absentLater);
      if missing != "" {
        r := Unsupported(Starting);
        return;
      }
    }
    var started;
    r, started, rounds := StartApp(w, rcp.install.data[..rcp.install.len]);
    if started.Some? {
      launched := launched + [started.value];
    }
    if Started(w, rounds).Web? {
      WebIsSettled(w, rounds);
    }
  }

  lemma InstalledMeans(w: World)
    requires w.recipe.Some? && Sound(w)
    ensures I.Succeeded(Installation(w).trace) == Installation(w).final <==> Installation(w).verdict.Installed?
  {
    I.InstallOutcome(w.install, w.recipe.value.install);
  }
}
