/**
 A build's run and its event log together: what a subscriber may conclude when its channel closes. The
 builder and the log of its pipeline e move independently, except that the pipeline's finishing of its
 log is the log's Finish, and that it prints the log before it stores its verdict, and with it.
 */
module BuildStream {
  import B = BuildMachine
  import F = FanoutProtocol
  import L = BuildLog
  import opened Wrappers

  /** printed: the events pipeline e last printed; saved: those whose printing is stored with its verdict. */
  datatype Joint<T> = Joint(builder: B.State, log: F.State<T>, printed: Option<seq<T>>, saved: Option<seq<T>>)

  datatype Move<T> = Building(act: B.Action) | Logging(ev: F.Action<T>) | Printing | Finishing

  /** The pipeline stores its verdict, and the text with it. */
  predicate Decides(e: nat, a: B.Action) { a == B.Own(e, B.Publish) || a == B.Own(e, B.RecordFailure) }

  /** All that is left before the verdict is stored. */
  predicate MayPrint(s: B.State, e: nat) {
    e < |s.pipes| && (s.pipes[e].pc.Publishing? || s.pipes[e].pc.Failing?)
  }

  function OwnFinish(e: nat): B.Action { B.Own(e, B.FinishLog) }

  predicate CanMove<T>(j: Joint<T>, e: nat, m: Move<T>) {
    match m
    case Building(a) => B.Enabled(j.builder, a) && a != OwnFinish(e) && (Decides(e, a) ==> j.printed.Some?)
    case Printing => MayPrint(j.builder, e)
    case Logging(a) => F.Enabled(j.log, a) && !a.Finish?
    case Finishing => B.Enabled(j.builder, OwnFinish(e))
  }

  function Moved<T>(j: Joint<T>, e: nat, m: Move<T>): Joint<T>
    requires CanMove(j, e, m)
  {
    match m
    case Building(a) =>
      j.(builder := B.Apply(j.builder, a), saved := if Decides(e, a) then j.printed else j.saved)
    case Printing => j.(printed := Some(j.log.events))
    case Logging(a) => j.(log := F.Apply(j.log, a))
    case Finishing => j.(builder := B.Apply(j.builder, OwnFinish(e)), log := F.Apply(j.log, F.Finish))
  }

  predicate CanRun<T>(j: Joint<T>, e: nat, ms: seq<Move<T>>)
    decreases |ms|
  {
    ms == [] || (CanMove(j, e, ms[0]) && CanRun(Moved(j, e, ms[0]), e, ms[1..]))
  }

  function Run<T>(j: Joint<T>, e: nat, ms: seq<Move<T>>): Joint<T>
    requires CanRun(j, e, ms)
    decreases |ms|
  {
    if ms == [] then j else Run(Moved(j, e, ms[0]), e, ms[1..])
  }

  /** The builder's own part of a joint run, and the log's. */
  function BuilderPart<T>(e: nat, ms: seq<Move<T>>): seq<B.Action> {
    if ms == [] then []
    else (match ms[0] case Building(a) => [a] case Finishing => [OwnFinish(e)] case _ => [])
         + BuilderPart(e, ms[1..])
  }

  function LogPart<T>(ms: seq<Move<T>>): seq<F.Action<T>> {
    if ms == [] then []
    else (match ms[0] case Logging(a) => [a] case Finishing => [F.Finish] case _ => []) + LogPart(ms[1..])
  }

  lemma ConsBuilder(s: B.State, a: B.Action, rest: seq<B.Action>)
    requires B.Enabled(s, a) && B.Executable(B.Apply(s, a), rest)
    ensures B.Executable(s, [a] + rest) && B.Exec(s, [a] + rest) == B.Exec(B.Apply(s, a), rest)
  {
    hide B.Enabled, B.Apply;
    assert ([a] + rest)[1..] == rest;
  }

  lemma ConsLog<T>(s: F.State<T>, a: F.Action<T>, rest: seq<F.Action<T>>)
    requires F.Enabled(s, a) && F.Executable(F.Apply(s, a), rest)
    ensures F.Executable(s, [a] + rest) && F.Exec(s, [a] + rest) == F.Exec(F.Apply(s, a), rest)
  {
    hide F.Enabled, F.Apply;
    assert ([a] + rest)[1..] == rest;
  }

  /** Each part of a joint run is a run of its own machine. */
  lemma {:induction false} PartsRun<T>(j: Joint<T>, e: nat, ms: seq<Move<T>>)
    requires CanRun(j, e, ms)
    ensures B.Executable(j.builder, BuilderPart(e, ms)) && F.Executable(j.log, LogPart(ms))
    ensures Run(j, e, ms).builder == B.Exec(j.builder, BuilderPart(e, ms))
    ensures Run(j, e, ms).log == F.Exec(j.log, LogPart(ms))
    decreases |ms|
  {
    hide B.Enabled, B.Apply, F.Apply, B.Exec, F.Exec, B.Executable, F.Executable;
    if ms == [] {
      EmptyRuns(j.builder, j.log);
      return;
    }
    var rest := ms[1..];
    PartsRun(Moved(j, e, ms[0]), e, rest);
    match ms[0]
    case Building(a) =>
      ConsBuilder(j.builder, a, BuilderPart(e, rest));
      assert [] + LogPart(rest) == LogPart(rest);
    case Logging(a) =>
      ConsLog(j.log, a, LogPart(rest));
      assert [] + BuilderPart(e, rest) == BuilderPart(e, rest);
    case Printing =>
      assert [] + LogPart(rest) == LogPart(rest) && [] + BuilderPart(e, rest) == BuilderPart(e, rest);
    case Finishing =>
      ConsBuilder(j.builder, OwnFinish(e), BuilderPart(e, rest));
      ConsLog(j.log, F.Finish, LogPart(rest));
  }

  lemma EmptyRuns<T>(s: B.State, l: F.State<T>)
    ensures B.Executable(s, []) && B.Exec(s, []) == s && F.Executable(l, []) && F.Exec(l, []) == l
  {
  }

  lemma {:induction false} RunConcat<T>(j: Joint<T>, e: nat, a: seq<Move<T>>, b: seq<Move<T>>)
    requires CanRun(j, e, a + b)
    ensures CanRun(j, e, a) && CanRun(Run(j, e, a), e, b) && Run(Run(j, e, a), e, b) == Run(j, e, a + b)
    decreases |a|
  {
    hide CanMove, Moved;
    if a == [] {
      assert a + b == b;
    } else {
      assert (a + b)[0] == a[0] && (a + b)[1..] == a[1..] + b;
      RunConcat(Moved(j, e, a[0]), e, a[1..], b);
    }
  }

  lemma RunSplit<T>(j: Joint<T>, e: nat, ms: seq<Move<T>>, n: nat)
    requires CanRun(j, e, ms) && n <= |ms|
    ensures CanRun(j, e, ms[..n]) && CanRun(Run(j, e, ms[..n]), e, ms[n..])
    ensures Run(Run(j, e, ms[..n]), e, ms[n..]) == Run(j, e, ms)
  {
    assert ms == ms[..n] + ms[n..];
    hide CanRun, Run;
    RunConcat(j, e, ms[..n], ms[n..]);
  }

  /** The builder and the log agree on whether the log is finished. */
  predicate SameLog<T>(j: Joint<T>, e: nat) { j.log.done <==> e < |j.builder.pipes| && j.builder.pipes[e].logDone }

  /** A builder action changes whether pipeline e has finished its log only if it is that pipeline's own finish. */
  lemma LogDoneMoves(s: B.State, e: nat, a: B.Action)
    requires B.Enabled(s, a)
    ensures var t := B.Apply(s, a);
      (e < |t.pipes| && t.pipes[e].logDone) <==> (e < |s.pipes| && s.pipes[e].logDone) || a == OwnFinish(e)
  {
    if a.Own? {
      B.MovedStage(s, s.pipes[a.e], a.step);
      hide B.Moved, B.CanStep;
    }
  }

  lemma MoveKeepsSameLog<T>(j: Joint<T>, e: nat, m: Move<T>)
    requires SameLog(j, e) && CanMove(j, e, m)
    ensures SameLog(Moved(j, e, m), e)
  {
    hide B.Apply, B.Enabled;
    match m
    case Building(a) => LogDoneMoves(j.builder, e, a);
    case Logging(_) =>
    case Printing =>
    case Finishing => LogDoneMoves(j.builder, e, OwnFinish(e));
  }

  lemma {:induction false} RunKeepsSameLog<T>(j: Joint<T>, e: nat, ms: seq<Move<T>>)
    requires SameLog(j, e) && CanRun(j, e, ms)
    ensures SameLog(Run(j, e, ms), e)
    decreases |ms|
  {
    hide SameLog, CanMove, Moved;
    if ms != [] {
      MoveKeepsSameLog(j, e, ms[0]);
      RunKeepsSameLog(Moved(j, e, ms[0]), e, ms[1..]);
    }
  }

  /** A fresh process, and the log pipeline e will have. */
  ghost predicate Start<T>(j: Joint<T>) {
    B.Initial(j.builder) && j.log == F.Empty() && j.printed.None? && j.saved.None?
  }

  ghost predicate NoRebuild<T>(ms: seq<Move<T>>, b: string) {
    forall m | m in ms :: m.Building? ==> !B.Rebuilds(m.act, b)
  }

  lemma {:induction false} NoRebuildInPart<T>(e: nat, ms: seq<Move<T>>, b: string)
    requires NoRebuild(ms, b)
    ensures forall a | a in BuilderPart(e, ms) :: !B.Rebuilds(a, b)
  {
    if ms != [] {
      assert ms[0] in ms;
      NoRebuildInPart(e, ms[1..], b);
    }
  }

  /** A consumer has seen the end of its channel, and not because its own context ended. */
  predicate ClosedToIt<T>(j: Joint<T>, i: nat) { i < |j.log.subs| && j.log.subs[i].pc.Closed? && !j.log.subs[i].cancelled }

  lemma ClosedMeansDone<T>(acts: seq<F.Action<T>>, i: nat)
    requires F.Executable(F.Empty<T>(), acts) && i < |F.Exec(F.Empty<T>(), acts).subs|
    ensures var l := F.Exec(F.Empty<T>(), acts); l.subs[i].pc.Closed? && !l.subs[i].cancelled ==> l.done
  {
    F.FinishLosesNothing(acts, 0, i);
  }

  /**
   A build stream that closes uncancelled means the build has settled. Over any joint run: a session
   found the build at move n, under the builder's lock, either registered as pipeline e or not. If it was
   registered and the session's channel has closed by the end, or if it was not, the record stored at the
   end is ready, failed or unsupported, unless a rebuild of it was asked for in between.
   */
  lemma ClosedChannelMeansSettled<T>(j0: Joint<T>, e: nat, ms: seq<Move<T>>, n: nat, b: string, i: nat)
    requires Start(j0) && CanRun(j0, e, ms) && n <= |ms| && NoRebuild(ms[n..], b)
    requires CanRun(j0, e, ms[..n])
    requires var s := Run(j0, e, ms[..n]).builder; b in s.adopted && (b in s.runs ==> s.runs[b] == e)
    ensures var s, t := Run(j0, e, ms[..n]).builder, Run(j0, e, ms);
      (b in s.runs ==> ClosedToIt(t, i)) ==> B.IsSettled(t.builder, b)
  {
    RunSplit(j0, e, ms, n);
    var j, t := Run(j0, e, ms[..n]), Run(j0, e, ms);
    PartsRun(j0, e, ms);
    PartsRun(j0, e, ms[..n]);
    PartsRun(j, e, ms[n..]);
    NoRebuildInPart(e, ms[n..], b);
    RunKeepsSameLog(j0, e, ms);
    if ClosedToIt(t, i) {
      ClosedMeansDone(LogPart(ms), i);
    }
    var s := j.builder;
    hide CanRun, Run, BuilderPart, LogPart, B.Executable, B.Exec, F.Exec, F.Executable, B.Initial, B.Rebuilds;
    B.FinishedStreamIsSettled(j0.builder, BuilderPart(e, ms[..n]), b, BuilderPart(e, ms[n..]));
  }

  /** And the session has been given every event the log held at any move before the run finished it. */
  lemma ClosedChannelGaveAll<T>(j0: Joint<T>, e: nat, ms: seq<Move<T>>, n: nat, i: nat)
    requires Start(j0) && CanRun(j0, e, ms) && n <= |ms| && CanRun(j0, e, ms[..n])
    ensures var j, t := Run(j0, e, ms[..n]), Run(j0, e, ms);
      ClosedToIt(t, i) && !(e < |j.builder.pipes| && j.builder.pipes[e].logDone) ==>
        j.log.events <= F.Delivered(t.log.subs[i])
  {
    RunSplit(j0, e, ms, n);
    var j, t := Run(j0, e, ms[..n]), Run(j0, e, ms);
    PartsRun(j0, e, ms[..n]);
    PartsRun(j0, e, ms);
    RunKeepsSameLog(j0, e, ms[..n]);
    LogPartSplit(ms, n);
    hide *;
    if i < |t.log.subs| {
      F.FinishLosesNothing(LogPart(ms), |LogPart(ms[..n])|, i);
      GaveAll(j, t, e, i);
    }
  }

  lemma GaveAll<T>(j: Joint<T>, t: Joint<T>, e: nat, i: nat)
    requires i < |t.log.subs| && SameLog(j, e)
    requires F.Left(t.log.subs[i].pc) && !t.log.subs[i].cancelled ==>
      (!j.log.done ==> j.log.events <= F.Delivered(t.log.subs[i]))
    ensures ClosedToIt(t, i) && !(e < |j.builder.pipes| && j.builder.pipes[e].logDone) ==>
      j.log.events <= F.Delivered(t.log.subs[i])
  {
  }

  lemma LogPartSplit<T>(ms: seq<Move<T>>, n: nat)
    requires n <= |ms|
    ensures |LogPart(ms[..n])| <= |LogPart(ms)| && LogPart(ms)[..|LogPart(ms[..n])|] == LogPart(ms[..n])
  {
    assert ms == ms[..n] + ms[n..];
    LogPartConcat(ms[..n], ms[n..]);
    hide LogPart;
  }

  lemma {:induction false} LogPartConcat<T>(a: seq<Move<T>>, b: seq<Move<T>>)
    ensures LogPart(a + b) == LogPart(a) + LogPart(b)
  {
    if a == [] {
      assert a + b == b;
    } else {
      assert (a + b)[1..] == a[1..] + b;
      LogPartConcat(a[1..], b);
    }
  }

  // ------------------------------------------------------------ the stored text

  /** What was printed is what the log held then; a pipeline that has stored its verdict has stored a text. */
  ghost predicate TextInv<T>(j: Joint<T>, e: nat) {
    && (j.printed.Some? ==> j.printed.value <= j.log.events)
    && (j.saved.Some? ==> j.saved.value <= j.log.events)
    && (e < |j.builder.pipes| && !B.Undecided(j.builder.pipes[e].pc) ==> j.saved.Some?)
  }

  /** A builder action takes pipeline e past its verdict only by storing it. */
  lemma DecidedMoves(s: B.State, e: nat, a: B.Action)
    requires B.Enabled(s, a)
    ensures var t := B.Apply(s, a);
      e < |t.pipes| && !B.Undecided(t.pipes[e].pc) ==>
        Decides(e, a) || (e < |s.pipes| && !B.Undecided(s.pipes[e].pc))
  {
    if a.Own? {
      B.MovedStage(s, s.pipes[a.e], a.step);
      hide B.Moved, B.CanStep;
    }
  }

  lemma LogGrows<T>(l: F.State<T>, a: F.Action<T>)
    requires F.Enabled(l, a)
    ensures l.events <= F.Apply(l, a).events
  {
  }

  lemma MoveKeepsText<T>(j: Joint<T>, e: nat, m: Move<T>)
    requires TextInv(j, e) && CanMove(j, e, m)
    ensures TextInv(Moved(j, e, m), e)
  {
    hide B.Apply, B.Enabled, F.Apply, F.Enabled;
    match m
    case Building(a) => DecidedMoves(j.builder, e, a);
    case Logging(a) => LogGrows(j.log, a);
    case Printing =>
    case Finishing =>
      DecidedMoves(j.builder, e, OwnFinish(e));
      LogGrows(j.log, F.Finish);
  }

  lemma {:induction false} RunKeepsText<T>(j: Joint<T>, e: nat, ms: seq<Move<T>>)
    requires TextInv(j, e) && CanRun(j, e, ms)
    ensures TextInv(Run(j, e, ms), e)
    decreases |ms|
  {
    hide TextInv, CanMove, Moved;
    if ms != [] {
      MoveKeepsText(j, e, ms[0]);
      RunKeepsText(Moved(j, e, ms[0]), e, ms[1..]);
    }
  }

  lemma Regroup<T>(a: seq<T>, b: seq<T>, c: seq<T>)
    ensures a + (b + c) == (a + b) + c
  {
  }

  lemma {:induction false} EntriesConcat(a: seq<L.Event>, b: seq<L.Event>)
    ensures L.Entries(a + b) == L.Entries(a) + L.Entries(b)
  {
    if b == [] {
      assert a + b == a;
      assert L.Entries(a) + [] == L.Entries(a);
    } else {
      var init, last := b[..|b| - 1], b[|b| - 1];
      hide L.Entries;
      EntriesConcat(a, init);
      L.EntriesSnoc(a + init, last);
      L.EntriesSnoc(init, last);
      assert b == init + [last];
      Regroup(a, init, [last]);
      Regroup(L.Entries(a), L.Entries(init), if last.Log? then [last.entry] else []);
    }
  }

  /**
   Over any joint run, the text stored with a pipeline's verdict is the printing of what its log held at
   some moment, a prefix of what it holds now. What a later visitor is told from it is the entries of that
   prefix exactly when all of them are printable.
   */
  lemma StoredTextIsPrintedPrefix(j0: Joint<L.Event>, e: nat, ms: seq<Move<L.Event>>)
    requires Start(j0) && CanRun(j0, e, ms)
    requires var s := Run(j0, e, ms).builder; e < |s.pipes| && !B.Undecided(s.pipes[e].pc)
    ensures var t := Run(j0, e, ms);
      && t.saved.Some? && t.saved.value <= t.log.events
      && var told := L.Parse(L.Text(L.Entries(t.saved.value)), L.SplitPhase);
         && L.Entries(t.saved.value) <= L.Entries(t.log.events)
         && (told == L.Entries(t.saved.value) <==> forall x | x in L.Entries(t.saved.value) :: L.Printable(x))
  {
    RunKeepsText(j0, e, ms);
    var t := Run(j0, e, ms);
    var k := t.saved.value;
    assert t.log.events == k + t.log.events[|k|..];
    EntriesConcat(k, t.log.events[|k|..]);
    hide CanRun, Run, L.Parse, L.Text, L.Entries, L.Printable;
    L.ReplayRoundTrip(L.Entries(k));
  }
}
