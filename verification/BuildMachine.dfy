/**
 Any number of concurrent builds as a transition system: the builder's critical sections, each
 pipeline's calls to the store and to the sandbox platform, and the rebuild a session asks for
 when a snapshot is lost. Every platform call may succeed or fail.
 */
module BuildMachine {
  import opened Wrappers
  import S = Store

  datatype Commit = Commit(owner: string, repo: string, sha: string)

  /** What the store keeps of a build, as far as the pipeline decides on it. */
  datatype Rec = Rec(commit: Commit, status: S.BuildStatus, golden: string, snapshot: string)

  /** Where a pipeline stands; each value names the effect that comes next. */
  datatype Pc =
    | Queued                           // the semaphore
    | Admitted                         // store: building
    | Creating                         // sandbox create
    | Preparing                        // sandbox wait
    | Working                          // clone, inspect, detect, install, start, probe
    | Capturing                        // snapshot create
    | Settling                         // snapshot wait
    | Pausing                          // sandbox pause, then keep
    | Publishing                       // store: ready
    | Failing(verdict: S.BuildStatus)  // store: failed or unsupported
    | Closing                          // finish the log
    | Unregistering                    // leave the run table
    | Cleaning                         // the deferred sandbox delete
    | Releasing                        // the deferred semaphore release
    | Finished

  /** A pipeline: its build, its copy of the record, its sandbox variable, and the deferred delete's flag. */
  datatype Pipe = Pipe(build: string, pc: Pc, rec: Rec, sb: Option<string>, snap: string, keep: bool, logDone: bool)

  datatype State = State(
    limit: nat,
    store: map<string, Rec>,
    runs: map<string, nat>,     // registered run of a build, by pipeline index
    pipes: seq<Pipe>,
    permits: set<nat>,          // pipelines past the semaphore
    created: set<string>,       // sandboxes this builder created
    deleted: set<string>,
    snaps: map<string, string>, // existing snapshots and the sandbox owning each
    adopted: set<string>,       // builds some Ensure has returned
    issued: map<string, string>) // sandboxes published as goldens, and the build of each

  datatype Step =
    | Acquire
    | MarkBuilding
    | CreateOk(id: string)
    | CreateFail
    | WaitReady(returned: string, ok: bool)
    | WorkOk
    | WorkFail(unsupported: bool)
    | SnapOk(snapId: string)
    | SnapFail
    | SnapReady
    | SnapLost
    | Pause(paused: bool)
    | Publish
    | RecordFailure
    | FinishLog
    | Unregister
    | Cleanup(done: bool)
    | Release

  datatype Action =
    | Ensure(commit: Commit, found: Option<string>, newId: string)
    | Own(e: nat, step: Step)
    | Rebuild(b: string, copy: Rec, goldenDeleted: bool) // copy: the record as the session once read it
    | Reclaim(sandbox: string)

  // ------------------------------------------------------------ transitions

  /** The coarse course of a pipeline: queued, at work, decided, log finished, unregistered, cleaned up, gone. */
  function Stage(pc: Pc): nat {
    match pc
    case Queued => 0
    case Closing => 2
    case Unregistering => 3
    case Cleaning => 4
    case Releasing => 5
    case Finished => 6
    case _ => 1
  }

  predicate Active(pc: Pc) { Stage(pc) <= 3 }

  predicate PastSemaphore(pc: Pc) { 1 <= Stage(pc) <= 5 }

  /** Still before the write of the final status. */
  predicate Undecided(pc: Pc) { Stage(pc) <= 1 }

  /** The pipeline answers for its sandbox: until it is published as golden or the deferred delete has run. */
  predicate Holds(p: Pipe, id: string) {
    p.sb == Some(id) && !p.pc.Releasing? && !p.pc.Finished? && !(p.keep && !Undecided(p.pc))
  }

  predicate CanStep(s: State, p: Pipe, step: Step) {
    match step
    case Acquire => p.pc.Queued? && |s.permits| < s.limit
    case MarkBuilding => p.pc.Admitted?
    case CreateOk(id) => p.pc.Creating? && FreshSandbox(s, id)
    case CreateFail => p.pc.Creating?
    case WaitReady(_, _) => p.pc.Preparing?
    case WorkOk => p.pc.Working?
    case WorkFail(_) => p.pc.Working?
    case SnapOk(id) => p.pc.Capturing? && id !in s.snaps
    case SnapFail => p.pc.Capturing?
    case SnapReady => p.pc.Settling?
    case SnapLost => p.pc.Settling?
    case Pause(_) => p.pc.Pausing?
    case Publish => p.pc.Publishing?
    case RecordFailure => p.pc.Failing?
    case FinishLog => p.pc.Closing?
    case Unregister => p.pc.Unregistering?
    case Cleanup(_) => p.pc.Cleaning?
    case Release => p.pc.Releasing?
  }

  /** The platform hands out sandbox ids nothing has used or mentioned. */
  predicate FreshSandbox(s: State, id: string) {
    && id != "" && id !in s.created && id !in s.deleted && id !in s.snaps.Values
    && (forall b | b in s.store :: s.store[b].golden != id)
  }

  /**
   A session may hold this as a ready record of build b, however stale: if this builder created the
   golden it names, it was published for b.
   */
  predicate Readable(s: State, b: string, copy: Rec) {
    && copy.status.Ready? && (b in s.store ==> s.store[b].commit == copy.commit)
    && (copy.golden in s.created ==> copy.golden in s.issued && s.issued[copy.golden] == b)
  }

  predicate Enabled(s: State, a: Action) {
    match a
    case Ensure(c, found, newId) =>
      if found.Some? then found.value in s.store && s.store[found.value].commit == c
      else newId !in s.store && forall b | b in s.store :: s.store[b].commit != c
    case Own(e, step) => e < |s.pipes| && CanStep(s, s.pipes[e], step)
    case Rebuild(b, copy, _) => b in s.store && b !in s.runs && Readable(s, b, copy)
    case Reclaim(id) => forall e | 0 <= e < |s.pipes| :: !Holds(s.pipes[e], id)
  }

  /** What a step changes of its own pipeline. */
  function Moved(p: Pipe, step: Step): Pipe {
    match step
    case Acquire => p.(pc := Admitted)
    case MarkBuilding => p.(pc := Creating, rec := p.rec.(status := S.Building))
    case CreateOk(id) => p.(pc := Preparing, sb := Some(id), rec := p.rec.(golden := id))
    case CreateFail => p.(pc := Failing(S.Failed))
    case WaitReady(returned, ok) => p.(pc := if ok then Working else Failing(S.Failed), sb := Some(returned))
    case WorkOk => p.(pc := Capturing)
    case WorkFail(u) => p.(pc := Failing(if u then S.Unsupported else S.Failed))
    case SnapOk(id) => p.(pc := Settling, snap := id)
    case SnapFail => p.(pc := Failing(S.Failed))
    case SnapReady => p.(pc := Pausing)
    case SnapLost => p.(pc := Failing(S.Failed))
    case Pause(_) => p.(pc := Publishing, keep := true)
    case Publish => p.(pc := Closing, rec := p.rec.(status := S.Ready, snapshot := p.snap))
    case RecordFailure => p.(pc := Closing, rec := p.rec.(status := if p.pc.Failing? then p.pc.verdict else S.Failed))
    case FinishLog => p.(pc := Unregistering, logDone := true)
    case Unregister => p.(pc := Cleaning)
    case Cleanup(_) => p.(pc := Releasing)
    case Release => p.(pc := Finished)
  }

  function DropSnaps(snaps: map<string, string>, owner: string): map<string, string> {
    map n | n in snaps && snaps[n] != owner :: snaps[n]
  }

  /** Deleting a sandbox deletes the snapshots it owns. */
  function WithDeleted(s: State, id: string): State {
    s.(deleted := s.deleted + {id}, snaps := DropSnaps(s.snaps, id))
  }

  /** builder.start: register a run and launch its pipeline. */
  function Started(s: State, b: string, rec: Rec): State {
    s.(store := s.store[b := rec],
       runs := s.runs[b := |s.pipes|],
       pipes := s.pipes + [Pipe(b, Queued, rec, None, "", false, false)],
       adopted := s.adopted + {b})
  }

  /** session.rebuild first deletes the golden its own copy names; an error is ignored. */
  function Forgotten(s: State, copy: Rec, ok: bool): State {
    if ok && copy.golden != "" then WithDeleted(s, copy.golden) else s
  }

  predicate WritesRecord(step: Step) { step.MarkBuilding? || step.Publish? || step.RecordFailure? }

  /** The deferred delete does something: the sandbox was created, is not kept, and the call works. */
  predicate DeletesSandbox(p: Pipe, step: Step) { step.Cleanup? && step.done && !p.keep && p.sb.Some? }

  function Stepped(s: State, e: nat, step: Step): State
    requires e < |s.pipes|
  {
    var p := s.pipes[e];
    var q := Moved(p, step);
    s.(pipes := s.pipes[e := q],
       store := if WritesRecord(step) then s.store[p.build := q.rec] else s.store,
       runs := if step.Unregister? then s.runs - {p.build} else s.runs,
       permits := if step.Acquire? then s.permits + {e} else if step.Release? then s.permits - {e} else s.permits,
       created := if step.CreateOk? then s.created + {step.id} else s.created,
       deleted := if DeletesSandbox(p, step) then s.deleted + {p.sb.value} else s.deleted,
       snaps := if step.SnapOk? then s.snaps[step.snapId := p.sb.GetOr("")]
                else if DeletesSandbox(p, step) then DropSnaps(s.snaps, p.sb.value)
                else s.snaps,
       issued := if step.Publish? then s.issued[p.sb.GetOr("") := p.build] else s.issued)
  }

  function Apply(s: State, a: Action): State
    requires Enabled(s, a)
  {
    match a
    case Ensure(c, found, newId) =>
      if found.None? then Started(s, newId, Rec(c, S.Queued, "", ""))
      else if found.value in s.runs || s.store[found.value].status.Settled() then
        s.(adopted := s.adopted + {found.value})
      else Started(s, found.value, s.store[found.value].(status := S.Queued))
    case Own(e, step) => Stepped(s, e, step)
    case Rebuild(b, copy, ok) => Started(Forgotten(s, copy, ok), b, Rec(copy.commit, S.Queued, "", ""))
    case Reclaim(id) => WithDeleted(s, id)
  }

  predicate Executable(s: State, acts: seq<Action>)
    decreases |acts|
  {
    acts == [] || (Enabled(s, acts[0]) && Executable(Apply(s, acts[0]), acts[1..]))
  }

  function Exec(s: State, acts: seq<Action>): State
    requires Executable(s, acts)
    decreases |acts|
  {
    if acts == [] then s else Exec(Apply(s, acts[0]), acts[1..])
  }

  lemma {:induction false} ExecSnoc(s: State, acts: seq<Action>, a: Action)
    requires Executable(s, acts) && Enabled(Exec(s, acts), a)
    ensures Executable(s, acts + [a]) && Exec(s, acts + [a]) == Apply(Exec(s, acts), a)
    decreases |acts|
  {
    if acts == [] {
      assert acts + [a] == [a];
      assert Executable(Apply(s, a), []);
    } else {
      assert (acts + [a])[1..] == acts[1..] + [a];
      ExecSnoc(Apply(s, acts[0]), acts[1..], a);
    }
  }

  /** A freshly started process over whatever store it finds. */
  predicate Initial(s: State) {
    && s.runs == map[] && s.pipes == [] && s.permits == {} && s.created == {} && s.deleted == {} && s.adopted == {}
    && s.issued == map[]
    && OneBuildPerCommit(s)
  }

  // ---------------------------------------------------------- single flight

  predicate OneBuildPerCommit(s: State) {
    forall a, b | a in s.store && b in s.store && s.store[a].commit == s.store[b].commit :: a == b
  }

  /** The registered run of a pipeline's build is that pipeline. */
  predicate IsRegistered(s: State, e: nat)
    requires e < |s.pipes|
  {
    s.pipes[e].build in s.runs && s.runs[s.pipes[e].build] == e
  }

  predicate RunsAreActive(s: State) {
    forall b | b in s.runs :: s.runs[b] < |s.pipes| && s.pipes[s.runs[b]].build == b && Active(s.pipes[s.runs[b]].pc)
  }

  predicate PipeFlight(s: State, e: nat)
    requires e < |s.pipes|
  {
    var p := s.pipes[e];
    && p.build in s.store
    && p.rec.commit == s.store[p.build].commit
    && (Active(p.pc) ==> IsRegistered(s, e))
    && (Undecided(p.pc) ==> !s.store[p.build].status.Settled())
    && (2 <= Stage(p.pc) <= 3 ==> s.store[p.build].status.Settled())
    && (p.pc.Failing? ==> p.pc.verdict.Failed? || p.pc.verdict.Unsupported?)
    && (p.logDone <==> Stage(p.pc) >= 3)
    && (e in s.permits <==> PastSemaphore(p.pc))
  }

  /** A build an Ensure returned is settled or has a registered run. */
  predicate Tracked(s: State, b: string) {
    b in s.store && (s.store[b].status.Settled() || b in s.runs)
  }

  predicate Flight(s: State) {
    && OneBuildPerCommit(s)
    && RunsAreActive(s)
    && (forall e | 0 <= e < |s.pipes| :: PipeFlight(s, e))
    && (forall e | e in s.permits :: e < |s.pipes|)
    && |s.permits| <= s.limit
    && (forall b | b in s.adopted :: Tracked(s, b))
  }

  /** All that single flight has to know of a step: it moves one pipeline at most one stage on, to q. */
  ghost predicate OutlineTo(s: State, t: State, e: nat, q: Pipe)
    requires e < |s.pipes|
  {
    var p := s.pipes[e];
    var i, j := Stage(p.pc), Stage(q.pc);
    && t.pipes == s.pipes[e := q] && t.limit == s.limit && t.adopted == s.adopted
    && q.build == p.build && q.rec.commit == p.rec.commit
    && (q.logDone <==> j >= 3) && (q.pc.Failing? ==> q.pc.verdict.Failed? || q.pc.verdict.Unsupported?)
    && (j == i + 1 || (i == 1 && j == 1))
    && (t.store == s.store || (t.store == s.store[p.build := q.rec] && i == 1))
    && (i == 1 && j == 1 && t.store != s.store ==> !q.rec.status.Settled())
    && (i == 1 && j == 2 ==> t.store == s.store[p.build := q.rec] && q.rec.status.Settled())
    && t.runs == (if i == 3 then s.runs - {p.build} else s.runs)
    && t.permits == (if i == 0 then s.permits + {e} else if i == 5 then s.permits - {e} else s.permits)
    && (i == 0 ==> |s.permits| < s.limit)
  }

  lemma MovedStage(s: State, p: Pipe, step: Step)
    requires CanStep(s, p, step)
    ensures var q := Moved(p, step); var i, j := Stage(p.pc), Stage(q.pc);
      && q.build == p.build && q.rec.commit == p.rec.commit
      && (j == i + 1 || (i == 1 && j == 1))
      && (i == 1 && j == 2 <==> step.Publish? || step.RecordFailure?)
      && (step.MarkBuilding? ==> i == 1 && j == 1 && q.rec.status.Building?)
      && (q.logDone <==> step.FinishLog? || p.logDone)
      && (step.FinishLog? <==> i == 2) && (step.Unregister? <==> i == 3)
      && (step.Acquire? <==> i == 0) && (step.Release? <==> i == 5)
  {
  }

  lemma MovedVerdict(s: State, p: Pipe, step: Step)
    requires CanStep(s, p, step) && (p.pc.Failing? ==> p.pc.verdict.Failed? || p.pc.verdict.Unsupported?)
    ensures var q := Moved(p, step);
      && (q.pc.Failing? ==> q.pc.verdict.Failed? || q.pc.verdict.Unsupported?)
      && (step.Publish? || step.RecordFailure? ==> q.rec.status.Settled())
  {
  }

  lemma OwnHasOutline(s: State, e: nat, step: Step)
    requires e < |s.pipes| && PipeFlight(s, e) && Enabled(s, Own(e, step))
    ensures OutlineTo(s, Stepped(s, e, step), e, Moved(s.pipes[e], step))
  {
    MovedStage(s, s.pipes[e], step);
    MovedVerdict(s, s.pipes[e], step);
  }

  lemma OutlineKeepsOwnFlight(s: State, t: State, e: nat, q: Pipe)
    requires e < |s.pipes| && Flight(s) && OutlineTo(s, t, e, q)
    ensures PipeFlight(t, e)
  {
    assert PipeFlight(s, e);
  }

  lemma OutlineKeepsOtherFlight(s: State, t: State, e: nat, q: Pipe, k: nat)
    requires e < |s.pipes| && Flight(s) && OutlineTo(s, t, e, q) && k < |s.pipes| && k != e
    ensures PipeFlight(t, k)
  {
    assert PipeFlight(s, e) && PipeFlight(s, k);
  }

  lemma OutlineKeepsFlight(s: State, t: State, e: nat, q: Pipe)
    requires e < |s.pipes| && Flight(s) && OutlineTo(s, t, e, q)
    ensures Flight(t)
  {
    forall k | 0 <= k < |t.pipes| ensures PipeFlight(t, k) {
      if k == e {
        OutlineKeepsOwnFlight(s, t, e, q);
      } else {
        OutlineKeepsOtherFlight(s, t, e, q, k);
      }
    }
    assert PipeFlight(s, e);
    forall b | b in t.adopted ensures Tracked(t, b) {
      assert Tracked(s, b);
    }
  }

  lemma OwnKeepsFlight(s: State, e: nat, step: Step)
    requires Flight(s) && Enabled(s, Own(e, step))
    ensures Flight(Stepped(s, e, step))
  {
    assert PipeFlight(s, e);
    OwnHasOutline(s, e, step);
    OutlineKeepsFlight(s, Stepped(s, e, step), e, Moved(s.pipes[e], step));
  }

  lemma StartKeepsFlight(s: State, b: string, rec: Rec)
    requires Flight(s) && b !in s.runs && !rec.status.Settled()
    requires if b in s.store then s.store[b].commit == rec.commit
             else forall x | x in s.store :: s.store[x].commit != rec.commit
    ensures Flight(Started(s, b, rec))
  {
    var t := Started(s, b, rec);
    forall k | 0 <= k < |t.pipes| ensures PipeFlight(t, k) {
      if k < |s.pipes| {
        assert PipeFlight(s, k);
      } else {
        assert k !in s.permits;
      }
    }
    forall x | x in t.adopted ensures Tracked(t, x) {
      if x != b {
        assert Tracked(s, x);
      }
    }
  }

  lemma ActionKeepsFlight(s: State, a: Action)
    requires Flight(s) && Enabled(s, a)
    ensures Flight(Apply(s, a))
  {
    match a
    case Ensure(c, found, newId) =>
      if found.None? {
        assert forall b | b in s.runs :: PipeFlight(s, s.runs[b]);
        StartKeepsFlight(s, newId, Rec(c, S.Queued, "", ""));
      } else if !(found.value in s.runs || s.store[found.value].status.Settled()) {
        StartKeepsFlight(s, found.value, s.store[found.value].(status := S.Queued));
      } else {
        KeepsFlightIfUnseen(s, Apply(s, a));
      }
    case Own(e, step) => OwnKeepsFlight(s, e, step);
    case Rebuild(b, copy, ok) =>
      KeepsFlightIfUnseen(s, Forgotten(s, copy, ok));
      StartKeepsFlight(Forgotten(s, copy, ok), b, Rec(copy.commit, S.Queued, "", ""));
    case Reclaim(id) => KeepsFlightIfUnseen(s, WithDeleted(s, id));
  }

  /** Sandboxes and snapshots play no part in single flight. */
  lemma KeepsFlightIfUnseen(s: State, t: State)
    requires Flight(s)
    requires t.store == s.store && t.runs == s.runs && t.pipes == s.pipes && t.permits == s.permits && t.limit == s.limit
    requires forall b | b in t.adopted :: Tracked(s, b)
    ensures Flight(t)
  {
    forall k | 0 <= k < |t.pipes| ensures PipeFlight(t, k) {
      assert PipeFlight(s, k);
    }
    forall b | b in t.adopted ensures Tracked(t, b) {
      assert Tracked(s, b);
    }
  }

  lemma {:induction false} RunKeepsFlight(s: State, acts: seq<Action>)
    requires Flight(s) && Executable(s, acts)
    ensures Flight(Exec(s, acts))
    decreases |acts|
  {
    if acts != [] {
      ActionKeepsFlight(s, acts[0]);
      RunKeepsFlight(Apply(s, acts[0]), acts[1..]);
    }
  }

  /**
   Single flight, over any interleaving: one build per commit; at most one unfinished pipeline per
   build, and the run table names it; every build an Ensure has returned is settled or registered;
   and no more than limit pipelines are past the semaphore.
   */
  lemma SingleFlight(s0: State, acts: seq<Action>)
    requires Initial(s0) && Executable(s0, acts)
    ensures var s := Exec(s0, acts);
      && OneBuildPerCommit(s)
      && (forall d, e | 0 <= d < |s.pipes| && 0 <= e < |s.pipes|
            && Active(s.pipes[d].pc) && Active(s.pipes[e].pc) && s.pipes[d].build == s.pipes[e].build :: d == e)
      && (forall e | 0 <= e < |s.pipes| && Active(s.pipes[e].pc) :: IsRegistered(s, e))
      && (forall b | b in s.adopted :: b in s.store && (s.store[b].status.Settled() || b in s.runs))
      && (set e | 0 <= e < |s.pipes| && PastSemaphore(s.pipes[e].pc)) == s.permits
      && |s.permits| <= s0.limit
  {
    RunKeepsFlight(s0, acts);
    RunKeepsLimit(s0, acts);
    var s := Exec(s0, acts);
    forall e | 0 <= e < |s.pipes|
      ensures Active(s.pipes[e].pc) ==> IsRegistered(s, e)
      ensures e in s.permits <==> PastSemaphore(s.pipes[e].pc)
    {
      assert PipeFlight(s, e);
    }
    forall b | b in s.adopted ensures Tracked(s, b) {}
  }

  lemma {:induction false} RunKeepsLimit(s: State, acts: seq<Action>)
    requires Executable(s, acts)
    ensures Exec(s, acts).limit == s.limit
    decreases |acts|
  {
    if acts != [] {
      RunKeepsLimit(Apply(s, acts[0]), acts[1..]);
    }
  }

  /** Leaving the run table removes the pipeline's own entry and no other. */
  lemma UnregisterRemovesOwnEntry(s: State, e: nat)
    requires Flight(s) && Enabled(s, Own(e, Unregister))
    ensures IsRegistered(s, e)
    ensures Apply(s, Own(e, Unregister)).runs == map b | b in s.runs && s.runs[b] != e :: s.runs[b]
  {
    assert PipeFlight(s, e);
    var t := Apply(s, Own(e, Unregister));
    forall b | b in s.runs ensures b in t.runs <==> s.runs[b] != e {
      assert s.pipes[s.runs[b]].build == b;
    }
  }

  /**
   Why Ensure's read-then-act is one step: while the builder's lock keeps the run table fixed, no
   pipeline step writes the record of a build that is not registered.
   */
  lemma UnregisteredRecordIsStable(s: State, e: nat, step: Step, b: string)
    requires Flight(s) && Enabled(s, Own(e, step)) && b in s.store && b !in s.runs
    ensures Apply(s, Own(e, step)).store[b] == s.store[b]
  {
    assert PipeFlight(s, e);
  }

  // ------------------------------------------------------- settled streams

  predicate Rebuilds(a: Action, b: string) { a.Rebuild? && a.b == b }

  /** Either the pipeline has yet to write its final status, or the record is settled. */
  predicate SettlesBy(s: State, b: string, e: nat) {
    && e < |s.pipes| && s.pipes[e].build == b && b in s.store
    && (Undecided(s.pipes[e].pc) || s.store[b].status.Settled())
  }

  predicate IsSettled(s: State, b: string) { b in s.store && s.store[b].status.Settled() }

  /** Short of a rebuild, a settled build stays settled whatever else runs. */
  lemma SettledIsStable(s: State, a: Action, b: string)
    requires Flight(s) && Enabled(s, a) && !Rebuilds(a, b) && IsSettled(s, b)
    ensures IsSettled(Apply(s, a), b)
  {
    if a.Own? {
      assert PipeFlight(s, a.e);
    }
  }

  lemma {:induction false} RunKeepsSettled(s: State, acts: seq<Action>, b: string)
    requires Flight(s) && Executable(s, acts) && IsSettled(s, b)
    requires forall a | a in acts :: !Rebuilds(a, b)
    ensures IsSettled(Exec(s, acts), b)
    decreases |acts|
  {
    if acts != [] {
      assert acts[0] in acts;
      SettledIsStable(s, acts[0], b);
      ActionKeepsFlight(s, acts[0]);
      RunKeepsSettled(Apply(s, acts[0]), acts[1..], b);
    }
  }

  lemma StepKeepsSettling(s: State, a: Action, b: string, e: nat)
    requires Flight(s) && Enabled(s, a) && SettlesBy(s, b, e) && !Rebuilds(a, b)
    ensures SettlesBy(Apply(s, a), b, e)
  {
    if IsSettled(s, b) {
      SettledIsStable(s, a, b);
    } else if a.Own? && a.e == e {
      assert PipeFlight(s, e);
      OwnHasOutline(s, e, a.step);
    }
  }

  lemma {:induction false} RunKeepsSettling(s: State, acts: seq<Action>, b: string, e: nat)
    requires Flight(s) && Executable(s, acts) && SettlesBy(s, b, e)
    requires forall a | a in acts :: !Rebuilds(a, b)
    ensures SettlesBy(Exec(s, acts), b, e)
    decreases |acts|
  {
    if acts != [] {
      assert acts[0] in acts;
      StepKeepsSettling(s, acts[0], b, e);
      ActionKeepsFlight(s, acts[0]);
      RunKeepsSettling(Apply(s, acts[0]), acts[1..], b, e);
    }
  }

  /** Where Builder.Subscribe found the build: a registered run's log, or the stored record. */
  datatype Path = LivePath(e: nat) | StoredPath

  /** The path Subscribe takes, decided under the builder's lock. */
  function PathOf(s: State, b: string): Path { if b in s.runs then LivePath(s.runs[b]) else StoredPath }

  /** The source of the stream has nothing more to give: the run's log is finished, or it was the stored record. */
  predicate StreamFinished(s: State, path: Path) {
    path.StoredPath? || (path.e < |s.pipes| && s.pipes[path.e].logDone)
  }

  /**
   Once the source of a build's stream is finished the build has settled, whichever path Subscribe took:
   the record read afterwards is ready, failed or unsupported.
   */
  lemma FinishedStreamIsSettled(s0: State, before: seq<Action>, b: string, after: seq<Action>)
    requires Initial(s0) && Executable(s0, before)
    requires b in Exec(s0, before).adopted && Executable(Exec(s0, before), after)
    requires forall a | a in after :: !Rebuilds(a, b)
    ensures var s := Exec(s0, before); var t := Exec(s, after);
      StreamFinished(t, PathOf(s, b)) ==> IsSettled(t, b)
  {
    var s := Exec(s0, before);
    RunKeepsFlight(s0, before);
    RunKeepsFlight(s, after);
    assert Tracked(s, b);
    if b in s.runs {
      var e := s.runs[b];
      assert PipeFlight(s, e);
      RunKeepsSettling(s, after, b, e);
      assert PipeFlight(Exec(s, after), e);
    } else {
      RunKeepsSettled(s, after, b);
    }
  }

  // ---------------------------------------------------- sandbox conservation

  predicate Held(s: State, id: string) { exists e | 0 <= e < |s.pipes| :: Holds(s.pipes[e], id) }

  /** The build is ready, names the sandbox as golden, and its snapshot exists and was taken from it. */
  predicate GoldenOf(s: State, b: string, id: string) {
    && b in s.store && s.store[b].status.Ready? && s.store[b].golden == id
    && s.store[b].snapshot in s.snaps && s.snaps[s.store[b].snapshot] == id
  }

  predicate IsGolden(s: State, id: string) { exists b | b in s.store :: GoldenOf(s, b, id) }

  /** Every sandbox the builder created is in exactly one place, and held or kept by exactly one owner. */
  predicate Conserved(s: State) {
    forall id | id in s.created ::
      && (Held(s, id) || id in s.deleted || IsGolden(s, id))
      && !(Held(s, id) && id in s.deleted)
      && !(Held(s, id) && IsGolden(s, id))
      && !(id in s.deleted && IsGolden(s, id))
      && (forall d, e | 0 <= d < |s.pipes| && 0 <= e < |s.pipes| && Holds(s.pipes[d], id) && Holds(s.pipes[e], id) :: d == e)
      && (forall a, b | a in s.store && b in s.store && GoldenOf(s, a, id) && GoldenOf(s, b, id) :: a == b)
  }

  predicate PipeSandbox(s: State, e: nat)
    requires e < |s.pipes|
  {
    PipeBox(s.pipes[e], s.created, s.deleted, s.snaps)
  }

  /** A pipeline's sandbox, while it holds one, is alive, is the one its record names, and owns its snapshot. */
  predicate PipeBox(p: Pipe, created: set<string>, deleted: set<string>, snaps: map<string, string>) {
    && (p.pc.Queued? || p.pc.Admitted? || p.pc.Creating? ==> p.sb.None?)
    && (Undecided(p.pc) && !p.pc.Queued? && !p.pc.Admitted? && !p.pc.Creating? && !p.pc.Failing? ==> p.sb.Some?)
    && (p.keep ==> p.sb.Some? && !p.pc.Failing?)
    && (Undecided(p.pc) && !p.pc.Queued? && !p.pc.Admitted? && !p.pc.Creating? ==> (p.keep <==> p.pc.Publishing?))
    && (p.sb.Some? && Holds(p, p.sb.value) ==>
          && p.sb.value in created && p.sb.value !in deleted
          && (Undecided(p.pc) ==> p.rec.golden == p.sb.value))
    && (p.pc.Settling? || p.pc.Pausing? || p.pc.Publishing? ==> p.snap in snaps && Some(snaps[p.snap]) == p.sb)
  }

  predicate HoldersDiffer(s: State) {
    forall d, e | 0 <= d < |s.pipes| && 0 <= e < |s.pipes| && s.pipes[d].sb.Some?
      && Holds(s.pipes[d], s.pipes[d].sb.value) && Holds(s.pipes[e], s.pipes[d].sb.value) :: d == e
  }

  /** A ready record's golden, if this builder created it, is no pipeline's and no other ready record's. */
  predicate GoldensDiffer(s: State) {
    && (forall a, b | a in s.store && b in s.store && s.store[a].status.Ready? && s.store[b].status.Ready?
          && s.store[a].golden == s.store[b].golden && s.store[a].golden in s.created :: a == b)
    && (forall b, e | b in s.store && s.store[b].status.Ready? && 0 <= e < |s.pipes| ::
          !Holds(s.pipes[e], s.store[b].golden))
  }

  /** A published golden is a sandbox of ours that no pipeline holds; a ready record's is issued to its build. */
  predicate Issuance(s: State) {
    && (forall id | id in s.issued :: id in s.created)
    && (forall id, e | id in s.issued && 0 <= e < |s.pipes| :: !Holds(s.pipes[e], id))
    && (forall b | b in s.store && s.store[b].status.Ready? && s.store[b].golden in s.created ::
          s.store[b].golden in s.issued && s.issued[s.store[b].golden] == b)
  }

  predicate Sandboxes(s: State) {
    && (forall e | 0 <= e < |s.pipes| :: PipeSandbox(s, e))
    && HoldersDiffer(s)
    && GoldensDiffer(s)
    && Issuance(s)
    && "" !in s.created
    && (forall n | n in s.snaps :: s.snaps[n] !in s.deleted)
    && (forall id | id in s.created :: Covered(s, id))
  }

  lemma SandboxesAreConserved(s: State)
    requires Sandboxes(s)
    ensures Conserved(s)
  {
    forall id | id in s.created
      ensures !(Held(s, id) && id in s.deleted) && !(Held(s, id) && IsGolden(s, id)) && !(id in s.deleted && IsGolden(s, id))
    {
      forall e | 0 <= e < |s.pipes| && Holds(s.pipes[e], id) ensures id !in s.deleted {
        assert PipeSandbox(s, e);
      }
    }
  }

  /** The build's record is what keeps its golden from being lost. */
  predicate AtStake(s: State, b: string) {
    b in s.store && s.store[b].status.Ready? && s.store[b].golden in s.created && s.store[b].golden !in s.deleted
  }

  /**
   The platform keeps its word: a waited-for sandbox carries the requested id, and deletes succeed. And
   a rebuild that overwrites a record with a living golden is asked for with a copy that names it.
   */
  predicate Honest(s: State, a: Action) {
    match a
    case Own(e, step) =>
      e < |s.pipes| ==>
        && (step.WaitReady? ==> Some(step.returned) == s.pipes[e].sb)
        && (step.Cleanup? ==> step.done)
    case Rebuild(b, copy, ok) => AtStake(s, b) ==> ok && copy.golden == s.store[b].golden
    case _ => true
  }

  /** A created sandbox is accounted for: held, deleted or golden. */
  predicate Covered(s: State, id: string) { Held(s, id) || id in s.deleted || IsGolden(s, id) }

  /** If all owners of a sandbox stay its owners, it stays accounted for. */
  lemma CoverCarries(s: State, t: State, id: string)
    requires Covered(s, id) && s.deleted <= t.deleted
    requires forall k | 0 <= k < |s.pipes| && Holds(s.pipes[k], id) :: k < |t.pipes| && Holds(t.pipes[k], id)
    requires forall b | b in s.store && GoldenOf(s, b, id) :: GoldenOf(t, b, id)
    ensures Covered(t, id)
  {
    if Held(s, id) {
      var k :| 0 <= k < |s.pipes| && Holds(s.pipes[k], id);
      assert Holds(t.pipes[k], id);
    } else if IsGolden(s, id) {
      var b :| b in s.store && GoldenOf(s, b, id);
      assert GoldenOf(t, b, id);
    }
  }

  /** A step that neither creates, deletes, captures nor publishes, and leaves who holds what alone. */
  lemma QuietKeepsSandboxes(s: State, t: State, e: nat, q: Pipe)
    requires Sandboxes(s) && e < |s.pipes| && s.pipes[e].build in s.store
    requires t.pipes == s.pipes[e := q] && q.sb == s.pipes[e].sb && PipeSandbox(t, e)
    requires forall id :: Holds(q, id) <==> Holds(s.pipes[e], id)
    requires t.created == s.created && t.deleted == s.deleted && t.snaps == s.snaps && t.issued == s.issued
    requires t.store == s.store ||
      (t.store == s.store[s.pipes[e].build := q.rec] && !q.rec.status.Ready? && !s.store[s.pipes[e].build].status.Ready?)
    ensures Sandboxes(t)
  {
    forall k | 0 <= k < |t.pipes| ensures PipeSandbox(t, k) {
      assert k != e ==> PipeSandbox(s, k);
    }
    assert forall k, id | 0 <= k < |t.pipes| :: Holds(t.pipes[k], id) <==> Holds(s.pipes[k], id);
    forall id | id in t.created ensures Covered(t, id) {
      CoverCarries(s, t, id);
    }
  }

  lemma CreateKeepsSandboxes(s: State, e: nat, id: string)
    requires Sandboxes(s) && Enabled(s, Own(e, CreateOk(id)))
    ensures Sandboxes(Stepped(s, e, CreateOk(id)))
  {
    var t := Stepped(s, e, CreateOk(id));
    assert PipeSandbox(s, e);
    forall k | 0 <= k < |t.pipes| ensures PipeSandbox(t, k) && (k != e ==> !Holds(t.pipes[k], id)) {
      assert PipeSandbox(s, k);
    }
    assert Holds(t.pipes[e], id);
    forall x | x in t.created ensures Covered(t, x) {
      if x != id {
        CoverCarries(s, t, x);
      }
    }
  }

  lemma SnapKeepsSandboxes(s: State, e: nat, n: string)
    requires Sandboxes(s) && Enabled(s, Own(e, SnapOk(n)))
    ensures Sandboxes(Stepped(s, e, SnapOk(n)))
  {
    var t := Stepped(s, e, SnapOk(n));
    assert PipeSandbox(s, e);
    assert Holds(s.pipes[e], s.pipes[e].sb.value);
    forall k | 0 <= k < |t.pipes| ensures PipeSandbox(t, k) {
      assert PipeSandbox(s, k);
    }
    assert forall k, id | 0 <= k < |t.pipes| :: Holds(t.pipes[k], id) <==> Holds(s.pipes[k], id);
    forall x | x in t.created ensures Covered(t, x) {
      CoverCarries(s, t, x);
    }
  }

  /** t is s after pipeline e has handed sandbox id to its build, whose record is now r. */
  ghost predicate Handed(s: State, t: State, e: nat, id: string, r: Rec) {
    && e < |s.pipes| && |t.pipes| == |s.pipes|
    && (forall k | 0 <= k < |s.pipes| && k != e :: t.pipes[k] == s.pipes[k])
    && Holds(s.pipes[e], id) && (forall x :: Holds(s.pipes[e], x) ==> x == id)
    && (forall x :: !Holds(t.pipes[e], x))
    && s.pipes[e].build in s.store && id in s.created && id !in s.deleted
    && r.status.Ready? && r.golden == id && r.snapshot in s.snaps && s.snaps[r.snapshot] == id
    && t.store == s.store[s.pipes[e].build := r] && t.issued == s.issued[id := s.pipes[e].build]
    && t.created == s.created && t.deleted == s.deleted && t.snaps == s.snaps
  }

  lemma PublishHands(s: State, e: nat)
    requires Sandboxes(s) && Flight(s) && Enabled(s, Own(e, Publish))
    ensures s.pipes[e].sb.Some?
    ensures var t := Stepped(s, e, Publish);
      && PipeSandbox(t, e) && Handed(s, t, e, s.pipes[e].sb.value, t.pipes[e].rec)
  {
    assert PipeSandbox(s, e) && PipeFlight(s, e);
    assert Holds(s.pipes[e], s.pipes[e].sb.value);
  }

  /** Nobody holds anything new, and nobody the sandbox handed over. */
  lemma HandedHolders(s: State, t: State, e: nat, id: string, r: Rec)
    requires HoldersDiffer(s) && Handed(s, t, e, id, r)
    ensures forall k, x | 0 <= k < |t.pipes| && Holds(t.pipes[k], x) :: Holds(s.pipes[k], x) && x != id
    ensures HoldersDiffer(t)
  {
    assert s.pipes[e].sb == Some(id);
  }

  lemma HandedGoldens(s: State, t: State, e: nat, id: string, r: Rec)
    requires HoldersDiffer(s) && GoldensDiffer(s) && Issuance(s) && Handed(s, t, e, id, r)
    ensures GoldensDiffer(t)
  {
    HandedHolders(s, t, e, id, r);
    hide Holds, HoldersDiffer;
  }

  lemma HandedIssuance(s: State, t: State, e: nat, id: string, r: Rec)
    requires HoldersDiffer(s) && Issuance(s) && Handed(s, t, e, id, r)
    ensures Issuance(t)
  {
    HandedHolders(s, t, e, id, r);
    hide Holds, HoldersDiffer;
  }

  lemma HandedKeepsOwners(s: State, t: State, e: nat, id: string, r: Rec)
    requires Sandboxes(s) && Handed(s, t, e, id, r)
    ensures HoldersDiffer(t) && GoldensDiffer(t) && Issuance(t)
  {
    hide Handed, HoldersDiffer, GoldensDiffer, Issuance, PipeSandbox, Covered;
    HandedHolders(s, t, e, id, r);
    HandedGoldens(s, t, e, id, r);
    HandedIssuance(s, t, e, id, r);
  }

  lemma HandedKeepsCover(s: State, t: State, e: nat, id: string, r: Rec, x: string)
    requires Sandboxes(s) && Handed(s, t, e, id, r) && x in s.created && !s.store[s.pipes[e].build].status.Ready?
    ensures Covered(t, x)
  {
    hide Holds, PipeSandbox;
    if x == id {
      assert GoldenOf(t, s.pipes[e].build, id);
    } else {
      CoverCarries(s, t, x);
    }
  }

  /** Publishing hands the sandbox from the pipeline to the build. */
  lemma PublishKeepsSandboxes(s: State, e: nat)
    requires Sandboxes(s) && Flight(s) && Enabled(s, Own(e, Publish))
    ensures Sandboxes(Stepped(s, e, Publish))
  {
    var t := Stepped(s, e, Publish);
    assert PipeFlight(s, e);
    PublishHands(s, e);
    var id, r := s.pipes[e].sb.value, t.pipes[e].rec;
    forall k | 0 <= k < |t.pipes| ensures PipeSandbox(t, k) {
      assert PipeSandbox(s, k);
    }
    hide Moved, Holds, PipeSandbox;
    HandedKeepsOwners(s, t, e, id, r);
    forall x | x in t.created ensures Covered(t, x) {
      HandedKeepsCover(s, t, e, id, r, x);
    }
    hide *;
    assert Sandboxes(t) by { SandboxesParts(t); }
  }

  lemma SandboxesParts(t: State)
    requires forall k | 0 <= k < |t.pipes| :: PipeSandbox(t, k)
    requires HoldersDiffer(t) && GoldensDiffer(t) && Issuance(t) && "" !in t.created
    requires forall n | n in t.snaps :: t.snaps[n] !in t.deleted
    requires forall id | id in t.created :: Covered(t, id)
    ensures Sandboxes(t)
  {
  }

  /** Deleting a sandbox no pipeline holds any more, with its snapshots. */
  lemma DeleteKeepsSandboxes(s: State, t: State, id: string)
    requires t.pipes == s.pipes && t.store == s.store && t.created == s.created && t.issued == s.issued
    requires t.deleted == s.deleted + {id} && t.snaps == DropSnaps(s.snaps, id)
    requires forall e | 0 <= e < |s.pipes| :: PipeSandbox(s, e) && !Holds(s.pipes[e], id)
    requires HoldersDiffer(s) && GoldensDiffer(s) && Issuance(s) && "" !in s.created
    requires forall n | n in s.snaps :: s.snaps[n] !in s.deleted
    requires forall x | x in s.created :: x == id || Covered(s, x)
    ensures Sandboxes(t)
  {
    forall k | 0 <= k < |t.pipes| ensures PipeSandbox(t, k) {
      assert PipeSandbox(s, k);
      var p := s.pipes[k];
      if p.pc.Settling? || p.pc.Pausing? || p.pc.Publishing? {
        assert Holds(p, p.sb.value);
      }
    }
    forall x | x in t.created ensures Covered(t, x) {
      if x != id {
        CoverCarries(s, t, x);
      }
    }
  }

  /** A pipeline at its deferred delete that lets go of its sandbox without deleting it. */
  lemma LettingGo(s: State, t: State, e: nat)
    requires Sandboxes(s) && e < |s.pipes| && s.pipes[e].pc.Cleaning?
    requires t == s.(pipes := s.pipes[e := s.pipes[e].(pc := Releasing)])
    ensures forall k | 0 <= k < |t.pipes| :: PipeSandbox(t, k)
    ensures HoldersDiffer(t) && GoldensDiffer(t) && Issuance(t)
    ensures forall x | x in t.created && !Holds(s.pipes[e], x) :: Covered(t, x)
    ensures forall k, x | 0 <= k < |t.pipes| && Holds(s.pipes[e], x) :: !Holds(t.pipes[k], x)
  {
    forall k | 0 <= k < |t.pipes| ensures PipeSandbox(t, k) {
      assert PipeSandbox(s, k);
    }
    forall x | x in t.created && !Holds(s.pipes[e], x) ensures Covered(t, x) {
      CoverCarries(s, t, x);
    }
  }

  /** The deferred delete: first the pipeline lets go, then the platform deletes. */
  lemma CleanupKeepsSandboxes(s: State, e: nat, step: Step)
    requires Sandboxes(s) && Enabled(s, Own(e, step)) && step.Cleanup? && step.done
    ensures Sandboxes(Stepped(s, e, step))
  {
    var t := Stepped(s, e, step);
    var p := s.pipes[e];
    var free := s.(pipes := s.pipes[e := p.(pc := Releasing)]);
    LettingGo(s, free, e);
    if DeletesSandbox(p, step) {
      assert Holds(p, p.sb.value);
      DeleteKeepsSandboxes(free, t, p.sb.value);
    } else {
      assert PipeSandbox(s, e);
      assert t == free && forall x :: !Holds(p, x);
    }
  }

  lemma StartKeepsSandboxes(s: State, b: string, rec: Rec)
    requires Sandboxes(s) && !rec.status.Ready?
    requires b in s.store && s.store[b].status.Ready? ==> s.store[b].golden !in s.created || s.store[b].golden in s.deleted
    ensures Sandboxes(Started(s, b, rec))
  {
    var t := Started(s, b, rec);
    forall k | 0 <= k < |t.pipes| ensures PipeSandbox(t, k) {
      assert k < |s.pipes| ==> PipeSandbox(s, k);
    }
    forall x | x in t.created ensures Covered(t, x) {
      CoverCarries(s, t, x);
    }
  }

  predicate Quiet(step: Step) { !step.CreateOk? && !step.SnapOk? && !step.Publish? && !step.Cleanup? }

  lemma QuietMoveHolds(p: Pipe, s: State, step: Step)
    requires CanStep(s, p, step) && Quiet(step) && !(p.keep && p.pc.Failing?) && (step.WaitReady? ==> Some(step.returned) == p.sb)
    ensures Moved(p, step).sb == p.sb && forall id :: Holds(Moved(p, step), id) <==> Holds(p, id)
  {
  }

  lemma QuietMoveKeepsBox(p: Pipe, s: State, step: Step)
    requires PipeBox(p, s.created, s.deleted, s.snaps) && CanStep(s, p, step) && Quiet(step)
    requires step.WaitReady? ==> Some(step.returned) == p.sb
    ensures PipeBox(Moved(p, step), s.created, s.deleted, s.snaps)
    ensures !(p.keep && p.pc.Failing?)
  {
  }

  lemma QuietMoveKeepsPipe(s: State, e: nat, step: Step)
    requires e < |s.pipes| && PipeSandbox(s, e)
    requires Enabled(s, Own(e, step)) && Honest(s, Own(e, step)) && Quiet(step)
    ensures PipeSandbox(Stepped(s, e, step), e) && Moved(s.pipes[e], step).sb == s.pipes[e].sb
    ensures forall id :: Holds(Moved(s.pipes[e], step), id) <==> Holds(s.pipes[e], id)
  {
    QuietMoveKeepsBox(s.pipes[e], s, step);
    QuietMoveHolds(s.pipes[e], s, step);
    hide Moved, PipeBox, CanStep;
  }

  lemma QuietStepKeepsSandboxes(s: State, e: nat, step: Step)
    requires Sandboxes(s) && Flight(s) && Enabled(s, Own(e, step)) && Honest(s, Own(e, step)) && Quiet(step)
    ensures Sandboxes(Stepped(s, e, step))
  {
    assert PipeSandbox(s, e) && PipeFlight(s, e);
    QuietMoveKeepsPipe(s, e, step);
    MovedStage(s, s.pipes[e], step);
    MovedVerdict(s, s.pipes[e], step);
    QuietKeepsSandboxes(s, Stepped(s, e, step), e, Moved(s.pipes[e], step));
  }

  lemma OwnKeepsSandboxes(s: State, e: nat, step: Step)
    requires Sandboxes(s) && Flight(s) && Enabled(s, Own(e, step)) && Honest(s, Own(e, step))
    ensures Sandboxes(Stepped(s, e, step))
  {
    if step.CreateOk? {
      CreateKeepsSandboxes(s, e, step.id);
    } else if step.SnapOk? {
      SnapKeepsSandboxes(s, e, step.snapId);
    } else if step.Publish? {
      PublishKeepsSandboxes(s, e);
    } else if step.Cleanup? {
      CleanupKeepsSandboxes(s, e, step);
    } else {
      QuietStepKeepsSandboxes(s, e, step);
    }
  }

  /** What a readable copy names as golden is no pipeline's sandbox, so its delete takes nothing from one. */
  lemma ForgottenKeepsSandboxes(s: State, b: string, copy: Rec, ok: bool)
    requires Sandboxes(s) && Readable(s, b, copy)
    ensures Sandboxes(Forgotten(s, copy, ok))
  {
    forall e | 0 <= e < |s.pipes| ensures PipeSandbox(s, e) && !Holds(s.pipes[e], copy.golden) {
      assert PipeSandbox(s, e);
    }
    if ok && copy.golden != "" {
      DeleteKeepsSandboxes(s, WithDeleted(s, copy.golden), copy.golden);
    }
  }

  lemma ActionKeepsSandboxes(s: State, a: Action)
    requires Sandboxes(s) && Flight(s) && Enabled(s, a) && Honest(s, a)
    ensures Sandboxes(Apply(s, a))
  {
    match a
    case Ensure(c, found, newId) =>
      if found.None? {
        StartKeepsSandboxes(s, newId, Rec(c, S.Queued, "", ""));
      } else if !(found.value in s.runs || s.store[found.value].status.Settled()) {
        StartKeepsSandboxes(s, found.value, s.store[found.value].(status := S.Queued));
      } else {
        SameSandboxes(s, Apply(s, a));
      }
    case Own(e, step) => OwnKeepsSandboxes(s, e, step);
    case Rebuild(b, copy, ok) =>
      ForgottenKeepsSandboxes(s, b, copy, ok);
      StartKeepsSandboxes(Forgotten(s, copy, ok), b, Rec(copy.commit, S.Queued, "", ""));
    case Reclaim(id) => DeleteKeepsSandboxes(s, WithDeleted(s, id), id);
  }

  lemma SameSandboxes(s: State, t: State)
    requires Sandboxes(s) && t == s.(adopted := t.adopted)
    ensures Sandboxes(t)
  {
    forall k | 0 <= k < |t.pipes| ensures PipeSandbox(t, k) {
      assert PipeSandbox(s, k);
    }
    forall x | x in t.created ensures Covered(t, x) {
      CoverCarries(s, t, x);
    }
  }

  predicate AllHonest(s: State, acts: seq<Action>)
    requires Executable(s, acts)
    decreases |acts|
  {
    acts == [] || (Honest(s, acts[0]) && AllHonest(Apply(s, acts[0]), acts[1..]))
  }

  lemma {:induction false} RunKeepsSandboxes(s: State, acts: seq<Action>)
    requires Sandboxes(s) && Flight(s) && Executable(s, acts) && AllHonest(s, acts)
    ensures Sandboxes(Exec(s, acts))
    decreases |acts|
  {
    if acts != [] {
      ActionKeepsSandboxes(s, acts[0]);
      ActionKeepsFlight(s, acts[0]);
      RunKeepsSandboxes(Apply(s, acts[0]), acts[1..]);
    }
  }

  /**
   Sandbox conservation: after every step of every run on an honest platform, each sandbox the
   builder created is held by exactly one pipeline, or deleted, or the golden of exactly one ready
   build whose snapshot was taken from it; never two of these.
   */
  lemma SandboxesConserved(s0: State, acts: seq<Action>)
    requires Initial(s0) && Executable(s0, acts) && AllHonest(s0, acts)
    ensures Conserved(Exec(s0, acts))
  {
    RunKeepsSandboxes(s0, acts);
    SandboxesAreConserved(Exec(s0, acts));
  }

  /**
   The wait overwrites the sandbox variable, on errors too. Conservation survives exactly when the
   returned record carries the requested id; with any other id the sandbox is lost.
   */
  lemma WaitConservesIffSameId(s: State, e: nat, returned: string, ok: bool)
    requires Sandboxes(s) && Flight(s) && Enabled(s, Own(e, WaitReady(returned, ok)))
    ensures Conserved(Stepped(s, e, WaitReady(returned, ok))) <==> Some(returned) == s.pipes[e].sb
  {
    var step := WaitReady(returned, ok);
    var t := Stepped(s, e, step);
    if Some(returned) == s.pipes[e].sb {
      OwnKeepsSandboxes(s, e, step);
      SandboxesAreConserved(t);
    } else {
      assert PipeSandbox(s, e);
      var id := s.pipes[e].sb.value;
      assert Holds(s.pipes[e], id);
      assert !Held(t, id) && id !in t.deleted && !IsGolden(t, id);
    }
  }

  /** The deferred delete ignores errors: on failure the sandbox is lost, unless there was none to delete. */
  lemma CleanupConservesIffDeleted(s: State, e: nat, done: bool)
    requires Sandboxes(s) && Enabled(s, Own(e, Cleanup(done)))
    ensures Conserved(Stepped(s, e, Cleanup(done))) <==> done || s.pipes[e].keep || s.pipes[e].sb.None?
  {
    var t := Stepped(s, e, Cleanup(done));
    var p := s.pipes[e];
    assert PipeSandbox(s, e);
    if done {
      CleanupKeepsSandboxes(s, e, Cleanup(done));
      SandboxesAreConserved(t);
    } else {
      LettingGo(s, t, e);
      if p.keep || p.sb.None? {
        assert forall x :: !Holds(p, x);
        SandboxesAreConserved(t);
      } else {
        assert Holds(p, p.sb.value);
        assert !Held(t, p.sb.value) && p.sb.value !in t.deleted && !IsGolden(t, p.sb.value);
      }
    }
  }

  /**
   A rebuild overwrites the record whatever its own copy says. Conservation survives exactly when that
   takes no living golden from the record, or the delete it starts with is of that golden and works.
   */
  lemma RebuildConservesIffCopyIsCurrent(s: State, b: string, copy: Rec, ok: bool)
    requires Sandboxes(s) && Flight(s) && Enabled(s, Rebuild(b, copy, ok))
    ensures Conserved(Apply(s, Rebuild(b, copy, ok))) <==> (AtStake(s, b) ==> ok && copy.golden == s.store[b].golden)
  {
    var t := Apply(s, Rebuild(b, copy, ok));
    var g := s.store[b].golden;
    if AtStake(s, b) && !(ok && copy.golden == g) {
      assert forall e | 0 <= e < |t.pipes| :: !Holds(t.pipes[e], g);
      assert !Held(t, g) && g !in t.deleted && !IsGolden(t, g);
    } else {
      ActionKeepsSandboxes(s, Rebuild(b, copy, ok));
      SandboxesAreConserved(t);
    }
  }

  /** A ready record in the store is readable, and a copy of it stays so, whatever happens. */
  lemma ReadyRecordIsReadable(s: State, b: string)
    requires Sandboxes(s) && b in s.store && s.store[b].status.Ready?
    ensures Readable(s, b, s.store[b])
  {
  }

  lemma {:induction false} CopyStaysReadable(s: State, acts: seq<Action>, b: string, copy: Rec)
    requires Sandboxes(s) && Flight(s) && Executable(s, acts) && AllHonest(s, acts)
    requires b in s.store && Readable(s, b, copy) && copy.golden in s.created
    ensures Readable(Exec(s, acts), b, copy)
    decreases |acts|
  {
    if acts != [] {
      StepKeepsReadable(s, acts[0], b, copy);
      ActionKeepsSandboxes(s, acts[0]);
      ActionKeepsFlight(s, acts[0]);
      CopyStaysReadable(Apply(s, acts[0]), acts[1..], b, copy);
    }
  }

  lemma StepKeepsReadable(s: State, a: Action, b: string, copy: Rec)
    requires Sandboxes(s) && Flight(s) && Enabled(s, a)
    requires b in s.store && Readable(s, b, copy) && copy.golden in s.created
    ensures var t := Apply(s, a); b in t.store && Readable(t, b, copy) && copy.golden in t.created
  {
    match a
    case Own(e, step) => OwnKeepsReadable(s, e, step, b, copy);
    case Rebuild(_, c, ok) => assert Forgotten(s, c, ok).issued == s.issued;
    case _ =>
  }

  lemma OwnKeepsReadable(s: State, e: nat, step: Step, b: string, copy: Rec)
    requires Sandboxes(s) && Flight(s) && Enabled(s, Own(e, step))
    requires b in s.store && Readable(s, b, copy) && copy.golden in s.created
    ensures var t := Stepped(s, e, step); b in t.store && Readable(t, b, copy) && copy.golden in t.created
  {
    assert PipeSandbox(s, e) && PipeFlight(s, e);
    MovedStage(s, s.pipes[e], step);
    var sb := s.pipes[e].sb.GetOr("");
    assert step.Publish? ==> Holds(s.pipes[e], sb);
    hide Moved, CanStep, PipeSandbox, PipeFlight;
  }

  // ------------------------------------------------- overlapping rebuilds

  /** A rebuild of a build whose run is registered: the record is overwritten, and Ensure joins the run. */
  function Joined(s: State, b: string, copy: Rec, ok: bool): State {
    var t := Forgotten(s, copy, ok);
    t.(store := t.store[b := Rec(copy.commit, S.Queued, "", "")], adopted := t.adopted + {b})
  }

  /** It keeps single flight exactly when the registered run has yet to store its verdict. */
  lemma JoinKeepsFlightIff(s: State, b: string, copy: Rec, ok: bool)
    requires Flight(s) && b in s.store && b in s.runs && Readable(s, b, copy)
    ensures Flight(Joined(s, b, copy, ok)) <==> Undecided(s.pipes[s.runs[b]].pc)
  {
    var t, e := Joined(s, b, copy, ok), s.runs[b];
    assert PipeFlight(s, e);
    if Undecided(s.pipes[e].pc) {
      forall k | 0 <= k < |t.pipes| ensures PipeFlight(t, k) {
        assert PipeFlight(s, k);
      }
      forall x | x in t.adopted ensures Tracked(t, x) {
        assert x != b ==> Tracked(s, x);
      }
    } else {
      assert !PipeFlight(t, e);
    }
  }

  /** And it keeps conservation under the same condition as any rebuild, which an undecided run always meets. */
  lemma JoinConservesIff(s: State, b: string, copy: Rec, ok: bool)
    requires Sandboxes(s) && Flight(s) && b in s.store && b in s.runs && Readable(s, b, copy)
    ensures Conserved(Joined(s, b, copy, ok)) <==> (AtStake(s, b) ==> ok && copy.golden == s.store[b].golden)
    ensures Undecided(s.pipes[s.runs[b]].pc) ==> Conserved(Joined(s, b, copy, ok))
  {
    var t, u := Joined(s, b, copy, ok), Forgotten(s, copy, ok);
    assert PipeFlight(s, s.runs[b]);
    if AtStake(s, b) && !(ok && copy.golden == s.store[b].golden) {
      JoinLosesGolden(s, b, copy, ok);
    } else {
      ForgottenKeepsSandboxes(s, b, copy, ok);
      hide Sandboxes, Conserved, Flight, PipeFlight, Readable;
      OverwriteKeepsSandboxes(u, t, b);
      SandboxesAreConserved(t);
    }
  }

  lemma JoinLosesGolden(s: State, b: string, copy: Rec, ok: bool)
    requires Sandboxes(s) && AtStake(s, b) && !(ok && copy.golden == s.store[b].golden)
    ensures !Conserved(Joined(s, b, copy, ok))
  {
    var t, g := Joined(s, b, copy, ok), s.store[b].golden;
    assert forall e | 0 <= e < |t.pipes| :: !Holds(t.pipes[e], g);
    assert !Held(t, g) && g !in t.deleted && !IsGolden(t, g);
  }

  /** Overwriting a record that no living golden depends on. */
  lemma OverwriteKeepsSandboxes(s: State, t: State, b: string)
    requires Sandboxes(s) && !AtStake(s, b) && b in t.store && !t.store[b].status.Ready?
    requires t == s.(store := s.store[b := t.store[b]], adopted := t.adopted)
    ensures Sandboxes(t)
  {
    forall k | 0 <= k < |t.pipes| ensures PipeSandbox(t, k) {
      assert PipeSandbox(s, k);
    }
    forall x | x in t.created ensures Covered(t, x) {
      CoverCarriesBut(s, t, b, x);
    }
  }

  lemma CoverCarriesBut(s: State, t: State, b: string, x: string)
    requires Covered(s, x) && x in s.created && s.pipes == t.pipes && s.deleted == t.deleted && s.snaps == t.snaps
    requires !AtStake(s, b) && b in t.store && t.store == s.store[b := t.store[b]]
    ensures Covered(t, x)
  {
    if Held(s, x) {
      var k :| 0 <= k < |s.pipes| && Holds(s.pipes[k], x);
      assert Holds(t.pipes[k], x);
    } else if x !in s.deleted {
      var a :| a in s.store && GoldenOf(s, a, x);
      assert a != b && GoldenOf(t, a, x);
    }
  }
}
