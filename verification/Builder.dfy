/**
 The builder as the object it is: its tables are fields, every critical section and platform call
 is a method, and Valid says that all it ever did is a run of the transition system.
 */
module Builder {
  import opened Wrappers
  import opened BuildMachine
  import S = Store

  datatype StoreFault = NoFault | ReadFault | WriteFault

  /** How the calls of one pipeline turn out. */
  datatype Fate = Fate(
    sandbox: Option<string>, // the id Create returns, if it succeeds
    waited: string,          // the id on the record WaitReady returns
    waitOk: bool,
    workOk: bool,            // clone, inspect, detect, tools, install, start and probe
    unsupported: bool,       // how the build is reported when they fail
    snapshot: Option<string>,
    snapOk: bool,
    paused: bool,
    deleteOk: bool)
  {
    predicate Succeeds() { sandbox.Some? && waitOk && workOk && snapshot.Some? && snapOk }

    function Verdict(): S.BuildStatus {
      if Succeeds() then S.Ready
      else if sandbox.Some? && waitOk && !workOk && unsupported then S.Unsupported
      else S.Failed
    }
  }

  /** A build is ready only if every call worked, and unsupported only if its work was found to be; else it failed. */
  lemma VerdictMeans(f: Fate)
    ensures f.Verdict().Ready? <==>
      f.sandbox.Some? && f.waitOk && f.workOk && f.snapshot.Some? && f.snapOk
    ensures f.Verdict().Unsupported? <==> f.sandbox.Some? && f.waitOk && !f.workOk && f.unsupported
    ensures f.Verdict().Settled() && (f.Succeeds() <==> f.Verdict().Ready?)
  {
  }

  /** The maps agree away from k. */
  ghost predicate SameBut<K(!new), V>(m0: map<K, V>, m: map<K, V>, k: K) {
    forall x | x != k :: (x in m <==> x in m0) && (x in m && x in m0 ==> m[x] == m0[x])
  }

  /** From s0 to s only pipeline e, its build's record and run, and its permit have changed. */
  ghost predicate Track(s0: State, s: State, e: nat) {
    && e < |s0.pipes| && |s.pipes| == |s0.pipes| && s.pipes[e].build == s0.pipes[e].build
    && (forall k | 0 <= k < |s.pipes| && k != e :: s.pipes[k] == s0.pipes[k])
    && var b := s0.pipes[e].build;
    && SameBut(s0.store, s.store, b) && SameBut(s0.runs, s.runs, b) && (b in s0.store ==> b in s.store)
    && (forall k | k != e :: k in s.permits <==> k in s0.permits)
    && s.adopted == s0.adopted && s.limit == s0.limit
  }

  lemma TrackStep(s0: State, s: State, e: nat, step: Step)
    requires Track(s0, s, e)
    ensures Track(s0, Stepped(s, e, step), e)
  {
  }

  lemma TrackTrans(s0: State, s1: State, s2: State, e: nat)
    requires Track(s0, s1, e) && Track(s1, s2, e)
    ensures Track(s0, s2, e)
  {
  }

  class Builder {
    const limit: nat
    var store: map<string, Rec>
    var runs: map<string, nat>
    var pipes: seq<Pipe>
    var permits: set<nat>
    var created: set<string>
    var deleted: set<string>
    var snaps: map<string, string>
    ghost var adopted: set<string>
    ghost var issued: map<string, string>
    ghost var origin: State
    ghost var history: seq<Action>

    ghost function Abs(): State
      reads this
    {
      State(limit, store, runs, pipes, permits, created, deleted, snaps, adopted, issued)
    }

    ghost predicate Valid()
      reads this
    {
      Initial(origin) && Executable(origin, history) && Exec(origin, history) == Abs()
    }

    /** A process starting over the builds an earlier one left behind. */
    constructor (limit: nat, store: map<string, Rec>, snaps: map<string, string>)
      requires forall a, b | a in store && b in store && store[a].commit == store[b].commit :: a == b
      ensures Valid() && history == [] && this.store == store && this.limit == limit
    {
      this.limit, this.store, this.snaps := limit, store, snaps;
      runs, pipes, permits, created, deleted, adopted, issued := map[], [], {}, {}, {}, {}, map[];
      history := [];
      origin := State(limit, store, map[], [], {}, {}, {}, snaps, {}, map[]);
    }

    /** What has just been done to the fields was action a. */
    ghost method Note(a: Action, before: State)
      requires Initial(origin) && Executable(origin, history) && Exec(origin, history) == before
      requires Enabled(before, a) && Abs() == Apply(before, a)
      modifies this`history
      ensures Valid() && history == old(history) + [a]
    {
      ExecSnoc(origin, history, a);
      history := history + [a];
    }

    method FindCommit(c: Commit) returns (id: Option<string>)
      ensures id.Some? ==> id.value in store && store[id.value].commit == c
      ensures id.None? ==> forall b | b in store :: store[b].commit != c
    {
      var rest := store.Keys;
      while rest != {}
        invariant rest <= store.Keys
        invariant forall b | b in store && b !in rest :: store[b].commit != c
        decreases rest
      {
        var b :| b in rest;
        if store[b].commit == c {
          return Some(b);
        }
        rest := rest - {b};
      }
      return None;
    }

    /** A new pipeline, at its beginning, is the build's registered run. */
    twostate predicate Launched(b: string)
      reads this
    {
      && |pipes| == |old(pipes)| + 1 && pipes[..|old(pipes)|] == old(pipes) && b in store
      && pipes[|old(pipes)|] == Pipe(b, Queued, store[b], None, "", false, false)
      && runs == old(runs)[b := |old(pipes)|]
    }

    /** start: register the run and launch the pipeline. */
    method Start(b: string, rec: Rec)
      modifies this`runs, this`pipes, this`adopted
      ensures Abs() == old(Abs()).(runs := old(runs)[b := |old(pipes)|],
        pipes := old(pipes) + [Pipe(b, Queued, rec, None, "", false, false)], adopted := old(adopted) + {b})
    {
      runs := runs[b := |pipes|];
      pipes := pipes + [Pipe(b, Queued, rec, None, "", false, false)];
      adopted := adopted + {b};
    }

    /** The build's record is stored and its run started. */
    method StoreAndStart(b: string, rec: Rec, ghost a: Action)
      requires Valid() && Enabled(Abs(), a) && Apply(Abs(), a) == Started(Abs(), b, rec)
      modifies this
      ensures Valid() && origin == old(origin) && history == old(history) + [a]
      ensures Abs() == Started(old(Abs()), b, rec)
      ensures store == old(store)[b := rec] && Launched(b)
    {
      hide Exec, Executable, Initial, Apply, Enabled;
      ghost var before := Abs();
      store := store[b := rec];
      Start(b, rec);
      Note(a, before);
    }

    /** Ensure: return the commit's build, creating or restarting it when it is not settled and not running. */
    method Ensure(c: Commit, newId: string, fault: StoreFault) returns (id: Option<string>, ghost found: Option<string>)
      requires Valid() && newId !in store
      modifies this
      ensures Valid() && origin == old(origin)
      ensures id.None? ==> Abs() == old(Abs()) && history == old(history) && !fault.NoFault?
      ensures id.Some? ==>
        && Enabled(old(Abs()), Action.Ensure(c, found, newId))
        && history == old(history) + [Action.Ensure(c, found, newId)]
        && Abs() == Apply(old(Abs()), Action.Ensure(c, found, newId))
        && id.value in store && store[id.value].commit == c
        && (store[id.value].status.Settled() || id.value in runs)
      ensures id.Some? && found.Some? ==> id == found && id.value in old(store)
      ensures id.Some? && found.None? ==>
        && id.value == newId && (forall b | b in old(store) :: old(store)[b].commit != c)
        && store == old(store)[newId := Rec(c, S.Queued, "", "")] && Launched(newId)
      ensures id.Some? && id.value in old(store) ==>
        var rec := old(store)[id.value];
        if id.value in old(runs) || rec.status.Ready? || rec.status.Failed? || rec.status.Unsupported? then
          store == old(store) && runs == old(runs) && pipes == old(pipes)
        else store == old(store)[id.value := rec.(status := S.Queued)] && Launched(id.value)
    {
      hide Exec, Executable, Initial;
      ghost var before := Abs();
      found := None;
      if fault.ReadFault? {
        return None, None;
      }
      var existing := FindCommit(c);
      found := existing;
      if existing.Some? {
        var b := existing.value;
        if b in runs || store[b].status.Settled() {
          adopted := adopted + {b};
          Note(Action.Ensure(c, found, newId), before);
          return Some(b), found;
        }
        if fault.WriteFault? {
          return None, found;
        }
        StoreAndStart(b, store[b].(status := S.Queued), Action.Ensure(c, found, newId));
        return Some(b), found;
      }
      if fault.WriteFault? {
        return None, found;
      }
      StoreAndStart(newId, Rec(c, S.Queued, "", ""), Action.Ensure(c, found, newId));
      return Some(newId), found;
    }

    /**
     session.rebuild, with no run registered for the build: delete the golden the session's copy names,
     overwrite the record, and start again.
     */
    method Rebuild(b: string, copy: Rec, deleteOk: bool)
      requires Valid() && Enabled(Abs(), Action.Rebuild(b, copy, deleteOk))
      modifies this
      ensures Valid() && origin == old(origin) && history == old(history) + [Action.Rebuild(b, copy, deleteOk)]
      ensures Abs() == Apply(old(Abs()), Action.Rebuild(b, copy, deleteOk))
      ensures store == old(store)[b := Rec(copy.commit, S.Queued, "", "")] && Launched(b)
      ensures copy.golden != "" && deleteOk ==>
        deleted == old(deleted) + {copy.golden} && forall n | n in snaps :: snaps[n] != copy.golden
      ensures copy.golden == "" || !deleteOk ==> deleted == old(deleted) && snaps == old(snaps)
      ensures forall n | n in old(snaps) && old(snaps)[n] != copy.golden :: n in snaps && snaps[n] == old(snaps)[n]
    {
      hide Exec, Executable, Initial;
      ghost var before := Abs();
      if copy.golden != "" && deleteOk {
        deleted := deleted + {copy.golden};
        snaps := DropSnaps(snaps, copy.golden);
      }
      store := store[b := Rec(copy.commit, S.Queued, "", "")];
      Start(b, store[b]);
      assert Abs() == Started(Forgotten(before, copy, deleteOk), b, store[b]);
      Note(Action.Rebuild(b, copy, deleteOk), before);
    }

    // ------------------------------------------- the steps of one pipeline

    /** Whether pipeline e may do this next. */
    ghost predicate May(e: nat, step: Step)
      reads this
    {
      Valid() && e < |pipes| && CanStep(Abs(), pipes[e], step)
    }

    /** The method did exactly this step. */
    twostate predicate Did(e: nat, step: Step)
      requires e < |old(pipes)|
      reads this
    {
      && Valid() && origin == old(origin)
      && Abs() == Stepped(old(Abs()), e, step)
      && |pipes| == |old(pipes)| && pipes[e] == Moved(old(pipes[e]), step)
    }

    method AcquireSemaphore(e: nat)
      requires May(e, Acquire)
      modifies this`permits, this`pipes, this`history
      ensures Did(e, Acquire)
    {
      ghost var before := Abs();
      permits := permits + {e};
      pipes := pipes[e := pipes[e].(pc := Admitted)];
      Note(Own(e, Acquire), before);
    }

    /** setStatus: change the run's record, then store it; next is where the pipeline goes. */
    method SetStatus(e: nat, status: S.BuildStatus, next: Pc, ghost step: Step)
      requires May(e, step) && (step.MarkBuilding? || step.RecordFailure?)
      requires Moved(pipes[e], step) == pipes[e].(pc := next, rec := pipes[e].rec.(status := status))
      modifies this`store, this`pipes, this`history
      ensures Did(e, step)
    {
      ghost var before := Abs();
      pipes := pipes[e := pipes[e].(pc := next, rec := pipes[e].rec.(status := status))];
      store := store[pipes[e].build := pipes[e].rec];
      Note(Own(e, step), before);
    }

    method CreateSandbox(e: nat, reply: Option<string>)
      requires May(e, if reply.Some? then CreateOk(reply.value) else CreateFail)
      modifies this`created, this`pipes, this`history
      ensures Did(e, if reply.Some? then CreateOk(reply.value) else CreateFail)
    {
      ghost var before := Abs();
      var p := pipes[e];
      if reply.Some? {
        created := created + {reply.value};
        p := p.(pc := Preparing, sb := Some(reply.value), rec := p.rec.(golden := reply.value));
      } else {
        p := p.(pc := Failing(S.Failed));
      }
      pipes := pipes[e := p];
      Note(Own(e, if reply.Some? then CreateOk(reply.value) else CreateFail), before);
    }

    /** The wait's record replaces the sandbox variable whether or not it reports an error. */
    method WaitForSandbox(e: nat, returned: string, ok: bool)
      requires May(e, WaitReady(returned, ok))
      modifies this`pipes, this`history
      ensures Did(e, WaitReady(returned, ok))
    {
      ghost var before := Abs();
      pipes := pipes[e := pipes[e].(sb := Some(returned), pc := if ok then Working else Failing(S.Failed))];
      Note(Own(e, WaitReady(returned, ok)), before);
    }

    method RunWork(e: nat, ok: bool, unsupported: bool)
      requires May(e, if ok then WorkOk else WorkFail(unsupported))
      modifies this`pipes, this`history
      ensures Did(e, if ok then WorkOk else WorkFail(unsupported))
    {
      ghost var before := Abs();
      pipes := pipes[e := pipes[e].(pc :=
        if ok then Capturing else Failing(if unsupported then S.Unsupported else S.Failed))];
      Note(Own(e, if ok then WorkOk else WorkFail(unsupported)), before);
    }

    method CreateSnapshot(e: nat, reply: Option<string>)
      requires May(e, if reply.Some? then SnapOk(reply.value) else SnapFail)
      modifies this`snaps, this`pipes, this`history
      ensures Did(e, if reply.Some? then SnapOk(reply.value) else SnapFail)
    {
      ghost var before := Abs();
      if reply.Some? {
        snaps := snaps[reply.value := pipes[e].sb.GetOr("")];
        pipes := pipes[e := pipes[e].(pc := Settling, snap := reply.value)];
      } else {
        pipes := pipes[e := pipes[e].(pc := Failing(S.Failed))];
      }
      Note(Own(e, if reply.Some? then SnapOk(reply.value) else SnapFail), before);
    }

    method WaitForSnapshot(e: nat, ok: bool)
      requires May(e, if ok then SnapReady else SnapLost)
      modifies this`pipes, this`history
      ensures Did(e, if ok then SnapReady else SnapLost)
    {
      ghost var before := Abs();
      pipes := pipes[e := pipes[e].(pc := if ok then Pausing else Failing(S.Failed))];
      Note(Own(e, if ok then SnapReady else SnapLost), before);
    }

    /** Pausing the golden; a failed pause is only logged. From here on the sandbox is kept. */
    method PauseGolden(e: nat, paused: bool)
      requires May(e, Pause(paused))
      modifies this`pipes, this`history
      ensures Did(e, Pause(paused))
    {
      ghost var before := Abs();
      pipes := pipes[e := pipes[e].(pc := Publishing, keep := true)];
      Note(Own(e, Pause(paused)), before);
    }

    method PublishReady(e: nat)
      requires May(e, Publish)
      modifies this`store, this`issued, this`pipes, this`history
      ensures Did(e, Publish)
    {
      ghost var before := Abs();
      var p := pipes[e];
      pipes := pipes[e := p.(pc := Closing, rec := p.rec.(status := S.Ready, snapshot := p.snap))];
      store := store[p.build := pipes[e].rec];
      issued := issued[p.sb.GetOr("") := p.build];
      Note(Own(e, Publish), before);
    }

    method FinishRunLog(e: nat)
      requires May(e, FinishLog)
      modifies this`pipes, this`history
      ensures Did(e, FinishLog)
    {
      ghost var before := Abs();
      pipes := pipes[e := pipes[e].(pc := Unregistering, logDone := true)];
      Note(Own(e, FinishLog), before);
    }

    method LeaveRuns(e: nat)
      requires May(e, Unregister)
      modifies this`runs, this`pipes, this`history
      ensures Did(e, Unregister)
    {
      ghost var before := Abs();
      runs := runs - {pipes[e].build};
      pipes := pipes[e := pipes[e].(pc := Cleaning)];
      Note(Own(e, Unregister), before);
    }

    /** The deferred delete of a sandbox that is not kept; its error is only logged. */
    method DeferredDelete(e: nat, ok: bool)
      requires May(e, Cleanup(ok))
      modifies this`deleted, this`snaps, this`pipes, this`history
      ensures Did(e, Cleanup(ok))
    {
      ghost var before := Abs();
      var p := pipes[e];
      if !p.keep && p.sb.Some? && ok {
        deleted := deleted + {p.sb.value};
        snaps := DropSnaps(snaps, p.sb.value);
      }
      pipes := pipes[e := p.(pc := Releasing)];
      Note(Own(e, Cleanup(ok)), before);
    }

    method ReleaseSemaphore(e: nat)
      requires May(e, Release)
      modifies this`permits, this`pipes, this`history
      ensures Did(e, Release)
    {
      ghost var before := Abs();
      permits := permits - {e};
      pipes := pipes[e := pipes[e].(pc := Finished)];
      Note(Own(e, Release), before);
    }

    // ------------------------------------------------- a pipeline, end to end

    /** What a pipeline's failure leaves of its sandbox: deleted, owning no snapshot, when the delete works. */
    twostate predicate Discarded(sb: Option<string>, deleteOk: bool)
      reads this
    {
      deleteOk && sb.Some? ==>
        deleted == old(deleted) + {sb.value} && forall n | n in snaps :: snaps[n] != sb.value
    }

    /**
     The pipeline is over: its verdict is stored, its log finished, its run gone from the table, its
     permit returned, and nothing else touched.
     */
    twostate predicate WoundUp(e: nat, verdict: S.BuildStatus)
      reads this
    {
      && Valid() && origin == old(origin) && Track(old(Abs()), Abs(), e)
      && pipes[e].pc.Finished? && pipes[e].logDone
      && pipes[e].build in store && store[pipes[e].build].status == verdict
      && pipes[e].build !in runs && e !in permits
    }

    /** The end both exits share: finish the log, then leave the run table. */
    method Retire(e: nat)
      requires May(e, FinishLog)
      modifies this`runs, this`pipes, this`history
      ensures Valid() && origin == old(origin) && Track(old(Abs()), Abs(), e)
      ensures pipes[e] == old(pipes[e]).(pc := Cleaning, logDone := true) && pipes[e].build !in runs
    {
      hide Exec, Executable, Initial;
      ghost var s0 := Abs();
      FinishRunLog(e);
      TrackStep(s0, s0, e, FinishLog);
      ghost var s1 := Abs();
      LeaveRuns(e);
      TrackStep(s0, s1, e, Unregister);
    }

    /** fail: store the verdict, finish the log, leave the run table. */
    method FailRun(e: nat, verdict: S.BuildStatus)
      requires May(e, RecordFailure) && pipes[e].pc == Failing(verdict)
      modifies this`store, this`runs, this`pipes, this`history
      ensures Valid() && origin == old(origin) && Track(old(Abs()), Abs(), e)
      ensures pipes[e] == old(pipes[e]).(pc := Cleaning, rec := old(pipes[e].rec).(status := verdict), logDone := true)
      ensures pipes[e].build in store && store[pipes[e].build] == pipes[e].rec && pipes[e].build !in runs
    {
      hide Exec, Executable, Initial;
      ghost var s0 := Abs();
      SetStatus(e, verdict, Closing, RecordFailure);
      TrackStep(s0, s0, e, RecordFailure);
      ghost var s1 := Abs();
      Retire(e);
      TrackTrans(s0, s1, Abs(), e);
    }

    /** The deferred calls, last registered first. */
    method Leave(e: nat, deleteOk: bool)
      requires May(e, Cleanup(deleteOk))
      modifies this`deleted, this`snaps, this`permits, this`pipes, this`history
      ensures Valid() && origin == old(origin) && Track(old(Abs()), Abs(), e)
      ensures pipes[e] == old(pipes[e]).(pc := Finished) && e !in permits
      ensures old(pipes[e]).keep ==> deleted == old(deleted) && snaps == old(snaps)
      ensures !old(pipes[e]).keep ==> Discarded(old(pipes[e]).sb, deleteOk)
    {
      hide Exec, Executable, Initial;
      ghost var s0 := Abs();
      DeferredDelete(e, deleteOk);
      TrackStep(s0, s0, e, Cleanup(deleteOk));
      ghost var s1 := Abs();
      ReleaseSemaphore(e);
      TrackStep(s0, s1, e, Release);
    }

    /** A failure exit: both of the above. */
    method FailAndLeave(e: nat, verdict: S.BuildStatus, deleteOk: bool)
      requires May(e, RecordFailure) && pipes[e].pc == Failing(verdict) && !pipes[e].keep
      modifies this`store, this`runs, this`deleted, this`snaps, this`permits, this`pipes, this`history
      ensures WoundUp(e, verdict) && Discarded(old(pipes[e].sb), deleteOk)
    {
      hide Exec, Executable, Initial;
      ghost var s0 := Abs();
      FailRun(e, verdict);
      ghost var s1 := Abs();
      Leave(e, deleteOk);
      TrackTrans(s0, s1, Abs(), e);
    }

    /** The pipeline has gone on to q, and nothing has been deleted or captured. */
    twostate predicate Passed(e: nat, q: Pipe)
      reads this
    {
      && Valid() && origin == old(origin) && Track(old(Abs()), Abs(), e)
      && pipes[e] == q && deleted == old(deleted) && snaps == old(snaps)
    }

    method TryCreate(e: nat, fate: Fate) returns (ok: bool)
      requires May(e, if fate.sandbox.Some? then CreateOk(fate.sandbox.value) else CreateFail) && !pipes[e].keep
      modifies this`store, this`runs, this`created, this`deleted, this`snaps, this`permits, this`pipes, this`history
      ensures ok == fate.sandbox.Some?
      ensures created == old(created) + if ok then {fate.sandbox.value} else {}
      ensures !ok ==> WoundUp(e, S.Failed)
      ensures ok ==> Passed(e, old(pipes[e]).(pc := Preparing, sb := fate.sandbox,
                                              rec := old(pipes[e]).rec.(golden := fate.sandbox.value)))
    {
      hide Exec, Executable, Initial;
      ghost var s0 := Abs();
      CreateSandbox(e, fate.sandbox);
      ok := fate.sandbox.Some?;
      TrackStep(s0, s0, e, if ok then CreateOk(fate.sandbox.value) else CreateFail);
      if !ok {
        ghost var s1 := Abs();
        FailAndLeave(e, S.Failed, fate.deleteOk);
        TrackTrans(s0, s1, Abs(), e);
      }
    }

    method TryWait(e: nat, fate: Fate) returns (ok: bool)
      requires May(e, WaitReady(fate.waited, fate.waitOk)) && !pipes[e].keep
      modifies this`store, this`runs, this`deleted, this`snaps, this`permits, this`pipes, this`history
      ensures ok == fate.waitOk
      ensures !ok ==> WoundUp(e, S.Failed) && Discarded(Some(fate.waited), fate.deleteOk)
      ensures ok ==> Passed(e, old(pipes[e]).(pc := Working, sb := Some(fate.waited)))
    {
      hide Exec, Executable, Initial;
      ghost var s0 := Abs();
      WaitForSandbox(e, fate.waited, fate.waitOk);
      ok := fate.waitOk;
      TrackStep(s0, s0, e, WaitReady(fate.waited, ok));
      if !ok {
        ghost var s1 := Abs();
        FailAndLeave(e, S.Failed, fate.deleteOk);
        TrackTrans(s0, s1, Abs(), e);
      }
    }

    method TryWork(e: nat, fate: Fate) returns (ok: bool)
      requires May(e, if fate.workOk then WorkOk else WorkFail(fate.unsupported)) && !pipes[e].keep
      modifies this`store, this`runs, this`deleted, this`snaps, this`permits, this`pipes, this`history
      ensures ok == fate.workOk
      ensures !ok ==> WoundUp(e, if fate.unsupported then S.Unsupported else S.Failed)
                      && Discarded(old(pipes[e].sb), fate.deleteOk)
      ensures ok ==> Passed(e, old(pipes[e]).(pc := Capturing))
    {
      hide Exec, Executable, Initial;
      ghost var s0 := Abs();
      RunWork(e, fate.workOk, fate.unsupported);
      ok := fate.workOk;
      TrackStep(s0, s0, e, if ok then WorkOk else WorkFail(fate.unsupported));
      if !ok {
        ghost var s1 := Abs();
        FailAndLeave(e, if fate.unsupported then S.Unsupported else S.Failed, fate.deleteOk);
        TrackTrans(s0, s1, Abs(), e);
      }
    }

    method TrySnapshot(e: nat, fate: Fate) returns (ok: bool)
      requires May(e, if fate.snapshot.Some? then SnapOk(fate.snapshot.value) else SnapFail) && !pipes[e].keep
      modifies this`store, this`runs, this`deleted, this`snaps, this`permits, this`pipes, this`history
      ensures ok == fate.snapshot.Some?
      ensures !ok ==> WoundUp(e, S.Failed) && Discarded(old(pipes[e].sb), fate.deleteOk)
      ensures ok ==>
        && Valid() && origin == old(origin) && Track(old(Abs()), Abs(), e)
        && pipes[e] == old(pipes[e]).(pc := Settling, snap := fate.snapshot.value)
        && deleted == old(deleted) && snaps == old(snaps)[fate.snapshot.value := pipes[e].sb.GetOr("")]
    {
      hide Exec, Executable, Initial;
      ghost var s0 := Abs();
      CreateSnapshot(e, fate.snapshot);
      ok := fate.snapshot.Some?;
      TrackStep(s0, s0, e, if ok then SnapOk(fate.snapshot.value) else SnapFail);
      if !ok {
        ghost var s1 := Abs();
        FailAndLeave(e, S.Failed, fate.deleteOk);
        TrackTrans(s0, s1, Abs(), e);
      }
    }

    method TrySettle(e: nat, fate: Fate) returns (ok: bool)
      requires May(e, if fate.snapOk then SnapReady else SnapLost) && !pipes[e].keep
      modifies this`store, this`runs, this`deleted, this`snaps, this`permits, this`pipes, this`history
      ensures ok == fate.snapOk
      ensures !ok ==> WoundUp(e, S.Failed) && Discarded(old(pipes[e].sb), fate.deleteOk)
      ensures ok ==> Passed(e, old(pipes[e]).(pc := Pausing))
    {
      hide Exec, Executable, Initial;
      ghost var s0 := Abs();
      WaitForSnapshot(e, fate.snapOk);
      ok := fate.snapOk;
      TrackStep(s0, s0, e, if ok then SnapReady else SnapLost);
      if !ok {
        ghost var s1 := Abs();
        FailAndLeave(e, S.Failed, fate.deleteOk);
        TrackTrans(s0, s1, Abs(), e);
      }
    }

    /** Keep the golden and publish the build. */
    method KeepAndPublish(e: nat, paused: bool)
      requires May(e, Pause(paused))
      modifies this`store, this`issued, this`pipes, this`history
      ensures Valid() && origin == old(origin) && Track(old(Abs()), Abs(), e)
      ensures pipes[e] == old(pipes[e]).(pc := Closing, keep := true,
        rec := old(pipes[e].rec).(status := S.Ready, snapshot := old(pipes[e].snap)))
      ensures pipes[e].build in store && store[pipes[e].build] == pipes[e].rec
    {
      hide Exec, Executable, Initial;
      ghost var s0 := Abs();
      PauseGolden(e, paused);
      TrackStep(s0, s0, e, Pause(paused));
      ghost var s1 := Abs();
      PublishReady(e);
      TrackStep(s0, s1, e, Publish);
    }

    method PublishAndRetire(e: nat, paused: bool)
      requires May(e, Pause(paused))
      modifies this`store, this`issued, this`runs, this`pipes, this`history
      ensures Valid() && origin == old(origin) && Track(old(Abs()), Abs(), e)
      ensures pipes[e] == old(pipes[e]).(pc := Cleaning, keep := true, logDone := true,
        rec := old(pipes[e].rec).(status := S.Ready, snapshot := old(pipes[e].snap)))
      ensures pipes[e].build in store && store[pipes[e].build] == pipes[e].rec && pipes[e].build !in runs
    {
      hide Exec, Executable, Initial;
      ghost var s0 := Abs();
      KeepAndPublish(e, paused);
      ghost var s1 := Abs();
      Retire(e);
      TrackTrans(s0, s1, Abs(), e);
    }

    /** The success exit. */
    method Deliver(e: nat, fate: Fate)
      requires May(e, Pause(fate.paused))
      modifies this`store, this`issued, this`runs, this`deleted, this`snaps, this`permits, this`pipes, this`history
      ensures WoundUp(e, S.Ready) && deleted == old(deleted) && snaps == old(snaps)
      ensures store[pipes[e].build] == old(pipes[e].rec).(status := S.Ready, snapshot := old(pipes[e].snap))
    {
      hide Exec, Executable, Initial;
      ghost var s0 := Abs();
      PublishAndRetire(e, fate.paused);
      ghost var s1 := Abs();
      Leave(e, fate.deleteOk);
      TrackTrans(s0, s1, Abs(), e);
    }

    /** Up to the app having run; false if the pipeline has failed and is over. */
    method Prepare(e: nat, fate: Fate) returns (ok: bool)
      requires May(e, if fate.sandbox.Some? then CreateOk(fate.sandbox.value) else CreateFail) && !pipes[e].keep
      modifies this`store, this`runs, this`created, this`deleted, this`snaps, this`permits, this`pipes, this`history
      ensures ok == (fate.sandbox.Some? && fate.waitOk && fate.workOk)
      ensures created == old(created) + if fate.sandbox.Some? then {fate.sandbox.value} else {}
      ensures !ok ==> WoundUp(e, fate.Verdict()) && (fate.sandbox.Some? ==> Discarded(Some(fate.waited), fate.deleteOk))
      ensures ok ==>
        && Valid() && origin == old(origin) && Track(old(Abs()), Abs(), e)
        && pipes[e] == old(pipes[e]).(pc := Capturing, sb := Some(fate.waited),
                                      rec := old(pipes[e]).rec.(golden := fate.sandbox.value))
        && deleted == old(deleted) && snaps == old(snaps)
    {
      hide Exec, Executable, Initial, Stepped, Moved, FreshSandbox;
      ghost var s0 := Abs();
      ok := TryCreate(e, fate);
      if !ok {
        return;
      }
      ghost var s1 := Abs();
      ok := TryWait(e, fate);
      TrackTrans(s0, s1, Abs(), e);
      if !ok {
        return;
      }
      ghost var s2 := Abs();
      ok := TryWork(e, fate);
      TrackTrans(s0, s2, Abs(), e);
    }

    /** From the app having run to the end. */
    method Capture(e: nat, fate: Fate)
      requires May(e, if fate.snapshot.Some? then SnapOk(fate.snapshot.value) else SnapFail) && !pipes[e].keep
      modifies this`store, this`issued, this`runs, this`deleted, this`snaps, this`permits, this`pipes, this`history
      ensures var ok := fate.snapshot.Some? && fate.snapOk;
        && WoundUp(e, if ok then S.Ready else S.Failed)
        && (!ok ==> Discarded(old(pipes[e].sb), fate.deleteOk))
        && (ok ==>
              && store[pipes[e].build].golden == old(pipes[e].rec.golden)
              && store[pipes[e].build].snapshot == fate.snapshot.value
              && snaps == old(snaps)[fate.snapshot.value := old(pipes[e].sb).GetOr("")] && deleted == old(deleted))
    {
      hide Exec, Executable, Initial, Stepped, Moved, FreshSandbox;
      ghost var s0 := Abs();
      var ok := TrySnapshot(e, fate);
      if !ok {
        return;
      }
      ghost var s1 := Abs();
      ok := TrySettle(e, fate);
      TrackTrans(s0, s1, Abs(), e);
      if !ok {
        return;
      }
      ghost var s2 := Abs();
      Deliver(e, fate);
      TrackTrans(s0, s2, Abs(), e);
    }

    /** Past the semaphore, and the status building stored. */
    method Begin(e: nat)
      requires May(e, Acquire)
      modifies this`store, this`permits, this`pipes, this`history
      ensures Valid() && origin == old(origin) && Track(old(Abs()), Abs(), e)
      ensures pipes[e] == old(pipes[e]).(pc := Creating, rec := old(pipes[e].rec).(status := S.Building))
      ensures store == old(store)[pipes[e].build := pipes[e].rec]
    {
      hide Exec, Executable, Initial;
      ghost var s0 := Abs();
      AcquireSemaphore(e);
      TrackStep(s0, s0, e, Acquire);
      ghost var s1 := Abs();
      SetStatus(e, S.Building, Creating, MarkBuilding);
      TrackStep(s0, s1, e, MarkBuilding);
    }

    /**
     execute, start to finish: whatever happens, the verdict is stored for this build alone, the log
     is finished, the run and the permit are given back; on success the sandbox is the golden and owns
     the published snapshot, on failure it is deleted and owns none.
     */
    method Execute(e: nat, fate: Fate)
      requires May(e, Acquire) && !pipes[e].keep
      requires fate.sandbox.Some? ==> FreshSandbox(Abs(), fate.sandbox.value) && pipes[e].rec.golden != fate.sandbox.value
      requires fate.snapshot.Some? ==> fate.snapshot.value !in snaps
      modifies this`store, this`issued, this`runs, this`created, this`deleted, this`snaps, this`permits, this`pipes, this`history
      ensures WoundUp(e, fate.Verdict())
      ensures created == old(created) + if fate.sandbox.Some? then {fate.sandbox.value} else {}
      ensures fate.Succeeds() ==>
        && store[pipes[e].build].golden == fate.sandbox.value && store[pipes[e].build].snapshot == fate.snapshot.value
        && snaps == old(snaps)[fate.snapshot.value := fate.waited] && deleted == old(deleted)
      ensures !fate.Succeeds() && fate.sandbox.Some? ==> Discarded(Some(fate.waited), fate.deleteOk)
    {
      hide Exec, Executable, Initial, Stepped, Moved;
      ghost var s0 := Abs();
      Begin(e);
      ghost var s1 := Abs();
      var ok := Prepare(e, fate);
      TrackTrans(s0, s1, Abs(), e);
      if !ok {
        return;
      }
      ghost var s2 := Abs();
      Capture(e, fate);
      TrackTrans(s0, s2, Abs(), e);
    }
  }
}
