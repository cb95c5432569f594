/**
 The run of one session as the object it is: the stored record, the run's own copy of it, and the
 session's log are fields, every step is a method, and Valid says that all that ever happened is a
 run of the transition system.
 */
module Session {
  import opened Wrappers
  import opened SessionMachine
  import S = Store
  import B = BuildLog

  /** What others do between two steps of the run. */
  datatype Outside =
    | Passes(d: nat)
    | AsksToExtend(keptAlive: bool)
    | OpensAnother(reason: string, deleted: bool) // the device opens another repo: replaced, if live

  /** One turn of the watcher: how long it sleeps, what happens meanwhile, what the platform says. */
  datatype Round = Round(sleep: nat, meanwhile: seq<Outside>, polled: PollReply, deleted: bool)

  /** How all the calls of one run turn out. */
  datatype World = World(
    first: FollowReply,
    restore: RestoreReply,
    again: Option<BuildView>,
    second: FollowReply,
    restoreAgain: RestoreReply,
    bootOk: bool,
    waited: string,  // the id on the record the wait returns
    deleted: bool,   // whether the delete after a failed wait works
    url: Option<string>,
    gaps: nat -> seq<Outside>, // what others do before each step up to the watcher
    rounds: nat -> Round)

  /** The reason a build gives for turning a visitor away; empty if it lets the visitor through. */
  function FollowTrouble(ready: bool, reply: FollowReply): string {
    if ready then ""
    else match reply
      case Unavailable => "build unavailable"
      case Streamed(_, final) =>
        match final.status
        case Ready => ""
        case Unsupported => "unsupported"
        case _ => "build failed"
  }

  function RestoreTrouble(w: World): string {
    match w.restore
    case Restored(_) => ""
    case Busy => "no capacity"
    case Lost =>
      if w.again.None? then "rebuild failed"
      else
        var t := FollowTrouble(w.again.value.status.Ready?, w.second);
        if t != "" then t
        else match w.restoreAgain
          case Restored(_) => ""
          case Busy => "no capacity"
          case Lost => "could not start a sandbox"
  }

  /** Why a run ends before it is live, if it does. */
  function LaunchTrouble(ready: bool, w: World): string {
    var t := FollowTrouble(ready, w.first);
    if t != "" then t
    else if RestoreTrouble(w) != "" then RestoreTrouble(w)
    else if w.bootOk then "" else "sandbox failed to start"
  }

  /** The code of the error event told before an end for this reason. */
  function TroubleCode(reason: string): string {
    match reason
    case "no capacity" => "busy"
    case "unsupported" => "unsupported"
    case _ => "infra_error"
  }

  /** The build, joined ready or followed, let the visitor through. */
  predicate LetsThrough(ready: bool, reply: FollowReply) { ready || (reply.Streamed? && reply.final.status.Ready?) }

  lemma FollowTroubleMeans(ready: bool, reply: FollowReply)
    ensures var t := FollowTrouble(ready, reply);
      && (t == "" <==> LetsThrough(ready, reply))
      && (t == "build unavailable" <==> !ready && reply.Unavailable?)
      && (t == "unsupported" <==> !ready && reply.Streamed? && reply.final.status.Unsupported?)
      && (t == "build failed" <==> !ready && reply.Streamed? && reply.final.status != S.Ready && reply.final.status != S.Unsupported)
      && (t == "" || t == "build unavailable" || t == "unsupported" || t == "build failed")
  {
  }

  /** The visitor comes to a second build: the first let it through, its snapshot was lost, and the commit was queued again. */
  predicate Rebuilds(ready: bool, w: World) { LetsThrough(ready, w.first) && w.restore.Lost? && w.again.Some? }

  /** Some restore gives the visitor its sandbox. */
  predicate GetsSandbox(ready: bool, w: World) {
    && LetsThrough(ready, w.first)
    && (w.restore.Restored?
        || (Rebuilds(ready, w) && LetsThrough(w.again.value.status.Ready?, w.second) && w.restoreAgain.Restored?))
  }

  /**
   When a launch fails, and why: each reason says exactly what happened to the visitor. A build turns it away
   on its own grounds, the first or the one that replaces a lost snapshot; the platform is full at either
   restore; the snapshot is lost and the commit cannot be queued, or is lost twice; or the sandbox never starts.
   */
  lemma LaunchTroubleMeans(ready: bool, w: World)
    ensures var t := LaunchTrouble(ready, w); var again := w.again.Some? && w.again.value.status.Ready?;
      && (t == "" <==> GetsSandbox(ready, w) && w.bootOk)
      && (t == "sandbox failed to start" <==> GetsSandbox(ready, w) && !w.bootOk)
      && (t == "rebuild failed" <==> LetsThrough(ready, w.first) && w.restore.Lost? && w.again.None?)
      && (t == "could not start a sandbox" <==>
            Rebuilds(ready, w) && LetsThrough(again, w.second) && w.restoreAgain.Lost?)
      && (t == "no capacity" <==>
            || (LetsThrough(ready, w.first) && w.restore.Busy?)
            || (Rebuilds(ready, w) && LetsThrough(again, w.second) && w.restoreAgain.Busy?))
      && (t == "build unavailable" <==>
            (!ready && w.first.Unavailable?) || (Rebuilds(ready, w) && !again && w.second.Unavailable?))
      && (t == "unsupported" <==>
            || (!ready && w.first.Streamed? && w.first.final.status.Unsupported?)
            || (Rebuilds(ready, w) && !again && w.second.Streamed? && w.second.final.status.Unsupported?))
  {
    FollowTroubleMeans(ready, w.first);
    if w.again.Some? {
      FollowTroubleMeans(w.again.value.status.Ready?, w.second);
    }
    hide FollowTrouble;
  }

  /** A full platform and an unsupported build have their own error codes; every other failure has the general one. */
  lemma TroubleCodes()
    ensures TroubleCode("no capacity") == "busy" && TroubleCode("unsupported") == "unsupported"
    ensures forall t | t in {"build unavailable", "build failed", "rebuild failed", "could not start a sandbox",
                             "sandbox failed to start"} :: TroubleCode(t) == "infra_error"
  {
  }

  /** The build the visitor goes on with. */
  function BuildAfter(bld: BuildView, reply: FollowReply): BuildView {
    if bld.status.Ready? || reply.Unavailable? then bld else reply.final
  }

  /** The lines of the first build: its stream, or its stored log if nothing was streamed. */
  function FirstLines(bld: BuildView, reply: FollowReply): seq<B.Tagged> {
    if !bld.status.Ready? && reply.Streamed? && reply.items != [] then B.Entries(reply.items)
    else B.Parse(BuildAfter(bld, reply).log, B.SplitPhase)
  }

  /** What the stream adds, and then the stored log if it was only the opening phase or not even that. */
  lemma FirstLinesAre(bld: BuildView, reply: FollowReply)
    ensures FirstLines(bld, reply) ==
            StreamLines(bld, reply)
            + if TellingLength(bld, reply) <= 1 then B.Parse(BuildAfter(bld, reply).log, B.SplitPhase) else []
  {
    hide B.Parse;
  }

  /** How an extension request is answered. */
  datatype ExtendReply = Granted(until: int) | NotLive | AlreadyExtended | PlatformError

  /** The goroutine of Manager.Subscribe for a session no longer listed; bld is None if the build cannot be read. */
  method TellLate(bld: Option<BuildView>, r: S.Session) returns (out: seq<Event>)
    ensures out == LateStory(bld, r)
  {
    hide B.Parse;
    out := [];
    if bld.Some? {
      var es := B.ReplayLog(bld.value.log);
      ghost var evs := Replayed(bld.value.log);
      for i := 0 to |es|
        invariant out == evs[..i]
      {
        assert evs[..i + 1] == evs[..i] + [LogEv(es[i])];
        out := out + [LogEv(es[i])];
      }
      assert evs[..|es|] == evs;
      match bld.value.status
      case Unsupported => out := out + [ErrorEv("unsupported")];
      case Failed => out := out + [ErrorEv("infra_error")];
      case _ =>
    }
    var reason := r.endedReason;
    if reason == "" {
      reason := "server restarted";
    }
    out := out + [EndedEv(reason)];
  }

  /** A run of which nothing has happened yet. */
  function Fresh(limits: Limits, s: S.Session, bld: BuildView, now: int): Sess {
    Sess(limits, s, s, bld, Joining, false, [], false, true, now, 0, 0, 0, 0, false, 0, Boxes(None, {}, {}))
  }

  lemma FreshRun(limits: Limits, s: S.Session, bld: BuildView, now: int)
    requires s.status == (if bld.status.Ready? then S.SStarting else S.SBuilding)
    requires !s.extended && s.expiresAt.None? && s.createdAt <= now && s.sandbox == ""
    requires !s.terminalReady && s.previewUrl == "" && s.endedReason == ""
    ensures var f := Fresh(limits, s, bld, now); Initial(f) && Executable(f, []) && Exec(f, []) == f
  {
  }

  class Run {
    const limits: Limits
    var stored: S.Session
    var copy: S.Session
    var bld: BuildView
    var rebuilt: bool
    var log: seq<Event>
    var done: bool
    var listed: bool
    var now: int
    ghost var pc: Pc
    ghost var liveAt: int
    ghost var attempts: nat
    ghost var rebuilds: nat
    ghost var grants: nat
    ghost var overtaken: bool
    ghost var late: nat
    var sb: Option<string>     // the run's sandbox variable
    ghost var made: set<string>
    ghost var gone: set<string>
    ghost var origin: Sess
    ghost var history: seq<Action>

    ghost function Abs(): Sess
      reads this
    {
      Sess(limits, stored, copy, bld, pc, rebuilt, log, done, listed, now, liveAt, attempts, rebuilds, grants,
           overtaken, late, Boxes(sb, made, gone))
    }

    ghost predicate Valid()
      reads this
    {
      Initial(origin) && Executable(origin, history) && Exec(origin, history) == Abs()
    }

    /** The session Create has just stored for a visitor of this build. */
    constructor (limits: Limits, s: S.Session, bld: BuildView, now: int)
      requires s.status == (if bld.status.Ready? then S.SStarting else S.SBuilding)
      requires !s.extended && s.expiresAt.None? && s.createdAt <= now && s.sandbox == ""
      requires !s.terminalReady && s.previewUrl == "" && s.endedReason == ""
      ensures Valid() && history == [] && pc.Joining? && !rebuilt && stored == s && this.bld == bld && this.limits == limits
    {
      this.limits, stored, copy, this.bld, this.now := limits, s, s, bld, now;
      rebuilt, log, done, listed := false, [], false, true;
      pc, liveAt, attempts, rebuilds, grants := Joining, 0, 0, 0, 0;
      overtaken, late := false, 0;
      sb, made, gone := None, {}, {};
      origin := Fresh(limits, s, bld, now);
      history := [];
      new;
      hide Exec, Executable, Initial;
      FreshRun(limits, s, bld, now);
    }

    /** What has just been done to the fields was action a. */
    ghost method Note(a: Action, before: Sess)
      requires Initial(origin) && Executable(origin, history) && Exec(origin, history) == before
      requires Enabled(before, a) && Abs() == Apply(before, a)
      modifies this`history
      ensures Valid() && history == old(history) + [a]
    {
      ExecSnoc(origin, history, a);
      history := history + [a];
    }

    /** The method did exactly this action. */
    twostate predicate Did(a: Action)
      reads this
    {
      && Valid() && origin == old(origin) && history == old(history) + [a]
      && Enabled(old(Abs()), a) && Abs() == Apply(old(Abs()), a)
    }

    lemma Reached()
      requires Valid()
      ensures Inv(Abs())
    {
      InitialInv(origin);
      RunKeepsInv(origin, history);
    }

    /** The record is ended for this reason, and the history closes with the error and the end. */
    ghost predicate FailedFor(reason: string)
      reads this
    {
      && stored.status.SEnded? && stored.endedReason == reason
      && |log| >= 2 && log[|log| - 2..] == [ErrorEv(TroubleCode(reason)), EndedEv(reason)]
    }

    /** If the session had not been ended before, it is now, for this reason. */
    twostate predicate EndedFor(reason: string)
      reads this
    {
      !old(stored.status.SEnded?) ==> FailedFor(reason)
    }

    /** Before it is live, nobody but the run ends the session. */
    lemma NotEndedYet()
      requires Valid() && BeforeLive(pc)
      ensures !stored.status.SEnded? && !stored.status.SLive?
      ensures pc.Joining? ==> log == []
    {
      Reached();
    }

    // ------------------------------------------------------- small pieces

    method EmitEvent(ev: Event)
      modifies this`log
      ensures log == old(log) + [ev]
    {
      log := log + [ev];
    }

    /** The run's copy changes and is stored. */
    method Store(r: S.Session)
      modifies this`stored, this`copy
      ensures copy == stored == r
    {
      copy, stored := r, r;
    }

    /** The run's own copy, ended, is stored and told; the log leaves the table of live ones. */
    method WriteEnd(reason: string)
      modifies this`stored, this`copy, this`log, this`done, this`listed
      ensures copy == stored == EndRecord(old(copy), reason) && log == old(log) + [EndedEv(reason)] && done && !listed
    {
      Store(copy.(status := S.SEnded, endedReason := reason));
      EmitEvent(EndedEv(reason));
      done, listed := true, false;
    }

    /** The end closure. */
    method End(reason: string)
      modifies this`stored, this`copy, this`log, this`done, this`listed, this`pc
      ensures Abs() == Ended(old(Abs()), reason) && pc.Over?
      ensures !old(stored.status.SEnded?) ==>
        stored.status.SEnded? && stored.endedReason == reason && log == old(log) + [EndedEv(reason)]
    {
      pc := Over;
      if stored.status.SEnded? {
        done := true;
      } else {
        WriteEnd(reason);
      }
    }

    method Fail(code: string, reason: string)
      requires code == TroubleCode(reason)
      modifies this`stored, this`copy, this`log, this`done, this`listed, this`pc
      ensures Abs() == FailWith(old(Abs()), code, reason) && pc.Over? && EndedFor(reason)
    {
      EmitEvent(ErrorEv(code));
      End(reason);
    }

    /** Forwards a build's stream into the session's. */
    method ForwardStream(items: seq<B.Event>)
      modifies this`log
      ensures log == old(log) + Forwarded(items, copy.status, StatusOf)
    {
      ghost var fwd := Forwarded(items, copy.status, StatusOf);
      for i := 0 to |items|
        invariant log == old(log) + fwd[..i]
      {
        assert fwd[..i + 1] == fwd[..i] + [fwd[i]];
        match items[i]
        case Log(e) => EmitEvent(LogEv(e));
        case Status(st) => EmitEvent(PhaseEv(StatusOf(st), copy.status));
      }
      assert fwd[..|items|] == fwd;
    }

    /** Replays a build's stored log into the session's. */
    method ReplayStored()
      modifies this`log
      ensures log == old(log) + Replayed(bld.log)
    {
      hide B.Parse;
      var es := B.ReplayLog(bld.log);
      ghost var evs := Replayed(bld.log);
      for i := 0 to |es|
        invariant log == old(log) + evs[..i]
      {
        assert evs[..i + 1] == evs[..i] + [LogEv(es[i])];
        EmitEvent(LogEv(es[i]));
      }
      assert evs[..|es|] == evs;
    }

    // ------------------------------------------------- the steps of the run

    /** What the settled build means for the visitor. */
    method Judge() returns (ok: bool)
      modifies this`stored, this`copy, this`log, this`done, this`listed, this`pc
      ensures Abs() == Judged(old(Abs())) && ok == bld.status.Ready?
      ensures if ok then pc == Next(old(pc))
              else pc.Over? && EndedFor(if bld.status.Unsupported? then "unsupported" else "build failed")
    {
      ok := false;
      match bld.status
      case Ready =>
        ok := true;
        pc := Next(pc);
      case Unsupported => Fail("unsupported", "unsupported");
      case _ => Fail("infra_error", "build failed");
    }

    /** A build's whole stream, then the record read after it. */
    method FollowItems(items: seq<B.Event>, final: BuildView) returns (ok: bool)
      modifies this`stored, this`copy, this`bld, this`log, this`done, this`listed, this`pc
      ensures Abs() == Judged(Emit(old(Abs()), Forwarded(items, old(copy).status, StatusOf)).(bld := final))
      ensures ok == final.status.Ready?
      ensures if ok then pc == Next(old(pc)) else pc.Over? && EndedFor(FollowTrouble(false, Streamed(items, final)))
      ensures bld == final
    {
      hide FailWith, StatusOf, Forwarded, Judged;
      ForwardStream(items);
      bld := final;
      ok := Judge();
    }

    /** The unsettled half of follow. */
    method FollowStream(reply: FollowReply) returns (ok: bool)
      requires !bld.status.Ready?
      modifies this`stored, this`copy, this`bld, this`log, this`done, this`listed, this`pc
      ensures Abs() == Followed(old(Abs()), reply)
      ensures ok == (FollowTrouble(false, reply) == "")
      ensures if ok then pc == Next(old(pc)) else pc.Over? && EndedFor(FollowTrouble(false, reply))
      ensures bld == BuildAfter(old(bld), reply)
    {
      hide FailWith, StatusOf, Forwarded, Judged;
      ok := false;
      EmitEvent(PhaseEv(bld.status, copy.status));
      match reply
      case Unavailable => Fail("infra_error", "build unavailable");
      case Streamed(items, final) => ok := FollowItems(items, final);
    }

    method LetIn(reply: FollowReply) returns (ok: bool)
      modifies this`stored, this`copy, this`bld, this`log, this`done, this`listed, this`pc
      ensures Abs() == Followed(old(Abs()), reply)
      ensures var trouble := FollowTrouble(old(bld).status.Ready?, reply);
        ok == (trouble == "") && if ok then pc == Next(old(pc)) else pc.Over? && EndedFor(trouble)
      ensures ok ==> LetsThrough(old(bld).status.Ready?, reply)
      ensures bld == BuildAfter(old(bld), reply)
    {
      if bld.status.Ready? {
        ok := true;
        pc := Next(pc);
      } else {
        hide Followed;
        ok := FollowStream(reply);
      }
    }

    /** follow: whether the visitor can proceed to a restore; if not, the session has been ended. */
    method FollowBuild(reply: FollowReply) returns (ok: bool)
      requires Valid() && (pc.Joining? || pc.Refollowing?)
      modifies this
      ensures Valid() && origin == old(origin)
      ensures Did(Follow(reply))
      ensures var trouble := FollowTrouble(old(bld).status.Ready?, reply);
        && ok == (trouble == "") && rebuilt == old(rebuilt)
        && if ok then pc == Next(old(pc)) else pc.Over? && EndedFor(trouble)
      ensures bld == BuildAfter(old(bld), reply) && LogLines(log) == old(LogLines(log)) + StreamLines(old(bld), reply)
      ensures ok ==> |log| == |old(log)| + TellingLength(old(bld), reply)
    {
      hide Exec, Executable, Initial, Begun, RestoreTried, Booted, WentLive, Announced, Polled, ExtendTried, Terminated,
        Followed, FollowTrouble, LogLines, StreamLines, TellingLength;
      ghost var before := Abs();
      ok := LetIn(reply);
      FollowTells(before, reply);
      Note(Follow(reply), before);
    }

    method TellStory()
      modifies this`log
      ensures log == if |old(log)| <= 1 then old(log) + Replayed(bld.log) else old(log)
    {
      hide Replayed;
      if |log| <= 1 {
        ReplayStored();
      }
    }

    method MarkStarting()
      modifies this`stored, this`copy, this`log, this`pc
      ensures Abs() == Begun(old(Abs())) && pc.Restoring? && bld == old(bld)
    {
      hide Replayed;
      TellStory();
      Store(copy.(status := S.SStarting));
      EmitEvent(PhaseEv(bld.status, copy.status));
      pc := Restoring;
    }

    /** The story of a build that was ready already, then the status starting. */
    method BeginRestore()
      requires Valid() && pc.Beginning?
      modifies this
      ensures Did(Begin) && pc.Restoring? && rebuilt == old(rebuilt) && bld == old(bld)
      ensures LogLines(log) == old(LogLines(log)) + if |old(log)| <= 1 then B.Parse(bld.log, B.SplitPhase) else []
    {
      hide LogLines, B.Parse;
      hide Exec, Executable, Initial, Followed, Begun, RestoreTried, Booted, WentLive, Announced, Polled, ExtendTried, Terminated;
      ghost var before := Abs();
      MarkStarting();
      BeginTells(before);
      Note(Begin, before);
    }

    /** The snapshot is gone: once, that means a rebuild; then it means the end. */
    method GiveUpOrRebuild()
      modifies this`stored, this`copy, this`log, this`done, this`listed, this`pc, this`rebuilt
      ensures Abs() == SnapshotLost(old(Abs())) && rebuilt
      ensures if old(rebuilt) then pc.Over? && EndedFor("could not start a sandbox") else pc.Rebuilding?
    {
      hide FailWith, RebuildNotice;
      if rebuilt {
        Fail("infra_error", "could not start a sandbox");
      } else {
        rebuilt := true;
        EmitEvent(RebuildNotice());
        pc := Rebuilding;
      }
    }

    method AdoptSandbox(id: string)
      modifies this`stored, this`copy, this`pc, this`sb, this`made
      ensures Abs() == Adopted(old(Abs()), id) && pc.Booting?
    {
      sb := Some(id);
      made := made + {id};
      copy := copy.(sandbox := id);
      stored := copy;
      pc := Booting;
    }

    /** Where a restore attempt leaves the run. */
    twostate predicate RestoreOutcome(reply: RestoreReply)
      reads this
    {
      && rebuilt == (old(rebuilt) || reply.Lost?)
      && match reply
         case Restored(_) => pc.Booting?
         case Busy => pc.Over? && EndedFor("no capacity")
         case Lost => if old(rebuilt) then pc.Over? && EndedFor("could not start a sandbox") else pc.Rebuilding?
    }

    method AttemptRestore(reply: RestoreReply)
      modifies this`stored, this`copy, this`log, this`done, this`listed, this`pc, this`rebuilt, this`attempts,
        this`sb, this`made
      ensures RestoreOutcome(reply)
      ensures Abs() == RestoreTried(old(Abs()), reply)
    {
      hide SnapshotLost, FailWith, Adopted;
      attempts := attempts + 1;
      match reply
      case Restored(id) => AdoptSandbox(id);
      case Busy => Fail("busy", "no capacity");
      case Lost => GiveUpOrRebuild();
    }

    /** One try at creating the visitor's sandbox from the snapshot. */
    method TryRestore(reply: RestoreReply)
      requires Valid() && pc.Restoring?
      modifies this
      ensures Valid() && origin == old(origin)
      ensures RestoreOutcome(reply) && bld == old(bld)
      ensures LogLines(log) == old(LogLines(log)) + if reply.Lost? && !old(rebuilt) then [RebuildNotice().entry] else []
      ensures Did(Restore(reply))
    {
      hide LogLines, RebuildNotice;
      hide Exec, Executable, Initial, Followed, Begun, RestoreTried, Booted, WentLive, Announced, Polled, ExtendTried, Terminated;
      ghost var before := Abs();
      AttemptRestore(reply);
      RestoreTells(before, reply);
      Note(Restore(reply), before);
    }

    method AskAgain(again: Option<BuildView>)
      modifies this`stored, this`copy, this`bld, this`log, this`done, this`listed, this`pc, this`rebuilds
      ensures Abs() == Rebuilt(old(Abs()), again)
      ensures if again.Some? then pc.Refollowing? && bld == again.value && log == old(log)
              else pc.Over? && EndedFor("rebuild failed")
    {
      hide FailWith;
      rebuilds := rebuilds + 1;
      if again.Some? {
        bld := again.value;
        pc := Refollowing;
      } else {
        Fail("infra_error", "rebuild failed");
      }
    }

    /** The commit is queued again, or the session ends. */
    method RebuildCommit(again: Option<BuildView>) returns (ok: bool)
      requires Valid() && pc.Rebuilding?
      modifies this
      ensures Valid() && origin == old(origin)
      ensures ok == again.Some? && rebuilt == old(rebuilt)
      ensures if ok then pc.Refollowing? && bld == again.value && log == old(log)
              else pc.Over? && EndedFor("rebuild failed")
      ensures Did(Rebuild(again))
    {
      hide Exec, Executable, Initial, Followed, Begun, RestoreTried, Rebuilt, Booted, WentLive, Announced, Polled, ExtendTried,
        Terminated;
      ghost var before := Abs();
      ok := again.Some?;
      AskAgain(again);
      Note(Rebuild(again), before);
    }

    /** A delete of a sandbox; an error is ignored. */
    method DeleteSandbox(id: string, ok: bool)
      modifies this`gone
      ensures Abs() == Dropped(old(Abs()), id, ok)
    {
      if ok {
        gone := gone + {id};
      }
    }

    method AwaitSandbox(ok: bool, returned: string, deleted: bool)
      modifies this`stored, this`copy, this`log, this`done, this`listed, this`pc, this`sb, this`gone
      ensures Abs() == Booted(old(Abs()), ok, returned, deleted)
      ensures if ok then pc.Exposing? && log == old(log) else pc.Over? && EndedFor("sandbox failed to start")
    {
      hide FailWith, Dropped;
      sb := Some(returned);
      if ok {
        pc := Exposing;
      } else {
        DeleteSandbox(returned, deleted);
        Fail("infra_error", "sandbox failed to start");
      }
    }

    /** The wait for the sandbox; its record replaces the variable, and on an error is the one deleted. */
    method BootSandbox(ok: bool, returned: string, deleted: bool)
      requires Valid() && pc.Booting?
      modifies this
      ensures if ok then pc.Exposing? && log == old(log) else pc.Over? && EndedFor("sandbox failed to start")
      ensures Did(Boot(ok, returned, deleted)) && bld == old(bld)
    {
      hide Exec, Executable, Initial, Followed, Begun, RestoreTried, Booted, WentLive, Announced, Polled, ExtendTried, Terminated;
      ghost var before := Abs();
      AwaitSandbox(ok, returned, deleted);
      Note(Boot(ok, returned, deleted), before);
    }

    /**
     The record has the platform's URL, and the history tells it and the port, exactly when the build is a
     web app with a port and the platform exposed it.
     */
    ghost predicate HasItsPreview(url: Option<string>)
      reads this
    {
      var shown := bld.web && bld.port > 0 && url.Some?;
      && stored.previewUrl == (if shown then url.value else "")
      && Previews(log) == if shown then [(url.value, bld.port)] else []
    }

    lemma NonePreviewedYet()
      requires Valid() && pc.Exposing?
      ensures copy.previewUrl == "" && Previews(log) == []
    {
      Reached();
      hide Valid, Abs, Exec, Executable, Initial;
      NoneBeforeLive(Abs());
    }

    method ShowPreview(url: Option<string>)
      modifies this`copy, this`log
      ensures Abs() == Previewed(old(Abs()), url)
      ensures if bld.web && bld.port > 0 && url.Some?
              then copy.previewUrl == url.value && log == old(log) + [PreviewEv(url.value, bld.port)]
              else copy == old(copy) && log == old(log)
    {
      if bld.web && bld.port > 0 && url.Some? {
        copy := copy.(previewUrl := url.value);
        EmitEvent(PreviewEv(url.value, bld.port));
      }
    }

    method StartClock() returns (exp: int)
      modifies this`stored, this`copy, this`pc, this`liveAt
      ensures Abs() == WindowOpened(old(Abs())) && pc.TellingTerminal?
      ensures copy == stored && stored.status.SLive? && stored.terminalReady && liveAt == now
      ensures stored.expiresAt == Some(exp) && exp == now + limits.ttl && stored.previewUrl == old(copy.previewUrl)
    {
      exp := now + limits.ttl;
      Store(copy.(status := S.SLive, terminalReady := true, expiresAt := Some(exp)));
      pc, liveAt := TellingTerminal, now;
    }

    /** Expose the app's port if it has one, then store the session as live with its first window. */
    method OpenWindow(url: Option<string>) returns (exp: int)
      requires Valid() && pc.Exposing?
      modifies this
      ensures Did(GoLive(url)) && pc.TellingTerminal? && copy.expiresAt == Some(exp)
      ensures stored.status.SLive? && stored.terminalReady && stored.expiresAt == Some(exp) && exp == now + limits.ttl
      ensures bld == old(bld) && now == old(now) && liveAt == now
      ensures if bld.web && bld.port > 0 && url.Some?
              then stored.previewUrl == url.value && log == old(log) + [PreviewEv(url.value, bld.port)]
              else stored.previewUrl == "" && log == old(log)
      ensures HasItsPreview(url) && LogLines(log) == old(LogLines(log))
    {
      hide Exec, Executable, Initial, Followed, Begun, RestoreTried, Booted, Announced, Polled, ExtendTried, Terminated;
      ghost var before := Abs();
      hide Previewed, WindowOpened, Previews, LogLines;
      NonePreviewedYet();
      ShowPreview(url);
      exp := StartClock();
      OneMoreTold(before.log, PreviewEv(url.GetOr(""), bld.port));
      Note(GoLive(url), before);
    }

    method TellNext(e: Event)
      requires e == News(Abs()) && !e.PreviewEv? && !e.LogEv?
      modifies this`log, this`pc, this`late
      ensures Abs() == Announced(old(Abs())) && pc == AfterNews(old(pc)) && ToldAlike()
    {
      hide News, AfterNews, LogLines, Previews;
      OneMoreTold(log, e);
      EmitEvent(e);
      pc := AfterNews(pc);
      if stored.status.SEnded? {
        late := late + 1;
      }
    }

    /** One announcement of going live; it is recorded even if the session has been ended meanwhile. */
    method Tell(e: Event)
      requires Valid() && Telling(pc) && e == News(Abs()) && !e.PreviewEv? && !e.LogEv?
      modifies this`log, this`pc, this`late, this`history
      ensures Valid() && origin == old(origin) && pc == AfterNews(old(pc)) && ToldAlike() && bld == old(bld)
      ensures Did(Announce)
    {
      hide Exec, Executable, Initial, Followed, Begun, RestoreTried, Booted, WentLive, Announced, Polled, ExtendTried,
        Terminated, News, AfterNews;
      ghost var before := Abs();
      TellNext(e);
      Note(Announce, before);
    }

    lemma NextNews(exp: int)
      requires copy.expiresAt == Some(exp)
      ensures pc.TellingTerminal? ==> News(Abs()) == TerminalEv && AfterNews(pc) == TellingWindow
      ensures pc.TellingWindow? ==> News(Abs()) == TtlEv(exp, false) && AfterNews(pc) == TellingLive
      ensures pc.TellingLive? ==> News(Abs()) == PhaseEv(bld.status, copy.status) && AfterNews(pc) == Watching
    {
    }

    /** The three announcements, others free to act before each. */
    method AnnounceLive(exp: int, gaps: nat -> seq<Outside>)
      requires Valid() && pc.TellingTerminal? && copy.expiresAt == Some(exp)
      modifies this
      ensures Valid() && origin == old(origin) && pc.Watching? && ToldAlike() && bld == old(bld)
    {
      hide Exec, Executable, Initial, Enabled, Apply, Did, News, AfterNews, Abs, Valid, LogLines, Previews;
      Meanwhile(gaps(8));
      NextNews(exp);
      Tell(TerminalEv);
      Meanwhile(gaps(9));
      NextNews(exp);
      Tell(TtlEv(exp, false));
      Meanwhile(gaps(10));
      NextNews(exp);
      Tell(PhaseEv(bld.status, copy.status));
    }

    method ActOnPoll(reply: PollReply, deleted: bool) returns (over: bool)
      requires pc.Watching?
      modifies this`stored, this`copy, this`log, this`done, this`listed, this`pc, this`gone
      ensures Abs() == Polled(old(Abs()), reply, deleted)
      ensures pc == if over then Over else Watching
      ensures !over ==> stored == old(stored) && (stored.expiresAt.Some? ==> now <= stored.expiresAt.value)
    {
      hide Ended, Dropped;
      over := true;
      match reply {
        case Gone =>
          DeleteSandbox(sb.GetOr(""), true);
          End("session expired");
        case Stopped => End("sandbox stopped");
        case Fine =>
          copy := stored;
          over := copy.expiresAt.Some? && now > copy.expiresAt.value;
          if over {
            DeleteSandbox(sb.GetOr(""), deleted);
            End("session expired");
          }
      }
    }

    /** One poll of the watcher. A sandbox the platform does not find is gone already. */
    method PollOnce(reply: PollReply, deleted: bool) returns (over: bool)
      requires Valid() && pc.Watching?
      modifies this
      ensures pc == if over then Over else Watching
      ensures !over ==> stored == old(stored) && now == old(now) && (stored.expiresAt.Some? ==> now <= stored.expiresAt.value)
      ensures Did(Poll(reply, deleted))
    {
      hide Exec, Executable, Initial, Followed, Begun, RestoreTried, Booted, WentLive, Announced, Polled, ExtendTried, Terminated;
      ghost var before := Abs();
      over := ActOnPoll(reply, deleted);
      Note(Poll(reply, deleted), before);
    }

    // ------------------------------------------------------ from the outside

    method Pass(d: nat)
      requires Valid()
      modifies this`now, this`history
      ensures Did(Tick(d)) && now == old(now) + d && ToldAlike()
    {
      hide Exec, Executable, Initial, Followed, Begun, RestoreTried, Booted, WentLive, Announced, Polled, ExtendTried, Terminated;
      ghost var before := Abs();
      now := now + d;
      Note(Tick(d), before);
    }

    method Grant(exp: int)
      modifies this`stored, this`log, this`grants, this`overtaken
      ensures overtaken == (old(overtaken) || AheadOfWindow(pc))
      ensures stored == old(stored).(extended := true, expiresAt := Some(exp)) && grants == old(grants) + 1
      ensures log == old(log) + if listed then [TtlEv(exp, true)] else []
    {
      stored := stored.(extended := true, expiresAt := Some(exp));
      grants := grants + 1;
      overtaken := overtaken || AheadOfWindow(pc);
      if listed {
        EmitEvent(TtlEv(exp, true));
      }
    }

    method TryExtend(keptAlive: bool) returns (r: ExtendReply)
      modifies this`stored, this`log, this`grants, this`overtaken
      ensures Abs() == ExtendTried(old(Abs()), keptAlive)
      ensures r.Granted? <==> old(MayExtend(stored)) && keptAlive
      ensures r.Granted? ==> stored == old(stored).(extended := true, expiresAt := Some(r.until))
      ensures r.Granted? ==>
        && (r.until == now + limits.ttl || r.until == stored.createdAt + limits.maxTtl)
        && r.until <= now + limits.ttl && r.until <= stored.createdAt + limits.maxTtl
      ensures r.Granted? && listed ==> log == old(log) + [TtlEv(r.until, true)]
      ensures !r.Granted? || !listed ==> log == old(log)
      ensures !r.Granted? ==> stored == old(stored)
      ensures r.NotLive? <==> !old(stored.status.SLive?) || old(stored.sandbox) == ""
      ensures r.AlreadyExtended? <==> old(stored.status.SLive? && stored.sandbox != "" && stored.extended)
    {
      if !stored.status.SLive? || stored.sandbox == "" {
        return NotLive;
      }
      if stored.extended {
        return AlreadyExtended;
      }
      if !keptAlive {
        return PlatformError;
      }
      var exp := stored.createdAt + limits.maxTtl;
      var sooner := now + limits.ttl;
      if sooner < exp {
        exp := sooner;
      }
      Grant(exp);
      return Granted(exp);
    }

    /** Extend: granted only to a live session not yet extended, and only if the platform keeps it alive. */
    method RequestExtension(keptAlive: bool) returns (r: ExtendReply)
      requires Valid()
      modifies this`stored, this`log, this`grants, this`overtaken, this`history
      ensures Did(Extend(keptAlive))
      ensures r.Granted? <==> old(MayExtend(stored)) && keptAlive
      ensures r.Granted? ==> stored == old(stored).(extended := true, expiresAt := Some(r.until))
      ensures r.Granted? ==>
        && (r.until == now + limits.ttl || r.until == stored.createdAt + limits.maxTtl)
        && r.until <= now + limits.ttl && r.until <= stored.createdAt + limits.maxTtl
      ensures r.Granted? && listed ==> log == old(log) + [TtlEv(r.until, true)]
      ensures !r.Granted? || !listed ==> log == old(log)
      ensures !r.Granted? ==> stored == old(stored)
      ensures r.NotLive? <==> !old(stored.status.SLive?) || old(stored.sandbox) == ""
      ensures r.AlreadyExtended? <==> old(stored.status.SLive? && stored.sandbox != "" && stored.extended)
      ensures ToldAlike()
    {
      hide LogLines, Previews;
      hide Exec, Executable, Initial, Followed, Begun, RestoreTried, Booted, WentLive, Announced, Polled, ExtendTried, Terminated;
      ghost var before := Abs();
      r := TryExtend(keptAlive);
      OneMoreTold(before.log, TtlEv(if r.Granted? then r.until else 0, true));
      Note(Extend(keptAlive), before);
    }

    /** The record ended, and the listeners told if there are any. */
    method CloseRecord(reason: string)
      modifies this`stored, this`log, this`done, this`listed
      ensures stored == EndRecord(old(stored), reason) && !listed
      ensures log == old(log) + (if old(listed) then [EndedEv(reason)] else []) && done == (old(done) || old(listed))
    {
      stored := stored.(status := S.SEnded, endedReason := reason);
      if listed {
        EmitEvent(EndedEv(reason));
        done := true;
      }
      listed := false;
    }

    method Evict(reason: string, deleted: bool)
      modifies this`stored, this`log, this`done, this`listed, this`gone
      ensures Abs() == Terminated(old(Abs()), reason, deleted) && stored == EndRecord(old(stored), reason)
      ensures log == if old(listed) then old(log) + [EndedEv(reason)] else old(log)
    {
      if stored.sandbox != "" {
        DeleteSandbox(stored.sandbox, deleted);
      }
      CloseRecord(reason);
    }

    /** terminate, on a live session: its sandbox is deleted, the record ended, the listeners told. */
    method Terminate(reason: string, deleted: bool)
      requires Valid() && stored.status.SLive?
      modifies this`stored, this`log, this`done, this`listed, this`gone, this`history
      ensures Did(Action.Terminate(reason, deleted)) && stored == EndRecord(old(stored), reason)
      ensures ToldAlike()
    {
      hide LogLines, Previews;
      hide Exec, Executable, Initial, Followed, Begun, RestoreTried, Booted, WentLive, Announced, Polled, ExtendTried, Terminated;
      ghost var before := Abs();
      Evict(reason, deleted);
      OneMoreTold(before.log, EndedEv(reason));
      Note(Action.Terminate(reason, deleted), before);
    }

    /** No line and no preview is told. */
    twostate predicate ToldAlike()
      reads this
    {
      && LogLines(log) == old(LogLines(log)) && Previews(log) == old(Previews(log))
      && stored.previewUrl == old(stored.previewUrl)
    }

    /** The clock only advances, the run stays where it is, and the expiry moves only with the one extension. */
    twostate predicate Undisturbed()
      reads this
    {
      && Valid() && origin == old(origin) && pc == old(pc) && now >= old(now)
      && copy == old(copy) && bld == old(bld) && rebuilt == old(rebuilt)
      && (!old(stored.status.SLive?) ==> stored == old(stored) && log == old(log))
      && ToldAlike()
      && (old(stored.extended) ==> stored.extended)
      && (stored.extended == old(stored.extended) ==> stored.expiresAt == old(stored.expiresAt))
    }

    method OneOutside(o: Outside)
      requires Valid()
      modifies this
      ensures Undisturbed()
    {
      hide Exec, Executable, Initial, Enabled, Apply, LogLines, Previews;
      match o
      case Passes(d) => Pass(d);
      case AsksToExtend(kept) => var _ := RequestExtension(kept);
      case OpensAnother(reason, deleted) =>
        if stored.status.SLive? {
          Terminate(reason, deleted);
        }
    }

    method Meanwhile(os: seq<Outside>)
      requires Valid()
      modifies this
      ensures Undisturbed()
    {
      hide Exec, Executable, Initial, Enabled, Apply, LogLines, Previews;
      for i := 0 to |os|
        invariant Undisturbed()
      {
        OneOutside(os[i]);
      }
    }

    // ------------------------------------------------------------ the run

    /** The run has told of the lost snapshot and of the build that replaces it, and goes on with that one. */
    twostate predicate Redone(w: World)
      reads this
    {
      && w.again.Some? && bld == BuildAfter(w.again.value, w.second)
      && LogLines(log) == old(LogLines(log)) + [RebuildNotice().entry] + StreamLines(w.again.value, w.second)
    }

    /** Why the replacement of a lost snapshot's build turns the visitor away, if it does. */
    function RebuildTrouble(w: World): string {
      if w.again.None? then "rebuild failed" else FollowTrouble(w.again.value.status.Ready?, w.second)
    }

    /** The commit queued again and its build followed. */
    method ReplaceBuild(w: World) returns (ok: bool)
      requires Valid() && pc.Rebuilding? && rebuilt
      modifies this
      ensures Valid() && origin == old(origin) && rebuilt
      ensures ok == (RebuildTrouble(w) == "")
      ensures if ok then pc.Restoring? else pc.Over? && FailedFor(RebuildTrouble(w))
      ensures ok ==>
        && w.again.Some? && bld == BuildAfter(w.again.value, w.second)
        && LogLines(log) == old(LogLines(log)) + StreamLines(w.again.value, w.second)
    {
      hide Exec, Executable, Initial, Enabled, Apply, FollowTrouble, LogLines, Previews, StreamLines, BuildAfter;
      Meanwhile(w.gaps(3));
      NotEndedYet();
      ok := RebuildCommit(w.again);
      if !ok {
        return;
      }
      Meanwhile(w.gaps(4));
      NotEndedYet();
      ok := FollowBuild(w.second);
    }

    /** The restore loop: the rebuilt flag allows a second turn and no third. */
    method RestoreLoop(w: World) returns (ok: bool)
      requires Valid() && pc.Restoring? && !rebuilt
      modifies this
      ensures Valid() && origin == old(origin) && ok == (RestoreTrouble(w) == "")
      ensures if ok then pc.Booting? else pc.Over? && FailedFor(RestoreTrouble(w))
      ensures ok && !w.restore.Restored? ==> w.again.Some?
      ensures ok ==> if w.restore.Restored? then bld == old(bld) && LogLines(log) == old(LogLines(log)) else Redone(w)
    {
      hide Exec, Executable, Initial, Enabled, Apply, FollowTrouble, Did, Abs, FailedFor, LogLines, StreamLines, BuildAfter,
        RebuildNotice;
      while true
        invariant Valid() && origin == old(origin) && pc.Restoring?
        invariant if rebuilt then
                    && w.restore.Lost? && w.again.Some? && FollowTrouble(w.again.value.status.Ready?, w.second) == ""
                    && Redone(w)
                  else bld == old(bld) && LogLines(log) == old(LogLines(log))
        decreases !rebuilt
      {
        var last := rebuilt;
        var reply := if last then w.restoreAgain else w.restore;
        Meanwhile(w.gaps(if last then 5 else 2));
        NotEndedYet();
        TryRestore(reply);
        if reply.Restored? {
          return true;
        }
        if reply.Busy? || last {
          return false;
        }
        ok := ReplaceBuild(w);
        if !ok {
          return;
        }
      }
    }

    /** The first build, followed; nothing else has been told. */
    method FollowFirst(w: World) returns (ok: bool)
      requires Valid() && pc.Joining? && !rebuilt
      modifies this
      ensures Valid() && origin == old(origin)
      ensures ok == (FollowTrouble(old(bld).status.Ready?, w.first) == "")
      ensures if ok then pc.Beginning? && !rebuilt else pc.Over? && FailedFor(FollowTrouble(old(bld).status.Ready?, w.first))
      ensures ok ==>
        && bld == BuildAfter(old(bld), w.first) && LogLines(log) == StreamLines(old(bld), w.first)
        && |log| == TellingLength(old(bld), w.first)
    {
      assert LogLines([]) == [];
      hide Exec, Executable, Initial, Enabled, Apply, LogLines, Previews, FollowTrouble, StreamLines, TellingLength, BuildAfter;
      Meanwhile(w.gaps(0));
      NotEndedYet();
      ok := FollowBuild(w.first);
    }

    /** The build is followed, its story told, and the session is starting; or it has ended. */
    method Join(w: World) returns (ok: bool)
      requires Valid() && pc.Joining? && !rebuilt
      modifies this
      ensures Valid() && origin == old(origin)
      ensures ok == (FollowTrouble(old(bld).status.Ready?, w.first) == "")
      ensures if ok then pc.Restoring? && !rebuilt else pc.Over? && FailedFor(FollowTrouble(old(bld).status.Ready?, w.first))
      ensures ok ==> bld == BuildAfter(old(bld), w.first) && LogLines(log) == FirstLines(old(bld), w.first)
    {
      hide Exec, Executable, Initial, Enabled, Apply, LogLines, Previews, FollowTrouble, StreamLines, TellingLength, BuildAfter,
        FirstLines, B.Parse;
      FirstLinesAre(bld, w.first);
      ok := FollowFirst(w);
      if ok {
        NotEndedYet();
        Meanwhile(w.gaps(1));
        BeginRestore();
      }
    }

    /** The sandbox is awaited, the port exposed, the session live and announced; or it has ended. */
    method GoOnAir(w: World)
      requires Valid() && pc.Booting?
      modifies this
      ensures Valid() && origin == old(origin)
      ensures if w.bootOk then pc.Watching? else pc.Over? && FailedFor("sandbox failed to start")
      ensures w.bootOk ==> bld == old(bld) && LogLines(log) == old(LogLines(log)) && HasItsPreview(w.url)
    {
      hide Exec, Executable, Initial, Enabled, Apply, LogLines, Previews, FailedFor, Abs;
      Meanwhile(w.gaps(6));
      NotEndedYet();
      BootSandbox(w.bootOk, w.waited, w.deleted);
      if w.bootOk {
        Meanwhile(w.gaps(7));
        var exp := OpenWindow(w.url);
        AnnounceLive(exp, w.gaps);
      }
    }

    /** From the build to a live session, announced. */
    method Launch(w: World) returns (ok: bool)
      requires Valid() && pc.Joining? && !rebuilt
      modifies this
      ensures Valid() && origin == old(origin)
      ensures var trouble := LaunchTrouble(old(bld).status.Ready?, w);
        && ok == (trouble == "")
        && if ok then pc.Watching? else pc.Over? && FailedFor(trouble)
      ensures ok ==>
        && bld == (if w.restore.Restored? then BuildAfter(old(bld), w.first) else BuildAfter(w.again.value, w.second))
        && LogLines(log) == FirstLines(old(bld), w.first)
                            + (if w.restore.Restored? then []
                               else [RebuildNotice().entry] + StreamLines(w.again.value, w.second))
        && HasItsPreview(w.url)
    {
      hide Exec, Executable, Initial, Enabled, Apply, FollowTrouble, RestoreTrouble, LogLines, Previews, FailedFor, Abs, Did,
        Valid, HasItsPreview, BuildAfter, FirstLines, StreamLines, RebuildNotice;
      ok := Join(w);
      if !ok {
        return;
      }
      ok := RestoreLoop(w);
      if !ok {
        return;
      }
      ok := w.bootOk;
      GoOnAir(w);
    }

    lemma WindowKnown()
      requires Valid() && pc.Watching?
      ensures stored.expiresAt.Some?
    {
      Reached();
    }

    /** What is left of the stored window. */
    ghost function Remaining(): int
      reads this
    {
      if stored.expiresAt.Some? then stored.expiresAt.value - now else 0
    }

    /**
     The watcher. It always stops: time passes between polls, each window is finite, and there is at
     most one extension.
     */
    method Watch(rounds: nat -> Round)
      requires Valid() && pc.Watching?
      modifies this
      ensures Valid() && origin == old(origin) && pc.Over?
    {
      hide Exec, Executable, Initial, Enabled, Apply;
      var i: nat := 0;
      var over := false;
      while !over
        invariant Valid() && origin == old(origin) && pc == if over then Over else Watching
        decreases !over, !stored.extended, Remaining()
      {
        Pass(1 + rounds(i).sleep);
        Meanwhile(rounds(i).meanwhile);
        over := PollOnce(rounds(i).polled, rounds(i).deleted);
        if !over {
          WindowKnown();
        }
        i := i + 1;
      }
    }

    /**
     run, start to finish, whatever the platform, the builder and other visitors do between its steps:
     it returns, and then the stored session is ended and its log holds exactly one ended event, the last
     unless a termination fell among the announcements of going live.
     */
    method Drive(w: World)
      requires Valid() && pc.Joining? && !rebuilt
      modifies this
      ensures Valid() && origin == old(origin) && pc.Over?
      ensures stored.status.SEnded? && done && EndsAt(log, stored.endedReason, late) && late <= 3
      ensures EndsOnce(log, stored.endedReason) <==> !CutShort(origin, history)
      ensures attempts <= 2 && rebuilds <= 1 && grants <= 1
      ensures var trouble := LaunchTrouble(old(bld).status.Ready?, w);
        trouble != "" ==> FailedFor(trouble)
    {
      hide Exec, Executable, Initial, Enabled, Apply, LaunchTrouble;
      var ok := Launch(w);
      if ok {
        Watch(w.rounds);
      }
      RunsEndOnce(origin, history);
      EndIsLastIffNotCutShort(origin, history);
      Reached();
    }
  }
}
