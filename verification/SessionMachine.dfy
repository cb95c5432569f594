/**
 One visitor session as a transition system: the run that drives it, interleaved with a clock, with
 extension requests, and with terminations while it is live.
 */
module SessionMachine {
  import opened Wrappers
  import S = Store
  import B = BuildLog

  datatype Limits = Limits(ttl: int, maxTtl: int)

  /** What the run reads of a build record. */
  datatype BuildView = BuildView(status: S.BuildStatus, web: bool, port: int, log: string)

  datatype Event =
    | LogEv(entry: B.Tagged)
    | PhaseEv(build: S.BuildStatus, session: S.SessionStatus)
    | PreviewEv(url: string, port: int)
    | TerminalEv
    | TtlEv(expires: int, extended: bool)
    | EndedEv(reason: string)
    | ErrorEv(code: string)

  /** Where the run stands. */
  datatype Pc =
    | Joining     // follow the build the visitor joined
    | Beginning   // replay its log, mark the session starting
    | Restoring   // create the sandbox from the snapshot
    | Rebuilding  // the snapshot is gone: queue the commit again
    | Refollowing // follow the new build
    | Booting     // wait for the sandbox
    | Exposing    // expose the port, store the session as live
    | TellingTerminal // then tell: the terminal is ready,
    | TellingWindow   // the window,
    | TellingLive     // and the status
    | Watching    // poll until the end
    | Over

  /** Item of a build's stream as the session sees it. */
  datatype FollowReply =
    | Unavailable
    | Streamed(items: seq<B.Event>, final: BuildView)

  datatype RestoreReply = Restored(sandbox: string) | Busy | Lost
  datatype PollReply = Gone | Stopped | Fine

  /** The visitor's sandbox: the run's variable, the sandboxes the run created, and those deleted or found gone. */
  datatype Boxes = Boxes(held: Option<string>, made: set<string>, gone: set<string>)

  datatype Sess = Sess(
    limits: Limits,
    stored: S.Session, // the record in the store
    copy: S.Session,   // the run's own copy
    bld: BuildView,
    pc: Pc,
    rebuilt: bool,
    log: seq<Event>,
    done: bool,        // the log is finished
    listed: bool,      // the log is in the manager's table of live logs
    now: int,
    liveAt: int,       // when the run went live
    attempts: nat,     // restores tried
    rebuilds: nat,     // rebuilds asked for
    grants: nat,       // extensions granted
    overtaken: bool,   // an extension was told before the run told its own window
    late: nat,         // what the run told after the end had been told
    boxes: Boxes)

  datatype Action =
    | Follow(reply: FollowReply)
    | Begin
    | Restore(restored: RestoreReply)
    | Rebuild(again: Option<BuildView>)
    | Boot(ok: bool, returned: string, deleted: bool)
    | GoLive(url: Option<string>)
    | Announce
    | Poll(polled: PollReply, deleted: bool)
    | Tick(d: nat)
    | Extend(keptAlive: bool)
    | Terminate(reason: string, deleted: bool)

  // ---------------------------------------------------------- record changes

  function EndRecord(r: S.Session, reason: string): S.Session { r.(status := S.SEnded, endedReason := reason) }

  /** The expiry Extend grants: the hard cap, or a full window from now if that is sooner. */
  function ExtendedExpiry(r: S.Session, now: int, limits: Limits): int {
    if now + limits.ttl < r.createdAt + limits.maxTtl then now + limits.ttl else r.createdAt + limits.maxTtl
  }

  predicate MayExtend(r: S.Session) { r.status.SLive? && r.sandbox != "" && !r.extended }

  function Emit(s: Sess, evs: seq<Event>): Sess { s.(log := s.log + evs) }

  /** The run's end closure: keep an end that is already stored, else store this one, tell, and leave. */
  function Ended(s: Sess, reason: string): Sess {
    if s.stored.status.SEnded? then s.(done := true, pc := Over)
    else
      var r := EndRecord(s.copy, reason);
      s.(stored := r, copy := r, log := s.log + [EndedEv(reason)], done := true, listed := false, pc := Over)
  }

  /** A sandbox is gone, if the delete worked. */
  function Dropped(s: Sess, id: string, ok: bool): Sess {
    if ok then s.(boxes := s.boxes.(gone := s.boxes.gone + {id})) else s
  }

  function HeldId(s: Sess): string { s.boxes.held.GetOr("") }

  function FailWith(s: Sess, code: string, reason: string): Sess { Ended(Emit(s, [ErrorEv(code)]), reason) }

  /** The events a followed stream turns into, and the last status it reported. */
  function Forwarded(items: seq<B.Event>, session: S.SessionStatus, toStatus: string -> S.BuildStatus): seq<Event> {
    seq(|items|, i requires 0 <= i < |items| =>
      match items[i]
      case Log(e) => LogEv(e)
      case Status(st) => PhaseEv(toStatus(st), session))
  }

  function StatusOf(st: string): S.BuildStatus {
    match st
    case "queued" => S.Queued
    case "building" => S.Building
    case "ready" => S.Ready
    case "unsupported" => S.Unsupported
    case _ => S.Failed
  }

  function Replayed(log: string): seq<Event> { B.Map(B.Parse(log, B.SplitPhase), e => LogEv(e)) }

  /** What Manager.Subscribe tells of a session no longer listed: its build's log and outcome, then the end. */
  function LateBuild(bld: Option<BuildView>): seq<Event> {
    match bld
    case None => []
    case Some(b) => Replayed(b.log) + (match b.status
                                       case Unsupported => [ErrorEv("unsupported")]
                                       case Failed => [ErrorEv("infra_error")]
                                       case _ => [])
  }

  function ToldReason(r: S.Session): string { if r.endedReason == "" then "server restarted" else r.endedReason }

  function LateStory(bld: Option<BuildView>, r: S.Session): seq<Event> {
    LateBuild(bld) + [EndedEv(ToldReason(r))]
  }

  // ------------------------------------------------------------ transitions

  predicate Enabled(s: Sess, a: Action) {
    match a
    case Follow(_) => s.pc.Joining? || s.pc.Refollowing?
    case Begin => s.pc.Beginning?
    case Restore(r) => s.pc.Restoring?
    case Rebuild(_) => s.pc.Rebuilding?
    case Boot(_, _, _) => s.pc.Booting?
    case GoLive(_) => s.pc.Exposing?
    case Announce => Telling(s.pc)
    case Poll(_, _) => s.pc.Watching?
    case Tick(_) => true
    case Extend(_) => true
    case Terminate(_, _) => s.stored.status.SLive?
  }

  function Next(pc: Pc): Pc { if pc.Joining? then Beginning else Restoring }

  /** What the settled build means for the visitor: on to the next step, or the end. */
  function Judged(s: Sess): Sess {
    match s.bld.status
    case Ready => s.(pc := Next(s.pc))
    case Unsupported => FailWith(s, "unsupported", "unsupported")
    case _ => FailWith(s, "infra_error", "build failed")
  }

  /** follow: a ready build lets the visitor through at once; otherwise its stream decides. */
  function Followed(s: Sess, reply: FollowReply): Sess {
    if s.bld.status.Ready? then s.(pc := Next(s.pc))
    else
      var t := Emit(s, [PhaseEv(s.bld.status, s.copy.status)]);
      match reply
      case Unavailable => FailWith(t, "infra_error", "build unavailable")
      case Streamed(items, final) => Judged(Emit(t, Forwarded(items, s.copy.status, StatusOf)).(bld := final))
  }

  /** A visitor of a build that was ready gets its stored log; then the session is starting. */
  function Begun(s: Sess): Sess {
    var t := if |s.log| <= 1 then Emit(s, Replayed(s.bld.log)) else s;
    var r := s.copy.(status := S.SStarting);
    Emit(t.(copy := r, stored := r, pc := Restoring), [PhaseEv(s.bld.status, S.SStarting)])
  }

  function RebuildNotice(): (e: Event)
    ensures e.LogEv?
  {
    LogEv(B.Tagged("restore", "the saved snapshot is no longer available; rebuilding this commit"))
  }

  function SnapshotLost(s: Sess): Sess {
    if s.rebuilt then FailWith(s, "infra_error", "could not start a sandbox")
    else Emit(s.(rebuilt := true, pc := Rebuilding), [RebuildNotice()])
  }

  /** The sandbox created for the visitor becomes the run's and the record's. */
  function Adopted(s: Sess, id: string): Sess {
    var r := s.copy.(sandbox := id);
    s.(copy := r, stored := r, pc := Booting, boxes := s.boxes.(held := Some(id), made := s.boxes.made + {id}))
  }

  function RestoreTried(s: Sess, reply: RestoreReply): Sess {
    var t := s.(attempts := s.attempts + 1);
    match reply
    case Restored(id) => Adopted(t, id)
    case Busy => FailWith(t, "busy", "no capacity")
    case Lost => SnapshotLost(t)
  }

  /** The commit queued again, or not. */
  function Rebuilt(s: Sess, again: Option<BuildView>): Sess {
    var t := s.(rebuilds := s.rebuilds + 1);
    if again.None? then FailWith(t, "infra_error", "rebuild failed") else t.(bld := again.value, pc := Refollowing)
  }

  /** The wait's record replaces the sandbox variable, and on an error that is what is deleted. */
  function Booted(s: Sess, ok: bool, returned: string, deleted: bool): Sess {
    var t := s.(boxes := s.boxes.(held := Some(returned)));
    if ok then t.(pc := Exposing)
    else FailWith(Dropped(t, returned, deleted), "infra_error", "sandbox failed to start")
  }

  /** The app's port exposed, if it has one and the platform can: url is the platform's answer. */
  function Previewed(s: Sess, url: Option<string>): Sess {
    if s.bld.web && s.bld.port > 0 && url.Some? then
      Emit(s.(copy := s.copy.(previewUrl := url.value)), [PreviewEv(url.value, s.bld.port)])
    else s
  }

  /** The record is stored as live. From here on others may extend the session or end it. */
  function WindowOpened(s: Sess): Sess {
    var r := s.copy.(status := S.SLive, terminalReady := true, expiresAt := Some(s.now + s.limits.ttl));
    s.(copy := r, stored := r, pc := TellingTerminal, liveAt := s.now)
  }

  function WentLive(s: Sess, url: Option<string>): Sess { WindowOpened(Previewed(s, url)) }

  predicate Telling(pc: Pc) { pc.TellingTerminal? || pc.TellingWindow? || pc.TellingLive? }

  /** What the run tells next, from its own copy. */
  function News(s: Sess): (e: Event)
    ensures !e.EndedEv?
  {
    match s.pc
    case TellingTerminal => TerminalEv
    case TellingWindow => TtlEv(s.copy.expiresAt.GetOr(0), false)
    case _ => PhaseEv(s.bld.status, s.copy.status)
  }

  function AfterNews(pc: Pc): Pc {
    match pc
    case TellingTerminal => TellingWindow
    case TellingWindow => TellingLive
    case _ => Watching
  }

  /** An event is recorded even when the log is finished. */
  function Announced(s: Sess): Sess {
    Emit(s, [News(s)]).(pc := AfterNews(s.pc), late := if s.stored.status.SEnded? then s.late + 1 else s.late)
  }

  /** One poll: the platform's answer first, then the expiry of the record as it is stored now. */
  function Polled(s: Sess, reply: PollReply, deleted: bool): Sess {
    match reply
    case Gone => Ended(Dropped(s, HeldId(s), true), "session expired")
    case Stopped => Ended(s, "sandbox stopped")
    case Fine =>
      var t := s.(copy := s.stored);
      if s.stored.expiresAt.Some? && s.now > s.stored.expiresAt.value then
        Ended(Dropped(t, HeldId(t), deleted), "session expired")
      else t
  }

  /** The run has stored its window and not told it yet. */
  predicate AheadOfWindow(pc: Pc) { pc.TellingTerminal? || pc.TellingWindow? }

  function ExtendTried(s: Sess, keptAlive: bool): Sess {
    if MayExtend(s.stored) && keptAlive then
      var exp := ExtendedExpiry(s.stored, s.now, s.limits);
      var t := s.(stored := s.stored.(extended := true, expiresAt := Some(exp)), grants := s.grants + 1,
                  overtaken := s.overtaken || AheadOfWindow(s.pc));
      if s.listed then Emit(t, [TtlEv(exp, true)]) else t
    else s
  }

  function Terminated(s: Sess, reason: string, deleted: bool): Sess {
    var u := if s.stored.sandbox != "" then Dropped(s, s.stored.sandbox, deleted) else s;
    var t := u.(stored := EndRecord(s.stored, reason), listed := false);
    if s.listed then Emit(t, [EndedEv(reason)]).(done := true) else t
  }

  function Apply(s: Sess, a: Action): Sess
    requires Enabled(s, a)
  {
    match a
    case Follow(r) => Followed(s, r)
    case Begin => Begun(s)
    case Restore(r) => RestoreTried(s, r)
    case Rebuild(again) => Rebuilt(s, again)
    case Boot(ok, returned, deleted) => Booted(s, ok, returned, deleted)
    case GoLive(url) => WentLive(s, url)
    case Announce => Announced(s)
    case Poll(r, deleted) => Polled(s, r, deleted)
    case Tick(d) => s.(now := s.now + d)
    case Extend(ok) => ExtendTried(s, ok)
    case Terminate(reason, deleted) => Terminated(s, reason, deleted)
  }

  predicate Executable(s: Sess, acts: seq<Action>)
    decreases |acts|
  {
    acts == [] || (Enabled(s, acts[0]) && Executable(Apply(s, acts[0]), acts[1..]))
  }

  function Exec(s: Sess, acts: seq<Action>): Sess
    requires Executable(s, acts)
    decreases |acts|
  {
    if acts == [] then s else Exec(Apply(s, acts[0]), acts[1..])
  }

  lemma {:induction false} ExecSnoc(s: Sess, acts: seq<Action>, a: Action)
    requires Executable(s, acts) && Enabled(Exec(s, acts), a)
    ensures Executable(s, acts + [a]) && Exec(s, acts + [a]) == Apply(Exec(s, acts), a)
    decreases |acts|
  {
    hide Apply, Enabled;
    if acts == [] {
      assert acts + [a] == [a];
      assert Executable(Apply(s, a), []);
    } else {
      assert (acts + [a])[1..] == acts[1..] + [a];
      ExecSnoc(Apply(s, acts[0]), acts[1..], a);
    }
  }

  lemma {:induction false} ExecConcat(s: Sess, a: seq<Action>, b: seq<Action>)
    requires Executable(s, a + b)
    ensures Executable(s, a) && Executable(Exec(s, a), b) && Exec(Exec(s, a), b) == Exec(s, a + b)
    decreases |a|
  {
    hide Enabled, Apply;
    if a == [] {
      assert a + b == b;
    } else {
      assert (a + b)[0] == a[0] && (a + b)[1..] == a[1..] + b;
      ExecConcat(Apply(s, a[0]), a[1..], b);
    }
  }

  lemma ExecSplit(s: Sess, acts: seq<Action>, n: nat)
    requires Executable(s, acts) && n <= |acts|
    ensures Executable(s, acts[..n]) && Executable(Exec(s, acts[..n]), acts[n..])
    ensures Exec(Exec(s, acts[..n]), acts[n..]) == Exec(s, acts)
  {
    assert acts == acts[..n] + acts[n..];
    hide Exec, Executable;
    ExecConcat(s, acts[..n], acts[n..]);
  }

  /** A session as Create leaves it. */
  predicate Initial(s: Sess) {
    && s.copy == s.stored && s.pc.Joining? && !s.rebuilt && s.log == [] && !s.done && s.listed
    && s.attempts == 0 && s.rebuilds == 0 && s.grants == 0 && !s.overtaken && s.late == 0
    && s.stored.status == (if s.bld.status.Ready? then S.SStarting else S.SBuilding)
    && !s.stored.extended && s.stored.expiresAt.None? && s.stored.createdAt <= s.now
    && s.stored.sandbox == "" && s.boxes == Boxes(None, {}, {})
    && !s.stored.terminalReady && s.stored.previewUrl == "" && s.stored.endedReason == ""
  }

  // -------------------------------------------------------------- invariant

  predicate NoEnd(log: seq<Event>) { forall e | e in log :: !e.EndedEv? }

  /** Exactly one ended event, in last place, with this reason. */
  predicate EndsOnce(log: seq<Event>, reason: string) {
    log != [] && log[|log| - 1] == EndedEv(reason) && NoEnd(log[..|log| - 1])
  }

  /** Exactly one ended event, with this reason, and late events after it. */
  predicate EndsAt(log: seq<Event>, reason: string, late: nat) {
    && late < |log| && log[|log| - 1 - late] == EndedEv(reason)
    && NoEnd(log[..|log| - 1 - late]) && NoEnd(log[|log| - late..])
  }

  predicate BeforeLive(pc: Pc) { !OnAir(pc) && !pc.Over? }

  predicate OnAir(pc: Pc) { Telling(pc) || pc.Watching? }

  /** The record's expiry is the first window's until the extension, and then no later than the hard cap. */
  predicate ExpiryKept(s: Sess, r: S.Session) {
    r.expiresAt.Some? ==>
      if r.extended then r.expiresAt.value <= r.createdAt + s.limits.maxTtl
      else r.expiresAt.value == s.liveAt + s.limits.ttl
  }

  predicate EndInv(s: Sess) {
    if s.stored.status.SEnded? then EndsAt(s.log, s.stored.endedReason, s.late) && s.done && !s.listed
    else
      && s.late == 0 && NoEnd(s.log) && !s.done && s.listed && !s.pc.Over?
      && s.stored.endedReason == "" && (s.stored.terminalReady <==> s.stored.status.SLive?)
  }

  predicate AttemptInv(s: Sess) {
    match s.pc
    case Joining => s.attempts == 0 && s.rebuilds == 0 && !s.rebuilt
    case Beginning => s.attempts == 0 && s.rebuilds == 0 && !s.rebuilt
    case Restoring => s.attempts == s.rebuilds == if s.rebuilt then 1 else 0
    case Rebuilding => s.attempts == 1 && s.rebuilds == 0 && s.rebuilt
    case Refollowing => s.attempts == 1 && s.rebuilds == 1 && s.rebuilt
    case _ => s.attempts <= 2 && s.rebuilds <= 1
  }

  /** How much the run can have told after the end, by where it stands. */
  function MostLate(pc: Pc): nat {
    match pc
    case TellingWindow => 1
    case TellingLive => 2
    case Watching => 3
    case Over => 3
    case _ => 0
  }

  predicate RecordInv(s: Sess) {
    && s.copy.createdAt == s.stored.createdAt <= s.now
    && s.grants <= 1
    && (s.copy.extended ==> s.stored.extended)
    && (BeforeLive(s.pc) ==>
          && s.copy == s.stored && !s.stored.extended && s.stored.expiresAt.None? && s.grants == 0
          && !s.stored.status.SLive? && !s.stored.status.SEnded? && !s.stored.status.SPending?
          && (s.pc.Joining? || s.pc.Beginning? || s.stored.status.SStarting?))
    && (OnAir(s.pc) ==>
          && (s.stored.status.SLive? || s.stored.status.SEnded?) && s.liveAt <= s.now && s.stored.expiresAt.Some?
          && (s.stored.extended <==> s.grants == 1) && (s.overtaken ==> s.stored.extended)
          && (AheadOfWindow(s.pc) && s.stored.extended ==> s.overtaken)
          && (!s.stored.extended ==> s.stored.expiresAt == Some(s.liveAt + s.limits.ttl)))
    && (Telling(s.pc) ==>
          s.copy.status.SLive? && !s.copy.extended && s.copy.expiresAt == Some(s.liveAt + s.limits.ttl))
    && (BeforeLive(s.pc) ==> !s.overtaken)
    && s.late <= MostLate(s.pc)
    && ExpiryKept(s, s.stored) && ExpiryKept(s, s.copy)
  }

  predicate NoPreview(log: seq<Event>) { forall e | e in log :: !e.PreviewEv? }

  /** Until the session goes live it has no preview, and until its build is followed nothing has been told. */
  predicate PreviewInv(s: Sess) {
    && (BeforeLive(s.pc) ==> s.stored.previewUrl == "" && NoPreview(s.log))
    && (s.pc.Joining? ==> s.log == [])
  }

  predicate Inv(s: Sess) { EndInv(s) && AttemptInv(s) && RecordInv(s) && PreviewInv(s) }

  /** The previews told, in order. */
  function Previews(log: seq<Event>): seq<(string, int)> {
    if log == [] then []
    else
      var e := log[|log| - 1];
      Previews(log[..|log| - 1]) + if e.PreviewEv? then [(e.url, e.port)] else []
  }

  /** The log lines told, in order. */
  function LogLines(log: seq<Event>): seq<B.Tagged> {
    if log == [] then []
    else
      var e := log[|log| - 1];
      LogLines(log[..|log| - 1]) + if e.LogEv? then [e.entry] else []
  }

  lemma OneMoreTold(log: seq<Event>, e: Event)
    ensures Previews(log + [e]) == Previews(log) + if e.PreviewEv? then [(e.url, e.port)] else []
    ensures LogLines(log + [e]) == LogLines(log) + if e.LogEv? then [e.entry] else []
  {
    assert (log + [e])[..|log + [e]| - 1] == log;
  }

  lemma {:induction false} TellConcat(a: seq<Event>, b: seq<Event>)
    ensures Previews(a + b) == Previews(a) + Previews(b) && LogLines(a + b) == LogLines(a) + LogLines(b)
    decreases |b|
  {
    if b == [] {
      assert a + b == a;
    } else {
      var init, last := b[..|b| - 1], b[|b| - 1];
      assert a + b == (a + init) + [last] && b == init + [last];
      TellConcat(a, init);
      OneMoreTold(a + init, last);
      OneMoreTold(init, last);
    }
  }

  /** A build's stream is forwarded line by line, and nothing else of it is shown as a line. */
  lemma {:induction false} ForwardedStory(items: seq<B.Event>, st: S.SessionStatus, f: string -> S.BuildStatus)
    ensures LogLines(Forwarded(items, st, f)) == B.Entries(items) && Previews(Forwarded(items, st, f)) == []
    ensures forall i | 0 <= i < |items| && items[i].Status? :: Forwarded(items, st, f)[i] == PhaseEv(f(items[i].status), st)
    decreases |items|
  {
    if items != [] {
      var init, last := items[..|items| - 1], items[|items| - 1];
      var fwd := Forwarded(items, st, f);
      ForwardedStory(init, st, f);
      assert items == init + [last] && fwd == Forwarded(init, st, f) + [fwd[|items| - 1]];
      B.EntriesSnoc(init, last);
      OneMoreTold(Forwarded(init, st, f), fwd[|items| - 1]);
    }
  }

  /** A replay shows the decoded lines of the stored text. */
  lemma ReplayedStory(text: string)
    ensures LogLines(Replayed(text)) == B.Parse(text, B.SplitPhase) && Previews(Replayed(text)) == []
  {
    var es := B.Parse(text, B.SplitPhase);
    hide B.Parse;
    LinesOfEvents(es, Replayed(text));
  }

  lemma {:induction false} LinesOfEvents(es: seq<B.Tagged>, log: seq<Event>)
    requires |log| == |es| && forall i | 0 <= i < |es| :: log[i] == LogEv(es[i])
    ensures LogLines(log) == es && Previews(log) == []
  {
    if es != [] {
      LinesOfEvents(es[..|es| - 1], log[..|log| - 1]);
      assert es == es[..|es| - 1] + [es[|es| - 1]];
    }
  }

  lemma {:induction false} NonePreviewed(log: seq<Event>)
    requires NoPreview(log)
    ensures Previews(log) == []
  {
    if log != [] {
      NonePreviewed(log[..|log| - 1]);
    }
  }

  lemma NoEndConcat(a: seq<Event>, b: seq<Event>)
    requires NoEnd(a) && NoEnd(b)
    ensures NoEnd(a + b)
  {
  }

  /** Ending from a state whose only flaw is the program counter. */
  lemma EndedKeepsInv(s: Sess, reason: string)
    requires EndInv(s) && !s.pc.Over? && s.attempts <= 2 && s.rebuilds <= 1 && RecordInv(s)
    ensures Inv(Ended(s, reason)) && Ended(s, reason).pc.Over? && Ended(s, reason).stored.status.SEnded?
  {
    if !s.stored.status.SEnded? {
      EndTold(s.log, reason);
    }
    hide NoEnd, EndsAt;
  }

  lemma EndTold(log: seq<Event>, reason: string)
    requires NoEnd(log)
    ensures EndsAt(log + [EndedEv(reason)], reason, 0)
  {
    var t := log + [EndedEv(reason)];
    assert t[..|t| - 1] == log && t[|t|..] == [];
  }

  lemma ToldAfterEnd(log: seq<Event>, e: Event, reason: string, late: nat)
    requires EndsAt(log, reason, late) && !e.EndedEv?
    ensures EndsAt(log + [e], reason, late + 1)
  {
    var t := log + [e];
    assert t[..|t| - 2 - late] == log[..|log| - 1 - late];
    assert t[|t| - late - 1..] == log[|log| - late..] + [e];
  }

  lemma FailKeepsInv(s: Sess, code: string, reason: string)
    requires EndInv(s) && !s.stored.status.SEnded? && s.attempts <= 2 && s.rebuilds <= 1 && RecordInv(s)
    ensures Inv(FailWith(s, code, reason)) && FailWith(s, code, reason).stored.status.SEnded?
  {
    NoEndConcat(s.log, [ErrorEv(code)]);
    EndedKeepsInv(Emit(s, [ErrorEv(code)]), reason);
  }

  lemma FollowKeepsInv(s: Sess, reply: FollowReply)
    requires Inv(s) && Enabled(s, Follow(reply))
    ensures Inv(Followed(s, reply))
  {
    if !s.bld.status.Ready? {
      var t := Emit(s, [PhaseEv(s.bld.status, s.copy.status)]);
      NoEndConcat(s.log, [PhaseEv(s.bld.status, s.copy.status)]);
      match reply
      case Unavailable => FailKeepsInv(t, "infra_error", "build unavailable");
      case Streamed(items, final) =>
        var fwd := Forwarded(items, s.copy.status, StatusOf);
        assert NoEnd(fwd);
        NoEndConcat(t.log, fwd);
        var u := Emit(t, fwd).(bld := final);
        if final.status.Unsupported? {
          FailKeepsInv(u, "unsupported", "unsupported");
        } else if !final.status.Ready? {
          FailKeepsInv(u, "infra_error", "build failed");
        }
    }
  }

  lemma BeginKeepsInv(s: Sess)
    requires Inv(s) && s.pc.Beginning?
    ensures Inv(Begun(s))
  {
    NoEndConcat(s.log, Replayed(s.bld.log));
    var t := if |s.log| <= 1 then Emit(s, Replayed(s.bld.log)) else s;
    NoEndConcat(t.log, [PhaseEv(s.bld.status, S.SStarting)]);
  }

  lemma RestoreKeepsInv(s: Sess, reply: RestoreReply)
    requires Inv(s) && s.pc.Restoring?
    ensures Inv(RestoreTried(s, reply))
  {
    hide RebuildNotice;
    var t := s.(attempts := s.attempts + 1);
    match reply
    case Restored(id) =>
    case Busy => FailKeepsInv(t, "busy", "no capacity");
    case Lost =>
      if s.rebuilt {
        FailKeepsInv(t, "infra_error", "could not start a sandbox");
      } else {
        NoEndConcat(s.log, [RebuildNotice()]);
      }
  }

  lemma GoLiveKeepsInv(s: Sess, url: Option<string>)
    requires Inv(s) && s.pc.Exposing?
    ensures Inv(WentLive(s, url))
  {
    assert NoEnd(WentLive(s, url).log);
  }

  lemma AnnounceKeepsInv(s: Sess)
    requires Inv(s) && Telling(s.pc)
    ensures Inv(Announced(s))
  {
    var e := News(s);
    if s.stored.status.SEnded? {
      ToldAfterEnd(s.log, e, s.stored.endedReason, s.late);
    } else {
      NoEndConcat(s.log, [e]);
    }
    hide News, NoEnd, EndsAt;
  }

  lemma RefreshKeepsInv(s: Sess)
    requires Inv(s) && s.pc.Watching?
    ensures Inv(s.(copy := s.stored))
  {
    hide NoEnd, EndsAt;
  }

  lemma BootKeepsInv(s: Sess, ok: bool, returned: string, deleted: bool)
    requires Inv(s) && s.pc.Booting?
    ensures Inv(Booted(s, ok, returned, deleted))
  {
    hide NoEnd, EndsAt, FailWith;
    var t := s.(boxes := s.boxes.(held := Some(returned)));
    if !ok {
      FailKeepsInv(Dropped(t, returned, deleted), "infra_error", "sandbox failed to start");
    }
  }

  lemma DroppedKeepsInv(s: Sess, id: string, ok: bool)
    requires Inv(s)
    ensures Inv(Dropped(s, id, ok))
  {
    hide NoEnd, EndsAt;
  }

  lemma PollKeepsInv(s: Sess, reply: PollReply, deleted: bool)
    requires Inv(s) && s.pc.Watching?
    ensures Inv(Polled(s, reply, deleted))
  {
    var t := s.(copy := s.stored);
    RefreshKeepsInv(s);
    DroppedKeepsInv(s, HeldId(s), true);
    DroppedKeepsInv(t, HeldId(t), deleted);
    hide NoEnd, EndsAt, ExpiryKept;
    match reply
    case Gone => EndedKeepsInv(Dropped(s, HeldId(s), true), "session expired");
    case Stopped => EndedKeepsInv(s, "sandbox stopped");
    case Fine => EndedKeepsInv(Dropped(t, HeldId(t), deleted), "session expired");
  }

  lemma TickKeepsInv(s: Sess, d: nat)
    requires Inv(s)
    ensures Inv(s.(now := s.now + d))
  {
    hide NoEnd;
  }

  lemma ExtendKeepsInv(s: Sess, keptAlive: bool)
    requires Inv(s)
    ensures Inv(ExtendTried(s, keptAlive))
  {
    if MayExtend(s.stored) && keptAlive {
      var ttl := [TtlEv(ExtendedExpiry(s.stored, s.now, s.limits), true)];
      assert NoEnd(ttl);
      NoEndConcat(s.log, ttl);
      hide NoEnd, EndsAt;
      assert OnAir(s.pc);
    }
  }

  lemma TerminateKeepsInv(s: Sess, reason: string, deleted: bool)
    requires Inv(s) && s.stored.status.SLive?
    ensures Inv(Terminated(s, reason, deleted))
  {
    EndTold(s.log, reason);
    hide NoEnd, EndsAt;
  }

  lemma ActionKeepsInv(s: Sess, a: Action)
    requires Inv(s) && Enabled(s, a)
    ensures Inv(Apply(s, a))
  {
    hide Followed, Begun, RestoreTried, Booted, WentLive, Announced, Polled, ExtendTried, Terminated, NoEnd, EndsAt;
    match a
    case Follow(r) => FollowKeepsInv(s, r);
    case Begin => BeginKeepsInv(s);
    case Restore(r) => RestoreKeepsInv(s, r);
    case Rebuild(again) =>
      if again.None? {
        FailKeepsInv(s.(rebuilds := s.rebuilds + 1), "infra_error", "rebuild failed");
      }
    case Boot(ok, returned, deleted) => BootKeepsInv(s, ok, returned, deleted);
    case GoLive(url) => GoLiveKeepsInv(s, url);
    case Announce => AnnounceKeepsInv(s);
    case Poll(r, deleted) => PollKeepsInv(s, r, deleted);
    case Tick(d) => TickKeepsInv(s, d);
    case Extend(ok) => ExtendKeepsInv(s, ok);
    case Terminate(reason, deleted) => TerminateKeepsInv(s, reason, deleted);
  }

  lemma {:induction false} RunKeepsInv(s: Sess, acts: seq<Action>)
    requires Inv(s) && Executable(s, acts)
    ensures Inv(Exec(s, acts))
    decreases |acts|
  {
    if acts != [] {
      ActionKeepsInv(s, acts[0]);
      RunKeepsInv(Apply(s, acts[0]), acts[1..]);
    }
  }

  lemma InitialInv(s: Sess)
    requires Initial(s)
    ensures Inv(s)
  {
  }

  // ----------------------------------------------------- lines and previews

  lemma EndTells(s: Sess, reason: string)
    ensures LogLines(Ended(s, reason).log) == LogLines(s.log) && Previews(Ended(s, reason).log) == Previews(s.log)
  {
    OneMoreTold(s.log, EndedEv(reason));
  }

  lemma FailTells(s: Sess, code: string, reason: string)
    ensures LogLines(FailWith(s, code, reason).log) == LogLines(s.log)
    ensures Previews(FailWith(s, code, reason).log) == Previews(s.log)
  {
    OneMoreTold(s.log, ErrorEv(code));
    EndTells(Emit(s, [ErrorEv(code)]), reason);
  }

  lemma JudgeTells(s: Sess)
    ensures LogLines(Judged(s).log) == LogLines(s.log) && Previews(Judged(s).log) == Previews(s.log)
  {
    hide FailWith;
    FailTells(s, "unsupported", "unsupported");
    FailTells(s, "infra_error", "build failed");
  }

  lemma FollowTells(s: Sess, reply: FollowReply)
    ensures LogLines(Followed(s, reply).log) == LogLines(s.log) + StreamLines(s.bld, reply)
    ensures Previews(Followed(s, reply).log) == Previews(s.log)
    ensures s.bld.status.Ready? || (reply.Streamed? && reply.final.status.Ready?) ==>
      |Followed(s, reply).log| == |s.log| + TellingLength(s.bld, reply)
  {
    hide FailWith, Forwarded, StatusOf, LogLines, Previews;
    if !s.bld.status.Ready? {
      var phase := PhaseEv(s.bld.status, s.copy.status);
      var u := Emit(s, [phase]);
      OneMoreTold(s.log, phase);
      match reply
      case Unavailable => FailTells(u, "infra_error", "build unavailable");
      case Streamed(items, final) =>
        var fwd := Forwarded(items, s.copy.status, StatusOf);
        ForwardedStory(items, s.copy.status, StatusOf);
        TellConcat(u.log, fwd);
        JudgeTells(Emit(u, fwd).(bld := final));
        assert |fwd| == |items| by { ForwardedLength(items, s.copy.status); }
    }
  }

  lemma ForwardedLength(items: seq<B.Event>, st: S.SessionStatus)
    ensures |Forwarded(items, st, StatusOf)| == |items|
  {
  }

  lemma BeginTells(s: Sess)
    ensures var t := Begun(s);
      && LogLines(t.log) == LogLines(s.log) + (if |s.log| <= 1 then B.Parse(s.bld.log, B.SplitPhase) else [])
      && Previews(t.log) == Previews(s.log)
  {
    hide Replayed, LogLines, Previews, B.Parse;
    ReplayedStory(s.bld.log);
    TellConcat(s.log, Replayed(s.bld.log));
    var u := if |s.log| <= 1 then Emit(s, Replayed(s.bld.log)) else s;
    OneMoreTold(u.log, PhaseEv(s.bld.status, S.SStarting));
  }

  lemma RestoreTells(s: Sess, reply: RestoreReply)
    ensures var t := RestoreTried(s, reply);
      && LogLines(t.log) == LogLines(s.log) + (if reply.Lost? && !s.rebuilt then [RebuildNotice().entry] else [])
      && Previews(t.log) == Previews(s.log)
  {
    hide FailWith, RebuildNotice, LogLines, Previews;
    var t := s.(attempts := s.attempts + 1);
    FailTells(t, "busy", "no capacity");
    FailTells(t, "infra_error", "could not start a sandbox");
    OneMoreTold(s.log, RebuildNotice());
  }

  lemma BootTells(s: Sess, ok: bool, returned: string, deleted: bool)
    ensures var t := Booted(s, ok, returned, deleted);
      LogLines(t.log) == LogLines(s.log) && Previews(t.log) == Previews(s.log)
  {
    hide FailWith;
    FailTells(Dropped(s.(boxes := s.boxes.(held := Some(returned))), returned, deleted), "infra_error",
              "sandbox failed to start");
  }

  lemma DroppedTells(s: Sess, id: string, ok: bool)
    ensures Dropped(s, id, ok).log == s.log
  {
  }

  lemma PollTells(s: Sess, reply: PollReply, deleted: bool)
    ensures var t := Polled(s, reply, deleted);
      LogLines(t.log) == LogLines(s.log) && Previews(t.log) == Previews(s.log)
  {
    hide Ended, LogLines, Previews, HeldId, Dropped;
    var t := s.(copy := s.stored);
    DroppedTells(s, HeldId(s), true);
    DroppedTells(t, HeldId(t), deleted);
    EndTells(Dropped(s, HeldId(s), true), "session expired");
    EndTells(s, "sandbox stopped");
    EndTells(Dropped(t, HeldId(t), deleted), "session expired");
  }

  /** The lines of a followed build: none if it was ready. */
  function StreamLines(bld: BuildView, reply: FollowReply): seq<B.Tagged> {
    if bld.status.Ready? || reply.Unavailable? then [] else B.Entries(reply.items)
  }

  /** How many events a build the visitor goes on with is told in. */
  function TellingLength(bld: BuildView, reply: FollowReply): nat {
    if bld.status.Ready? || reply.Unavailable? then 0 else 1 + |reply.items|
  }

  /** The lines a step adds: the followed stream, the story of a build nothing was told of, a lost snapshot's notice. */
  function NewLines(s: Sess, a: Action): seq<B.Tagged> {
    match a
    case Follow(reply) => StreamLines(s.bld, reply)
    case Begin => if |s.log| <= 1 then B.Parse(s.bld.log, B.SplitPhase) else []
    case Restore(reply) => if reply.Lost? && !s.rebuilt then [RebuildNotice().entry] else []
    case _ => []
  }

  /** The preview a step adds: the platform's URL for the port of a web build. */
  function NewPreview(s: Sess, a: Action): seq<(string, int)> {
    match a
    case GoLive(url) => if s.bld.web && s.bld.port > 0 && url.Some? then [(url.value, s.bld.port)] else []
    case _ => []
  }

  lemma StepTells(s: Sess, a: Action)
    requires Enabled(s, a)
    ensures LogLines(Apply(s, a).log) == LogLines(s.log) + NewLines(s, a)
    ensures Previews(Apply(s, a).log) == Previews(s.log) + NewPreview(s, a)
  {
    hide Followed, Begun, RestoreTried, Booted, Polled, WentLive, ExtendTried, Terminated, Announced, News, LogLines,
      Previews, B.Parse, FailWith, RebuildNotice;
    match a
    case Follow(r) => FollowTells(s, r);
    case Begin => BeginTells(s);
    case Restore(r) => RestoreTells(s, r);
    case Rebuild(_) => FailTells(s.(rebuilds := s.rebuilds + 1), "infra_error", "rebuild failed");
    case Boot(ok, returned, deleted) => BootTells(s, ok, returned, deleted);
    case GoLive(url) => GoLiveTells(s, url);
    case Announce => AnnounceTells(s);
    case Poll(r, deleted) => PollTells(s, r, deleted);
    case Tick(_) =>
    case Extend(ok) => ExtendTells(s, ok);
    case Terminate(reason, deleted) => TerminateTells(s, reason, deleted);
  }

  lemma GoLiveTells(s: Sess, url: Option<string>)
    ensures LogLines(WentLive(s, url).log) == LogLines(s.log)
    ensures Previews(WentLive(s, url).log) == Previews(s.log) + NewPreview(s, GoLive(url))
  {
    OneMoreTold(s.log, PreviewEv(url.GetOr(""), s.bld.port));
  }

  lemma ExtendTells(s: Sess, keptAlive: bool)
    ensures LogLines(ExtendTried(s, keptAlive).log) == LogLines(s.log)
    ensures Previews(ExtendTried(s, keptAlive).log) == Previews(s.log)
  {
    OneMoreTold(s.log, TtlEv(ExtendedExpiry(s.stored, s.now, s.limits), true));
  }

  lemma TerminateTells(s: Sess, reason: string, deleted: bool)
    ensures LogLines(Terminated(s, reason, deleted).log) == LogLines(s.log)
    ensures Previews(Terminated(s, reason, deleted).log) == Previews(s.log)
  {
    OneMoreTold(s.log, EndedEv(reason));
  }

  lemma AnnounceTells(s: Sess)
    requires Telling(s.pc)
    ensures LogLines(Announced(s).log) == LogLines(s.log) && Previews(Announced(s).log) == Previews(s.log)
  {
    OneMoreTold(s.log, News(s));
  }

  /** Both copies of the record have this preview. */
  predicate HasPreview(s: Sess, url: string) { s.copy.previewUrl == url == s.stored.previewUrl }

  lemma EndKeepsPreview(s: Sess, reason: string, url: string)
    requires HasPreview(s, url)
    ensures Ended(s, reason).pc.Over? && HasPreview(Ended(s, reason), url)
  {
  }

  lemma PollKeepsPreview(s: Sess, reply: PollReply, deleted: bool, url: string)
    requires s.pc.Watching? && HasPreview(s, url)
    ensures !BeforeLive(Polled(s, reply, deleted).pc) && HasPreview(Polled(s, reply, deleted), url)
  {
    hide Ended;
    var t := s.(copy := s.stored);
    EndKeepsPreview(Dropped(s, HeldId(s), true), "session expired", url);
    EndKeepsPreview(s, "sandbox stopped", url);
    EndKeepsPreview(Dropped(t, HeldId(t), deleted), "session expired", url);
  }

  lemma AnnounceKeepsPreview(s: Sess, url: string)
    requires Telling(s.pc) && HasPreview(s, url)
    ensures !BeforeLive(Announced(s).pc) && HasPreview(Announced(s), url)
  {
    hide News;
  }

  lemma ExtendKeepsPreview(s: Sess, keptAlive: bool, url: string)
    requires HasPreview(s, url)
    ensures ExtendTried(s, keptAlive).pc == s.pc && HasPreview(ExtendTried(s, keptAlive), url)
  {
    hide ExtendedExpiry;
  }

  lemma TerminateKeepsPreview(s: Sess, reason: string, deleted: bool, url: string)
    requires HasPreview(s, url)
    ensures Terminated(s, reason, deleted).pc == s.pc && HasPreview(Terminated(s, reason, deleted), url)
  {
  }

  lemma StepKeepsPreview(s: Sess, a: Action, url: string)
    requires Enabled(s, a) && !BeforeLive(s.pc) && HasPreview(s, url)
    ensures !BeforeLive(Apply(s, a).pc) && HasPreview(Apply(s, a), url) && NewPreview(s, a) == []
  {
    hide Followed, Begun, RestoreTried, Rebuilt, Booted, WentLive, Announced, Polled, ExtendTried, Terminated;
    match a
    case Announce => AnnounceKeepsPreview(s, url);
    case Poll(r, deleted) => PollKeepsPreview(s, r, deleted, url);
    case Tick(_) =>
    case Extend(ok) => ExtendKeepsPreview(s, ok, url);
    case Terminate(reason, deleted) => TerminateKeepsPreview(s, reason, deleted, url);
    case _ =>
  }

  lemma {:induction false} RunKeepsPreview(s: Sess, acts: seq<Action>, url: string)
    requires Executable(s, acts) && !BeforeLive(s.pc) && HasPreview(s, url)
    ensures HasPreview(Exec(s, acts), url) && Previews(Exec(s, acts).log) == Previews(s.log)
    decreases |acts|
  {
    hide Apply, Enabled, Previews, BeforeLive, HasPreview, NewPreview;
    if acts != [] {
      StepTells(s, acts[0]);
      StepKeepsPreview(s, acts[0], url);
      RunKeepsPreview(Apply(s, acts[0]), acts[1..], url);
    }
  }

  lemma NoneBeforeLive(s: Sess)
    requires Inv(s) && s.pc.Exposing?
    ensures HasPreview(s, "") && Previews(s.log) == []
  {
    hide EndInv, AttemptInv, ExpiryKept;
    NonePreviewed(s.log);
  }

  lemma LiveRecordAt(s: Sess, url: Option<string>)
    requires HasPreview(s, "")
    ensures var t := WentLive(s, url); var shown := s.bld.web && s.bld.port > 0 && url.Some?;
      !BeforeLive(t.pc) && HasPreview(t, if shown then url.value else "")
  {
  }

  /** Going live stores and tells the preview of a web build whose port the platform exposed, and none otherwise. */
  lemma PreviewAt(s: Sess, url: Option<string>)
    requires Inv(s) && s.pc.Exposing?
    ensures var t := WentLive(s, url); var shown := s.bld.web && s.bld.port > 0 && url.Some?;
      && !BeforeLive(t.pc) && HasPreview(t, if shown then url.value else "")
      && Previews(t.log) == (if shown then [(url.value, s.bld.port)] else [])
  {
    hide Inv, Previews, LogLines, WentLive;
    NoneBeforeLive(s);
    GoLiveTells(s, url);
    LiveRecordAt(s, url);
  }

  /**
   Over any run, from the moment a session goes live and for good, its record has the platform's URL and its
   history tells that URL and the app's port, once, exactly when the build is a web app with a port and the
   platform could expose it; and otherwise there is no preview at all.
   */
  lemma LiveHasItsPreview(s0: Sess, acts: seq<Action>, url: Option<string>, after: seq<Action>)
    requires Initial(s0) && Executable(s0, acts) && Exec(s0, acts).pc.Exposing?
    requires Executable(WentLive(Exec(s0, acts), url), after)
    ensures var s := Exec(s0, acts); var t := Exec(WentLive(s, url), after);
      var shown := s.bld.web && s.bld.port > 0 && url.Some?;
      && t.stored.previewUrl == (if shown then url.value else "")
      && Previews(t.log) == (if shown then [(url.value, s.bld.port)] else [])
  {
    InitialInv(s0);
    RunKeepsInv(s0, acts);
    var s := Exec(s0, acts);
    var shown := s.bld.web && s.bld.port > 0 && url.Some?;
    var text := if shown then url.value else "";
    hide Inv, Exec, Executable, Initial, WentLive, Previews;
    PreviewAt(s, url);
    RunKeepsPreview(WentLive(s, url), after, text);
  }

  // ---------------------------------------------------------------- results

  /**
   Session runs end once: over any interleaving, a run that has returned tried at most two restores
   and one rebuild, its stored session is ended, and the history holds exactly one ended event, with the
   stored reason, followed by at most the three announcements of going live. Before that there is none.
   */
  lemma RunsEndOnce(s0: Sess, acts: seq<Action>)
    requires Initial(s0) && Executable(s0, acts)
    ensures var s := Exec(s0, acts);
      && s.attempts <= 2 && s.rebuilds <= 1 && s.late <= 3
      && (s.pc.Over? ==> s.stored.status.SEnded? && s.done)
      && (s.stored.status.SEnded? <==> !NoEnd(s.log))
      && (s.stored.status.SEnded? ==> EndsAt(s.log, s.stored.endedReason, s.late))
  {
    InitialInv(s0);
    RunKeepsInv(s0, acts);
    var s := Exec(s0, acts);
    hide *;
    EndedOnceAt(s);
  }

  lemma EndedOnceAt(s: Sess)
    requires Inv(s)
    ensures s.attempts <= 2 && s.rebuilds <= 1 && s.late <= 3
    ensures s.pc.Over? ==> s.stored.status.SEnded? && s.done
    ensures s.stored.status.SEnded? <==> !NoEnd(s.log)
    ensures s.stored.status.SEnded? ==> EndsAt(s.log, s.stored.endedReason, s.late)
  {
    if s.stored.status.SEnded? {
      assert s.log[|s.log| - 1 - s.late] in s.log;
    }
  }

  /** Some termination fell between the live store and the last announcement. */
  predicate CutShort(s: Sess, acts: seq<Action>)
    requires Executable(s, acts)
    decreases |acts|
  {
    acts != [] && ((Telling(s.pc) && acts[0].Terminate?) || CutShort(Apply(s, acts[0]), acts[1..]))
  }

  /** What has been told late, when the run has been cut short and when not. */
  predicate LateIff(s: Sess, cut: bool) {
    if Telling(s.pc) then s.stored.status.SEnded? <==> cut else s.late > 0 <==> cut
  }

  /** A step outside the announcements, in which nothing is told late and no window overtaken. */
  predicate Aside(s: Sess, t: Sess) {
    t.overtaken == s.overtaken && t.late == s.late && !Telling(s.pc) && !Telling(t.pc)
  }

  lemma EndIsAside(s: Sess, reason: string)
    ensures var t := Ended(s, reason); t.overtaken == s.overtaken && t.late == s.late && t.pc.Over?
  {
  }

  lemma FailIsAside(s: Sess, code: string, reason: string)
    ensures var t := FailWith(s, code, reason); t.overtaken == s.overtaken && t.late == s.late && t.pc.Over?
  {
    EndIsAside(Emit(s, [ErrorEv(code)]), reason);
    hide Ended;
  }

  lemma JudgeIsAside(s: Sess)
    requires !Telling(s.pc)
    ensures Aside(s, Judged(s))
  {
    FailIsAside(s, "unsupported", "unsupported");
    FailIsAside(s, "infra_error", "build failed");
    hide FailWith;
  }

  lemma FollowIsAside(s: Sess, reply: FollowReply)
    requires Enabled(s, Follow(reply))
    ensures Aside(s, Followed(s, reply))
  {
    var t := Emit(s, [PhaseEv(s.bld.status, s.copy.status)]);
    FailIsAside(t, "infra_error", "build unavailable");
    if reply.Streamed? {
      JudgeIsAside(Emit(t, Forwarded(reply.items, s.copy.status, StatusOf)).(bld := reply.final));
    }
    hide FailWith, Judged, Forwarded, StatusOf;
  }

  lemma RestoreIsAside(s: Sess, reply: RestoreReply)
    requires s.pc.Restoring?
    ensures Aside(s, RestoreTried(s, reply))
  {
    hide RebuildNotice;
  }

  lemma BootIsAside(s: Sess, ok: bool, returned: string, deleted: bool)
    requires s.pc.Booting?
    ensures Aside(s, Booted(s, ok, returned, deleted))
  {
  }

  lemma PollIsAside(s: Sess, reply: PollReply, deleted: bool)
    requires s.pc.Watching?
    ensures Aside(s, Polled(s, reply, deleted))
  {
    EndIsAside(Dropped(s, HeldId(s), true), "session expired");
    EndIsAside(s, "sandbox stopped");
    EndIsAside(Dropped(s.(copy := s.stored), HeldId(s), deleted), "session expired");
    hide Ended;
  }

  /** The run's own steps, but for going live and announcing it. */
  predicate OfRun(a: Action) { a.Follow? || a.Begin? || a.Restore? || a.Rebuild? || a.Boot? || a.Poll? }

  lemma RunStepIsAside(s: Sess, a: Action)
    requires Enabled(s, a) && OfRun(a)
    ensures Aside(s, Apply(s, a))
  {
    hide Followed, RestoreTried, Booted, Polled, Replayed;
    match a
    case Follow(r) => FollowIsAside(s, r);
    case Begin =>
    case Restore(r) => RestoreIsAside(s, r);
    case Rebuild(_) =>
    case Boot(ok, returned, deleted) => BootIsAside(s, ok, returned, deleted);
    case Poll(r, deleted) => PollIsAside(s, r, deleted);
  }

  lemma StepKeepsLateIff(s: Sess, a: Action, cut: bool)
    requires Inv(s) && Enabled(s, a) && LateIff(s, cut)
    ensures LateIff(Apply(s, a), cut || (Telling(s.pc) && a.Terminate?))
  {
    if OfRun(a) {
      RunStepIsAside(s, a);
      hide Apply, Inv;
    } else {
      hide NoEnd, EndsAt, ExpiryKept, AttemptInv, News, Followed, Begun, RestoreTried, Rebuilt, Booted, Polled;
    }
  }

  lemma {:induction false} RunKeepsLateIff(s: Sess, acts: seq<Action>, cut: bool)
    requires Inv(s) && Executable(s, acts) && LateIff(s, cut)
    ensures LateIff(Exec(s, acts), cut || CutShort(s, acts))
    decreases |acts|
  {
    hide Inv, LateIff, Apply, Enabled;
    if acts != [] {
      StepKeepsLateIff(s, acts[0], cut);
      ActionKeepsInv(s, acts[0]);
      RunKeepsLateIff(Apply(s, acts[0]), acts[1..], cut || (Telling(s.pc) && acts[0].Terminate?));
    }
  }

  /**
   Once an ended session's run has told all it has to tell, the ended event is the last exactly when no
   termination fell between the live store and the last announcement.
   */
  lemma EndIsLastIffNotCutShort(s0: Sess, acts: seq<Action>)
    requires Initial(s0) && Executable(s0, acts)
    requires Exec(s0, acts).stored.status.SEnded? && !Telling(Exec(s0, acts).pc)
    ensures var s := Exec(s0, acts); EndsOnce(s.log, s.stored.endedReason) <==> !CutShort(s0, acts)
  {
    InitialInv(s0);
    RunKeepsInv(s0, acts);
    assert LateIff(s0, false);
    RunKeepsLateIff(s0, acts, false);
    var s := Exec(s0, acts);
    hide Exec, Executable, Initial, CutShort;
    LastOrLate(s.log, s.stored.endedReason, s.late);
  }

  lemma LastOrLate(log: seq<Event>, reason: string, late: nat)
    requires EndsAt(log, reason, late)
    ensures EndsOnce(log, reason) <==> late == 0
  {
    if late == 0 {
      assert log[..|log| - 1] == log[..|log| - 1 - late];
    } else {
      assert log[|log| - late..][late - 1] == log[|log| - 1];
      assert log[|log| - 1] in log[|log| - late..];
    }
  }

  lemma {:induction false} NotCutShort(s: Sess, acts: seq<Action>)
    requires Executable(s, acts) && forall a | a in acts :: !a.Terminate?
    ensures !CutShort(s, acts)
    decreases |acts|
  {
    hide Apply, Enabled;
    if acts != [] {
      assert acts[0] in acts;
      NotCutShort(Apply(s, acts[0]), acts[1..]);
    }
  }

  /** On every path through the run without a termination, the session is ended and the ended event is its last. */
  lemma UndisturbedRunEndsLast(s0: Sess, acts: seq<Action>)
    requires Initial(s0) && Executable(s0, acts) && Exec(s0, acts).pc.Over?
    requires forall a | a in acts :: !a.Terminate?
    ensures var s := Exec(s0, acts); s.stored.status.SEnded? && s.done && EndsOnce(s.log, s.stored.endedReason)
  {
    RunsEndOnce(s0, acts);
    NotCutShort(s0, acts);
    EndIsLastIffNotCutShort(s0, acts);
  }

  /** Some extension was granted after the run had stored its window and before it told it. */
  predicate Overtakes(s: Sess, acts: seq<Action>)
    requires Executable(s, acts)
    decreases |acts|
  {
    acts != [] && ((AheadOfWindow(s.pc) && acts[0].Extend? && acts[0].keptAlive && MayExtend(s.stored))
                   || Overtakes(Apply(s, acts[0]), acts[1..]))
  }

  lemma StepOvertakes(s: Sess, a: Action)
    requires Enabled(s, a)
    ensures Apply(s, a).overtaken <==>
      s.overtaken || (AheadOfWindow(s.pc) && a.Extend? && a.keptAlive && MayExtend(s.stored))
  {
    if OfRun(a) {
      RunStepIsAside(s, a);
      hide Apply;
    } else {
      hide News, Followed, Begun, RestoreTried, Rebuilt, Booted, Polled;
    }
  }

  /** The field says what it is meant to. */
  lemma {:induction false} OvertakenMeans(s: Sess, acts: seq<Action>)
    requires Executable(s, acts)
    ensures Exec(s, acts).overtaken <==> s.overtaken || Overtakes(s, acts)
    decreases |acts|
  {
    hide Apply, Enabled, MayExtend, AheadOfWindow;
    if acts != [] {
      StepOvertakes(s, acts[0]);
      OvertakenMeans(Apply(s, acts[0]), acts[1..]);
    }
  }

  function Rank(st: S.SessionStatus): nat {
    match st
    case SPending => 0
    case SBuilding => 1
    case SStarting => 2
    case SLive => 3
    case SEnded => 4
  }

  /** One step's worth of moving forward. */
  predicate Forward(s: Sess, t: Sess) {
    && Rank(s.stored.status) <= Rank(t.stored.status)
    && (s.stored.status.SEnded? ==> t.stored == s.stored)
    && s.grants <= t.grants <= s.grants + 1 && (t.grants > s.grants ==> s.grants == 0)
  }

  lemma FollowMovesForward(s: Sess, reply: FollowReply)
    requires Inv(s) && Enabled(s, Follow(reply))
    ensures Forward(s, Followed(s, reply))
  {
    hide NoEnd, EndsAt, StatusOf, Forwarded;
  }

  lemma RestoreMovesForward(s: Sess, reply: RestoreReply)
    requires Inv(s) && s.pc.Restoring?
    ensures Forward(s, RestoreTried(s, reply))
  {
    hide RebuildNotice, NoEnd;
  }

  lemma PollMovesForward(s: Sess, reply: PollReply, deleted: bool)
    requires Inv(s) && s.pc.Watching?
    ensures Forward(s, Polled(s, reply, deleted))
  {
    hide NoEnd, EndsAt;
  }

  lemma ExtendMovesForward(s: Sess, keptAlive: bool)
    requires Inv(s)
    ensures Forward(s, ExtendTried(s, keptAlive))
  {
    hide NoEnd, EndsAt;
  }

  lemma StatusMovesForward(s: Sess, a: Action)
    requires Inv(s) && Enabled(s, a)
    ensures Forward(s, Apply(s, a))
  {
    hide NoEnd, EndsAt, Followed, RestoreTried, Polled, ExtendTried, Replayed;
    match a
    case Follow(r) => FollowMovesForward(s, r);
    case Restore(r) => RestoreMovesForward(s, r);
    case Poll(r, deleted) => PollMovesForward(s, r, deleted);
    case Extend(ok) => ExtendMovesForward(s, ok);
    case _ =>
  }

  /** Stored status only moves forward, an end is final, and no session is ever extended twice. */
  lemma {:induction false} StatusNeverRegresses(s: Sess, acts: seq<Action>)
    requires Inv(s) && Executable(s, acts)
    ensures var t := Exec(s, acts);
      && Rank(s.stored.status) <= Rank(t.stored.status)
      && (s.stored.status.SEnded? ==> t.stored == s.stored)
      && s.grants <= t.grants <= 1
    decreases |acts|
  {
    assert s.grants <= 1;
    hide Inv, Enabled, Apply;
    if acts != [] {
      StatusMovesForward(s, acts[0]);
      ActionKeepsInv(s, acts[0]);
      StatusNeverRegresses(Apply(s, acts[0]), acts[1..]);
    }
  }

  /** Once a session has been extended, every later request is refused, whatever the platform says. */
  lemma SecondExtendRefused(s0: Sess, acts: seq<Action>, keptAlive: bool)
    requires Initial(s0) && Executable(s0, acts) && Exec(s0, acts).grants == 1
    ensures !MayExtend(Exec(s0, acts).stored) && ExtendTried(Exec(s0, acts), keptAlive) == Exec(s0, acts)
  {
    InitialInv(s0);
    RunKeepsInv(s0, acts);
  }

  // ----------------------------------------------------------------- expiry

  /** The session went live with room for its whole first window before the hard cap. */
  predicate LiveInTime(s: Sess) { s.liveAt - s.stored.createdAt <= s.limits.maxTtl - s.limits.ttl }

  /** Over any run, the expiry is within the hard cap exactly when the session went live in time or has been extended. */
  lemma ExpiryBound(s0: Sess, acts: seq<Action>)
    requires Initial(s0) && Executable(s0, acts)
    ensures var s := Exec(s0, acts);
      s.stored.expiresAt.Some? ==>
        (s.stored.expiresAt.value <= s.stored.createdAt + s.limits.maxTtl <==> LiveInTime(s) || s.stored.extended)
  {
    InitialInv(s0);
    RunKeepsInv(s0, acts);
  }

  lemma GrantAt(s: Sess)
    requires Inv(s) && MayExtend(s.stored)
    ensures var t := ExtendTried(s, true); var window, cap := s.now + s.limits.ttl, s.stored.createdAt + s.limits.maxTtl;
      && t.stored.expiresAt.Some? && s.stored.expiresAt == Some(s.liveAt + s.limits.ttl)
      && (t.stored.expiresAt.value == window || t.stored.expiresAt.value == cap)
      && t.stored.expiresAt.value <= window && t.stored.expiresAt.value <= cap
      && t.stored == s.stored.(extended := true, expiresAt := t.stored.expiresAt)
      && (t.stored.expiresAt.value > s.stored.expiresAt.value
          <==> s.now > s.liveAt && s.liveAt + s.limits.ttl < cap)
  {
    hide NoEnd, EndsAt, AttemptInv, PreviewInv;
  }

  /**
   Over any run, an extension moves the expiry to a full window from now or to the hard cap, whichever is
   sooner. The session gains exactly when time has passed since it went live and its first window ends
   before the cap.
   */
  lemma GrantIsTheSoonerBound(s0: Sess, acts: seq<Action>)
    requires Initial(s0) && Executable(s0, acts) && MayExtend(Exec(s0, acts).stored)
    ensures var s := Exec(s0, acts); var t := ExtendTried(s, true);
      var window, cap := s.now + s.limits.ttl, s.stored.createdAt + s.limits.maxTtl;
      && t.stored.expiresAt.Some? && s.stored.expiresAt == Some(s.liveAt + s.limits.ttl)
      && (t.stored.expiresAt.value == window || t.stored.expiresAt.value == cap)
      && t.stored.expiresAt.value <= window && t.stored.expiresAt.value <= cap
      && t.stored == s.stored.(extended := true, expiresAt := t.stored.expiresAt)
      && (t.stored.expiresAt.value > s.stored.expiresAt.value
          <==> s.now > s.liveAt && s.liveAt + s.limits.ttl < cap)
  {
    InitialInv(s0);
    RunKeepsInv(s0, acts);
    var s := Exec(s0, acts);
    hide *;
    GrantAt(s);
  }

  /**
   Over any run, an extension is granted neither past a window from now nor past the hard cap, and
   it moves the expiry earlier exactly when the session had not gone live in time.
   */
  lemma ExtendShortensIffLate(s0: Sess, acts: seq<Action>)
    requires Initial(s0) && Executable(s0, acts) && MayExtend(Exec(s0, acts).stored)
    ensures var s := Exec(s0, acts); var t := ExtendTried(s, true);
      && t.stored.expiresAt.Some? && s.stored.expiresAt.Some?
      && t.stored.expiresAt.value <= s.now + s.limits.ttl
      && t.stored.expiresAt.value <= s.stored.createdAt + s.limits.maxTtl
      && (t.stored.expiresAt.value < s.stored.expiresAt.value <==> !LiveInTime(s))
  {
    InitialInv(s0);
    RunKeepsInv(s0, acts);
    hide Exec, Executable, Initial, NoEnd, EndsAt;
  }

  lemma PollEndsAt(s: Sess, reply: PollReply, deleted: bool)
    requires Inv(s) && s.pc.Watching?
    ensures var t := Polled(s, reply, deleted);
      && s.stored.expiresAt.Some?
      && (t.pc.Over? <==> !reply.Fine? || s.now > s.stored.expiresAt.value)
      && (t.pc.Over? ==> t.stored.status.SEnded?)
      && (t.pc.Over? && !s.stored.status.SEnded? ==>
            t.stored.endedReason == if reply.Stopped? then "sandbox stopped" else "session expired")
      && (!t.pc.Over? ==> t == s.(copy := s.stored))
  {
    hide NoEnd, EndsAt, AttemptInv;
  }

  /**
   Over any run, a poll ends the run exactly when the platform reports the sandbox gone or stopped, or
   the expiry stored at that moment has passed, extensions by others included; and then the record is ended.
   */
  lemma PollEnforcesExpiry(s0: Sess, acts: seq<Action>, reply: PollReply, deleted: bool)
    requires Initial(s0) && Executable(s0, acts) && Exec(s0, acts).pc.Watching?
    ensures var s := Exec(s0, acts); var t := Polled(s, reply, deleted);
      && s.stored.expiresAt.Some?
      && (t.pc.Over? <==> !reply.Fine? || s.now > s.stored.expiresAt.value)
      && (t.pc.Over? ==> t.stored.status.SEnded?)
      && (t.pc.Over? && !s.stored.status.SEnded? ==>
            t.stored.endedReason == if reply.Stopped? then "sandbox stopped" else "session expired")
      && (!t.pc.Over? ==> t == s.(copy := s.stored))
  {
    InitialInv(s0);
    RunKeepsInv(s0, acts);
    var s := Exec(s0, acts);
    hide *;
    PollEndsAt(s, reply, deleted);
  }

  /** The watcher has had a good answer, and so re-read the record. */
  predicate PolledWell(acts: seq<Action>) { exists k | 0 <= k < |acts| :: acts[k].Poll? && acts[k].polled.Fine? }

  lemma {:induction false} CopyIsAsFreshAsLastPoll(s: Sess, mid: seq<Action>)
    requires Inv(s) && OnAir(s.pc) && s.stored.extended && Executable(s, mid)
    requires !Exec(s, mid).stored.status.SEnded?
    ensures var t := Exec(s, mid);
      && OnAir(t.pc) && t.stored.extended && (t.copy.extended <==> s.copy.extended || PolledWell(mid))
    decreases |mid|
  {
    if mid != [] {
      var u := Apply(s, mid[0]);
      ActionKeepsInv(s, mid[0]);
      StatusNeverRegresses(u, mid[1..]);
      KeptLive(s, mid[0]);
      hide Inv, Apply, Enabled;
      CopyIsAsFreshAsLastPoll(u, mid[1..]);
      assert PolledWell(mid) <==> (mid[0].Poll? && mid[0].polled.Fine?) || PolledWell(mid[1..]) by {
        PolledWellCons(mid);
      }
    }
  }

  lemma PolledWellCons(acts: seq<Action>)
    requires acts != []
    ensures PolledWell(acts) <==> (acts[0].Poll? && acts[0].polled.Fine?) || PolledWell(acts[1..])
  {
    if PolledWell(acts[1..]) {
      var k :| 0 <= k < |acts[1..]| && acts[1..][k].Poll? && acts[1..][k].polled.Fine?;
      assert acts[k + 1] == acts[1..][k];
    }
    if k :| 0 < k < |acts| && acts[k].Poll? && acts[k].polled.Fine? {
      assert acts[1..][k - 1] == acts[k];
    }
  }

  /** s has become t, still extended and on air; the copy has been refreshed if seen. */
  predicate StillExtended(s: Sess, t: Sess, seen: bool) {
    OnAir(t.pc) && t.stored.extended && (t.copy.extended <==> s.copy.extended || seen)
  }

  lemma PollKeepsExtended(s: Sess, reply: PollReply, deleted: bool)
    requires Inv(s) && s.pc.Watching? && s.stored.extended && !Polled(s, reply, deleted).stored.status.SEnded?
    ensures StillExtended(s, Polled(s, reply, deleted), reply.Fine?)
  {
    hide NoEnd, EndsAt, ExpiryKept;
  }

  /** One step of an extended session that does not end it. */
  lemma KeptLive(s: Sess, a: Action)
    requires Inv(s) && OnAir(s.pc) && s.stored.extended && Enabled(s, a)
    requires !Apply(s, a).stored.status.SEnded?
    ensures StillExtended(s, Apply(s, a), a.Poll? && a.polled.Fine?)
  {
    hide NoEnd, EndsAt, ExpiryKept, News, Followed, Begun, RestoreTried, Rebuilt, Booted, WentLive, Polled;
    if a.Poll? {
      PollKeepsExtended(s, a.polled, a.deleted);
    }
  }

  /**
   end writes the run's copy: when a granted extension is followed, with no end in between, by a poll
   that finds the sandbox gone or stopped, the final record has the extension exactly when some poll in
   between was good.
   */
  lemma ExtensionSurvivesIffPolledWell(s0: Sess, acts: seq<Action>, mid: seq<Action>, reply: PollReply, deleted: bool)
    requires Initial(s0) && Executable(s0, acts) && MayExtend(Exec(s0, acts).stored)
    requires var g := ExtendTried(Exec(s0, acts), true);
      Executable(g, mid) && !Exec(g, mid).stored.status.SEnded? && Exec(g, mid).pc.Watching?
    requires !reply.Fine?
    ensures var t := Exec(ExtendTried(Exec(s0, acts), true), mid);
      Polled(t, reply, deleted).stored.extended <==> PolledWell(mid)
  {
    InitialInv(s0);
    RunKeepsInv(s0, acts);
    var s := Exec(s0, acts);
    var g := ExtendTried(s, true);
    hide Initial, Exec, Executable, PolledWell;
    assert OnAir(s.pc) && !s.copy.extended;
    ExtendKeepsInv(s, true);
    CopyIsAsFreshAsLastPoll(g, mid);
  }

  // ------------------------------------------------------ the visitor's sandbox

  /** The platform creates nameless sandboxes for nobody, a wait returns the record asked for, and deletes work. */
  predicate Honest(s: Sess, a: Action) {
    match a
    case Restore(r) => r.Restored? ==> r.sandbox != ""
    case Boot(_, returned, deleted) => s.boxes.held == Some(returned) && deleted
    case Poll(_, deleted) => deleted
    case Terminate(_, deleted) => deleted
    case _ => true
  }

  predicate AllHonest(s: Sess, acts: seq<Action>)
    requires Executable(s, acts)
    decreases |acts|
  {
    acts == [] || (Honest(s, acts[0]) && AllHonest(Apply(s, acts[0]), acts[1..]))
  }

  predicate BeforeSandbox(pc: Pc) { BeforeLive(pc) && !pc.Booting? && !pc.Exposing? }

  /** At most one sandbox, the run's and the record's; deleted only with the session, and then unless it merely stopped. */
  predicate BoxInv(s: Sess) {
    && s.boxes.gone <= s.boxes.made
    && (if s.boxes.made == {} then s.stored.sandbox == "" && s.boxes.held.None? && s.copy.sandbox == ""
        else s.stored.sandbox == s.copy.sandbox != "" && s.boxes.held == Some(s.stored.sandbox)
             && s.boxes.made == {s.stored.sandbox})
    && (BeforeSandbox(s.pc) ==> s.boxes.made == {})
    && (!s.pc.Over? && !BeforeSandbox(s.pc) ==> s.boxes.made != {})
    && (if s.stored.status.SEnded? then s.boxes.made <= s.boxes.gone || s.stored.endedReason == "sandbox stopped"
        else s.boxes.gone == {})
  }

  /** A step that leaves the sandbox, its name in the records and any stored end alone. */
  predicate SameBoxes(s: Sess, t: Sess) {
    && t.boxes == s.boxes && t.stored.sandbox == s.stored.sandbox && t.copy.sandbox == s.copy.sandbox
    && (s.stored.status.SEnded? ==> t.stored == s.stored)
  }

  lemma SameKeepsBoxes(s: Sess, t: Sess)
    requires BoxInv(s) && SameBoxes(s, t)
    requires BeforeSandbox(t.pc) ==> BeforeSandbox(s.pc)
    requires !t.pc.Over? && !BeforeSandbox(t.pc) ==> !s.pc.Over? && !BeforeSandbox(s.pc)
    requires t.stored.status.SEnded? && !s.stored.status.SEnded? ==>
      s.boxes.made == {} || t.stored.endedReason == "sandbox stopped"
    ensures BoxInv(t)
  {
  }

  lemma FollowKeepsBoxes(s: Sess, reply: FollowReply)
    requires Inv(s) && BoxInv(s) && Enabled(s, Follow(reply))
    ensures BoxInv(Followed(s, reply))
  {
    hide NoEnd, EndsAt, ExpiryKept, Forwarded, StatusOf, BoxInv;
    assert s.boxes.made == {} by { BoxesBefore(s); }
    SameKeepsBoxes(s, Followed(s, reply));
  }

  lemma BoxesBefore(s: Sess)
    requires BoxInv(s)
    ensures BeforeSandbox(s.pc) ==> s.boxes.made == {}
  {
  }

  lemma RestoreKeepsBoxes(s: Sess, reply: RestoreReply)
    requires Inv(s) && BoxInv(s) && s.pc.Restoring? && (reply.Restored? ==> reply.sandbox != "")
    ensures BoxInv(RestoreTried(s, reply))
  {
    hide NoEnd, EndsAt, ExpiryKept, RebuildNotice, AttemptInv;
  }

  lemma BootKeepsBoxes(s: Sess, ok: bool, returned: string)
    requires Inv(s) && BoxInv(s) && s.pc.Booting? && s.boxes.held == Some(returned)
    ensures BoxInv(Booted(s, ok, returned, true))
  {
    hide NoEnd, EndsAt, ExpiryKept, AttemptInv;
  }

  lemma PollKeepsBoxes(s: Sess, reply: PollReply)
    requires Inv(s) && BoxInv(s) && s.pc.Watching?
    ensures BoxInv(Polled(s, reply, true))
  {
    hide NoEnd, EndsAt, ExpiryKept, AttemptInv;
  }

  lemma TerminateKeepsBoxes(s: Sess, reason: string)
    requires Inv(s) && BoxInv(s) && s.stored.status.SLive?
    ensures BoxInv(Terminated(s, reason, true))
  {
    hide NoEnd, EndsAt, ExpiryKept, AttemptInv;
  }

  lemma StepKeepsBoxes(s: Sess, a: Action)
    requires Inv(s) && BoxInv(s) && Enabled(s, a) && Honest(s, a)
    ensures BoxInv(Apply(s, a))
  {
    hide NoEnd, EndsAt, ExpiryKept, AttemptInv, Followed, Begun, RestoreTried, Booted, WentLive, Announced, Polled,
      ExtendTried, Terminated;
    match a
    case Follow(r) => FollowKeepsBoxes(s, r);
    case Begin => BeginKeepsBoxes(s);
    case Restore(r) => RestoreKeepsBoxes(s, r);
    case Rebuild(again) => RebuildKeepsBoxes(s, again);
    case Boot(ok, returned, _) => BootKeepsBoxes(s, ok, returned);
    case GoLive(url) => GoLiveKeepsBoxes(s, url);
    case Announce => AnnounceKeepsBoxes(s);
    case Tick(_) =>
    case Extend(ok) => ExtendKeepsBoxes(s, ok);
    case Poll(r, _) => PollKeepsBoxes(s, r);
    case Terminate(reason, _) => TerminateKeepsBoxes(s, reason);
  }

  lemma BeginKeepsBoxes(s: Sess)
    requires BoxInv(s) && s.pc.Beginning? && s.copy == s.stored && !s.stored.status.SEnded?
    ensures BoxInv(Begun(s))
  {
    hide NoEnd, EndsAt, Replayed;
  }

  lemma GoLiveKeepsBoxes(s: Sess, url: Option<string>)
    requires BoxInv(s) && s.pc.Exposing? && s.copy == s.stored && !s.stored.status.SEnded?
    ensures BoxInv(WentLive(s, url))
  {
  }

  lemma AnnounceKeepsBoxes(s: Sess)
    requires BoxInv(s) && Telling(s.pc)
    ensures BoxInv(Announced(s))
  {
    hide News;
  }

  lemma ExtendKeepsBoxes(s: Sess, keptAlive: bool)
    requires BoxInv(s)
    ensures BoxInv(ExtendTried(s, keptAlive))
  {
  }

  lemma RebuildKeepsBoxes(s: Sess, again: Option<BuildView>)
    requires BoxInv(s) && s.pc.Rebuilding?
    ensures BoxInv(Rebuilt(s, again))
  {
  }

  lemma {:induction false} RunKeepsBoxes(s: Sess, acts: seq<Action>)
    requires Inv(s) && BoxInv(s) && Executable(s, acts) && AllHonest(s, acts)
    ensures BoxInv(Exec(s, acts))
    decreases |acts|
  {
    hide Inv, BoxInv, Apply, Enabled, Honest;
    if acts != [] {
      StepKeepsBoxes(s, acts[0]);
      ActionKeepsInv(s, acts[0]);
      RunKeepsBoxes(Apply(s, acts[0]), acts[1..]);
    }
  }

  lemma InitialBoxes(s: Sess)
    requires Initial(s)
    ensures Inv(s) && BoxInv(s)
  {
  }

  lemma BoxesReached(s0: Sess, acts: seq<Action>)
    requires Initial(s0) && Executable(s0, acts) && AllHonest(s0, acts)
    ensures Inv(Exec(s0, acts)) && BoxInv(Exec(s0, acts))
  {
    hide Initial, Inv, BoxInv, Exec, Executable, AllHonest;
    InitialBoxes(s0);
    RunKeepsInv(s0, acts);
    RunKeepsBoxes(s0, acts);
  }

  lemma FreedAt(s: Sess)
    requires BoxInv(s)
    ensures s.boxes.gone <= s.boxes.made && |s.boxes.made| <= 1
    ensures forall id | id in s.boxes.made :: s.stored.sandbox == id
    ensures !s.stored.status.SEnded? ==> s.boxes.gone == {}
    ensures s.stored.status.SEnded? && s.stored.endedReason != "sandbox stopped" ==> s.boxes.gone == s.boxes.made
  {
  }

  /**
   A session creates at most one sandbox for its visitor, the one its record names, and nothing else
   is ever deleted. The sandbox is kept as long as the session has not ended, and once it has, by
   whatever route, the sandbox is gone, unless it ended because the platform had stopped the sandbox.
   */
  lemma VisitorSandboxIsFreed(s0: Sess, acts: seq<Action>)
    requires Initial(s0) && Executable(s0, acts) && AllHonest(s0, acts)
    ensures var s := Exec(s0, acts);
      && s.boxes.gone <= s.boxes.made && |s.boxes.made| <= 1
      && (forall id | id in s.boxes.made :: s.stored.sandbox == id)
      && (!s.stored.status.SEnded? ==> s.boxes.gone == {})
      && (s.stored.status.SEnded? && s.stored.endedReason != "sandbox stopped" ==> s.boxes.gone == s.boxes.made)
  {
    hide Inv, BoxInv, AllHonest;
    BoxesReached(s0, acts);
    var s := Exec(s0, acts);
    hide *;
    FreedAt(s);
  }

  /**
   A poll that ends a live session leaves its sandbox gone exactly when it found it gone already, or the
   session had expired and the delete works.
   */
  lemma PollFreesExactly(s0: Sess, acts: seq<Action>, reply: PollReply, deleted: bool)
    requires Initial(s0) && Executable(s0, acts) && AllHonest(s0, acts)
    requires Exec(s0, acts).pc.Watching? && Exec(s0, acts).stored.status.SLive?
    ensures var t := Polled(Exec(s0, acts), reply, deleted);
      t.pc.Over? ==> (t.boxes.made <= t.boxes.gone <==> reply.Gone? || (reply.Fine? && deleted))
  {
    hide Inv, BoxInv, AllHonest;
    BoxesReached(s0, acts);
    var s := Exec(s0, acts);
    hide *;
    PollFreesAt(s, reply, deleted);
  }

  lemma PollFreesAt(s: Sess, reply: PollReply, deleted: bool)
    requires BoxInv(s) && s.pc.Watching? && s.stored.status.SLive?
    ensures var t := Polled(s, reply, deleted);
      t.pc.Over? ==> (t.boxes.made <= t.boxes.gone <==> reply.Gone? || (reply.Fine? && deleted))
  {
    EndedKeepsBoxes(Dropped(s, HeldId(s), true), "session expired");
    EndedKeepsBoxes(s, "sandbox stopped");
    EndedKeepsBoxes(Dropped(s.(copy := s.stored), HeldId(s), deleted), "session expired");
    hide Ended;
  }

  lemma EndedKeepsBoxes(s: Sess, reason: string)
    ensures Ended(s, reason).boxes == s.boxes
  {
  }

  /** A termination of a live session leaves its sandbox gone exactly when the delete works. */
  lemma TerminationFreesIffDeleted(s0: Sess, acts: seq<Action>, reason: string, deleted: bool)
    requires Initial(s0) && Executable(s0, acts) && AllHonest(s0, acts) && Exec(s0, acts).stored.status.SLive?
    ensures var t := Terminated(Exec(s0, acts), reason, deleted); t.boxes.made <= t.boxes.gone <==> deleted
  {
    hide Inv, BoxInv, AllHonest;
    BoxesReached(s0, acts);
    var s := Exec(s0, acts);
    hide *;
    TerminationFreesAt(s, reason, deleted);
  }

  lemma TerminationFreesAt(s: Sess, reason: string, deleted: bool)
    requires Inv(s) && BoxInv(s) && s.stored.status.SLive?
    ensures var t := Terminated(s, reason, deleted); t.boxes.made <= t.boxes.gone <==> deleted
  {
    hide NoEnd, EndsAt, ExpiryKept, AttemptInv;
  }

  lemma FailedBootAt(s: Sess, returned: string, deleted: bool)
    requires Inv(s) && BoxInv(s) && s.pc.Booting?
    ensures var t := Booted(s, false, returned, deleted);
      t.stored.status.SEnded? && (t.boxes.made <= t.boxes.gone <==> deleted && returned == s.stored.sandbox)
  {
    hide NoEnd, EndsAt, ExpiryKept, AttemptInv;
  }

  /** When a restored sandbox does not start, it is freed exactly when the failed wait names it and the delete works. */
  lemma FailedBootFreesIffSameId(s0: Sess, acts: seq<Action>, returned: string, deleted: bool)
    requires Initial(s0) && Executable(s0, acts) && AllHonest(s0, acts) && Exec(s0, acts).pc.Booting?
    ensures var s := Exec(s0, acts); var t := Booted(s, false, returned, deleted);
      && t.stored.status.SEnded?
      && (t.boxes.made <= t.boxes.gone <==> deleted && returned == s.stored.sandbox)
  {
    hide Inv, BoxInv, AllHonest;
    BoxesReached(s0, acts);
    var s := Exec(s0, acts);
    hide *;
    FailedBootAt(s, returned, deleted);
  }

  // ---------------------------------------------------- replaced before live

  /** How a run that nobody has told goes on when all is well, from any point before it is live. */
  function GoingOn(pc: Pc): seq<Action> {
    var ready := BuildView(S.Ready, false, 0, "");
    match pc
    case Joining => [Follow(Streamed([], ready)), Begin]
    case Beginning => [Begin]
    case Restoring => [Restore(Restored("sb"))]
    case Rebuilding => [Rebuild(Some(ready)), Follow(Streamed([], ready)), Restore(Restored("sb"))]
    case Refollowing => [Follow(Streamed([], ready)), Restore(Restored("sb"))]
    case Booting => [Boot(true, "sb", true), GoLive(None)]
    case Exposing => [GoLive(None)]
    case _ => []
  }

  lemma OneStep(s: Sess, a: Action)
    requires Enabled(s, a)
    ensures Executable(s, [a]) && Exec(s, [a]) == Apply(s, a)
  {
    hide Enabled, Apply;
    assert Executable(Apply(s, a), []);
  }

  lemma OneMoreStep(s: Sess, a: Action, acts: seq<Action>)
    requires Enabled(s, a) && Executable(Apply(s, a), acts)
    ensures Executable(s, [a] + acts) && Exec(s, [a] + acts) == Exec(Apply(s, a), acts)
  {
    hide Enabled, Apply;
    assert ([a] + acts)[1..] == acts;
  }

  /** Going on from t, the run writes back a record that is not ended. */
  ghost predicate Revives(t: Sess) {
    Executable(t, GoingOn(t.pc)) && !Exec(t, GoingOn(t.pc)).stored.status.SEnded?
  }

  lemma RevivesAfter(t: Sess, a: Action)
    requires Enabled(t, a) && Revives(Apply(t, a)) && GoingOn(t.pc) == [a] + GoingOn(Apply(t, a).pc)
    ensures Revives(t)
  {
    hide Enabled, Apply, GoingOn;
    OneMoreStep(t, a, GoingOn(Apply(t, a).pc));
  }

  /** The ready build's visitor is let through. */
  lemma LetThrough(t: Sess)
    requires (t.pc.Joining? || t.pc.Refollowing?) && !t.copy.status.SEnded?
    ensures var u := Followed(t, Streamed([], BuildView(S.Ready, false, 0, "")));
      u.pc == Next(t.pc) && !u.copy.status.SEnded?
  {
  }

  lemma BeginRevives(t: Sess)
    requires t.pc.Beginning?
    ensures Revives(t)
  {
    hide Replayed, Followed, RestoreTried, Rebuilt, Booted, WentLive, Polled, ExtendTried, Terminated;
    OneStep(t, Begin);
  }

  lemma RestoreRevives(t: Sess)
    requires t.pc.Restoring? && !t.copy.status.SEnded?
    ensures Revives(t)
  {
    hide Begun, Followed, Rebuilt, Booted, WentLive, Polled, ExtendTried, Terminated;
    OneStep(t, Restore(Restored("sb")));
  }

  lemma ExposeRevives(t: Sess)
    requires t.pc.Exposing?
    ensures Revives(t)
  {
    hide Begun, Followed, RestoreTried, Rebuilt, Booted, Polled, ExtendTried, Terminated;
    OneStep(t, GoLive(None));
  }

  lemma BootRevives(t: Sess)
    requires t.pc.Booting?
    ensures Revives(t)
  {
    hide Begun, Followed, RestoreTried, Rebuilt, WentLive, Polled, ExtendTried, Terminated, Exec, Executable;
    ExposeRevives(Booted(t, true, "sb", true));
    hide Revives;
    RevivesAfter(t, Boot(true, "sb", true));
  }

  lemma FollowRevives(t: Sess)
    requires (t.pc.Joining? || t.pc.Refollowing?) && !t.copy.status.SEnded?
    ensures Revives(t)
  {
    var a := Follow(Streamed([], BuildView(S.Ready, false, 0, "")));
    LetThrough(t);
    hide Begun, Followed, RestoreTried, Rebuilt, Booted, WentLive, Polled, ExtendTried, Terminated, Exec, Executable;
    if t.pc.Joining? {
      BeginRevives(Apply(t, a));
    } else {
      RestoreRevives(Apply(t, a));
    }
    hide Revives;
    RevivesAfter(t, a);
  }

  lemma RebuildRevives(t: Sess)
    requires t.pc.Rebuilding? && !t.copy.status.SEnded?
    ensures Revives(t)
  {
    var ready := BuildView(S.Ready, false, 0, "");
    hide Begun, Followed, RestoreTried, Booted, WentLive, Polled, ExtendTried, Terminated, Exec, Executable;
    FollowRevives(Rebuilt(t, Some(ready)));
    hide Revives;
    RevivesAfter(t, Rebuild(Some(ready)));
  }

  lemma GoesOn(t: Sess)
    requires BeforeLive(t.pc) && !t.copy.status.SEnded?
    ensures Revives(t)
  {
    hide Revives;
    match t.pc
    case Rebuilding => RebuildRevives(t);
    case Joining => FollowRevives(t);
    case Refollowing => FollowRevives(t);
    case Booting => BootRevives(t);
    case Beginning => BeginRevives(t);
    case Restoring => RestoreRevives(t);
    case Exposing => ExposeRevives(t);
  }

  /**
   A session that is replaced stays ended, whatever its run goes on to do, exactly when it was live:
   before that, the run knows nothing of the end and can write its own copy back.
   */
  lemma ReplacedStaysEndedIffLive(s0: Sess, acts: seq<Action>, reason: string, deleted: bool)
    requires Initial(s0) && Executable(s0, acts) && !Exec(s0, acts).stored.status.SEnded?
    ensures var s := Exec(s0, acts); var t := Terminated(s, reason, deleted);
      (forall more | Executable(t, more) :: Exec(t, more).stored.status.SEnded?) <==> s.stored.status.SLive?
  {
    InitialInv(s0);
    RunKeepsInv(s0, acts);
    var s := Exec(s0, acts);
    var t := Terminated(s, reason, deleted);
    assert BeforeLive(s.pc) || s.stored.status.SLive?;
    assert t.copy == s.copy && t.pc == s.pc && t.stored.status.SEnded?;
    assert !s.stored.status.SLive? ==> !s.copy.status.SEnded?;
    if s.stored.status.SLive? {
      TerminateKeepsInv(s, reason, deleted);
      hide Inv, Terminated, Initial;
      forall more | Executable(t, more) ensures Exec(t, more).stored.status.SEnded? {
        StatusNeverRegresses(t, more);
      }
    } else {
      GoesOn(t);
      assert Executable(t, GoingOn(t.pc));
    }
  }
}
