/**
 The server's session and the browser's page together: what the page folds out of a session's event
 stream agrees with the record the server stores, after any number of reconnects.
 */
module SessionPage {
  import opened Wrappers
  import opened SessionMachine
  import S = Store
  import R = Reducer
  import B = BuildLog

  function BuildName(st: S.BuildStatus): string {
    match st
    case Queued => "queued"
    case Building => "building"
    case Ready => "ready"
    case Failed => "failed"
    case Unsupported => "unsupported"
  }

  function SessionName(st: S.SessionStatus): string {
    match st
    case SPending => "pending"
    case SBuilding => "building"
    case SStarting => "starting"
    case SLive => "live"
    case SEnded => "ended"
  }

  /** How the page's own type spells a status. */
  function PageStatus(st: S.SessionStatus): R.SessionStatus {
    match st
    case SPending => R.Pending
    case SBuilding => R.Building
    case SStarting => R.Starting
    case SLive => R.Live
    case SEnded => R.Ended
  }

  lemma NamesAreKnown(st: S.SessionStatus)
    ensures R.AsSessionStatus(SessionName(st)) == Some(PageStatus(st))
  {
  }

  function PageBuild(st: S.BuildStatus): R.BuildStatus {
    match st
    case Queued => R.Queued
    case Building => R.InBuild
    case Ready => R.Ready
    case Failed => R.Failed
    case Unsupported => R.Unsupported
  }

  /** The page reads every build status the server writes as that status, and so does the session's run. */
  lemma BuildNamesAreKnown(st: S.BuildStatus)
    ensures R.AsBuildStatus(BuildName(st)) == Some(PageBuild(st)) && StatusOf(BuildName(st)) == st
    ensures PageBuild(st).Queued? <==> st.Queued?
    ensures PageBuild(st).InBuild? <==> st.Building?
    ensures PageBuild(st).Ready? <==> st.Ready?
    ensures PageBuild(st).Failed? <==> st.Failed?
    ensures PageBuild(st).Unsupported? <==> st.Unsupported?
  {
  }

  lemma StatusesMatch(st: S.SessionStatus)
    ensures PageStatus(st).Pending? <==> st.SPending?
    ensures PageStatus(st).Building? <==> st.SBuilding?
    ensures PageStatus(st).Starting? <==> st.SStarting?
    ensures PageStatus(st).Live? <==> st.SLive?
    ensures PageStatus(st).Ended? <==> st.SEnded?
  {
  }

  /** An event as the browser receives it; stamp renders a time. Log times are not modelled. */
  function Wire(e: Event, stamp: int -> string): R.Event {
    match e
    case LogEv(t) => R.LogEv(R.LogLine("", t.phase, t.line))
    case PhaseEv(b, s) => R.PhaseEv(BuildName(b), SessionName(s), "")
    case PreviewEv(u, p) => R.PreviewEv(u, p)
    case TerminalEv => R.TerminalEv(true)
    case TtlEv(x, ext) => R.TtlEv(stamp(x), ext)
    case EndedEv(r) => R.EndedEv(r)
    case ErrorEv(c) => R.ErrorEv(R.ErrorInfo(c, ""))
  }

  function Stream(log: seq<Event>, stamp: int -> string): (h: seq<R.Event>)
    ensures |h| == |log| && R.IsHistory(h)
  {
    seq(|log|, i requires 0 <= i < |log| => Wire(log[i], stamp))
  }

  /**
   A page before it receives any event: its state, the status it shows that is excused while the session
   has said nothing yet, and how times are rendered.
   */
  datatype Viewer = Viewer(base: R.State, open: R.SessionStatus, stamp: int -> string)

  /** A page that has received exactly this log. */
  function Page(log: seq<Event>, w: Viewer): R.State { R.Fold(w.base, Stream(log, w.stamp)) }

  lemma {:induction false} PageGrows(log: seq<Event>, evs: seq<Event>, w: Viewer)
    ensures Page(log + evs, w) == R.Fold(Page(log, w), Stream(evs, w.stamp))
  {
    assert Stream(log + evs, w.stamp) == Stream(log, w.stamp) + Stream(evs, w.stamp);
    R.FoldConcat(w.base, Stream(log, w.stamp), Stream(evs, w.stamp));
  }

  lemma PageGrowsByOne(log: seq<Event>, e: Event, w: Viewer)
    ensures Page(log + [e], w) == R.Reduce(Page(log, w), Wire(e, w.stamp))
  {
    PageGrows(log, [e], w);
    var h := Stream([e], w.stamp);
    assert R.Fold(Page(log, w), h) == R.Fold(R.Reduce(Page(log, w), h[0]), h[1..]);
  }

  /** What the page shows of the record. */
  datatype Shown = Shown(status: R.SessionStatus, terminal: bool, expires: Option<string>, extended: bool,
                         preview: string, reason: Option<string>)

  function Show(p: R.State): Shown {
    Shown(p.sessionStatus, p.terminalReady, p.expiresAt, p.extended, p.previewUrl.GetOr(""), p.endedReason)
  }

  /** How one event changes what is shown. */
  function Seen(v: Shown, e: Event, w: Viewer): Shown {
    match e
    case PhaseEv(_, s) => if v.status.Ended? then v else v.(status := PageStatus(s))
    case PreviewEv(u, _) => if v.status.Ended? then v else v.(preview := u, status := R.Live)
    case TerminalEv => v.(terminal := true)
    case TtlEv(x, ext) => v.(expires := Some(w.stamp(x)), extended := ext)
    case EndedEv(r) => v.(status := R.Ended, reason := Some(r), terminal := false)
    case _ => v
  }

  function Watched(log: seq<Event>, w: Viewer): Shown { Show(Page(log, w)) }

  lemma WatchedGrows(log: seq<Event>, e: Event, w: Viewer)
    ensures Watched(log + [e], w) == Seen(Watched(log, w), e, w)
  {
    PageGrowsByOne(log, e, w);
    hide Page;
    if e.PhaseEv? {
      NamesAreKnown(e.session);
      hide R.AsSessionStatus, SessionName, R.AsBuildStatus, BuildName;
    }
  }

  /** Talk: events that only report progress in this status. */
  predicate Talk(evs: seq<Event>, st: S.SessionStatus) {
    forall e | e in evs :: e.LogEv? || e.ErrorEv? || (e.PhaseEv? && e.session == st)
  }

  /** Talk changes nothing shown but the status, and that only to the one it reports. */
  lemma {:induction false} TalkIsQuiet(log: seq<Event>, evs: seq<Event>, st: S.SessionStatus, w: Viewer)
    requires Talk(evs, st)
    ensures var v, u := Watched(log, w), Watched(log + evs, w);
      && u == v.(status := u.status)
      && (u.status == v.status || (!v.status.Ended? && u.status == PageStatus(st)))
    ensures !Watched(log, w).status.Ended? && (exists e | e in evs :: e.PhaseEv?) ==>
      Watched(log + evs, w).status == PageStatus(st)
    decreases |evs|
  {
    hide Watched;
    if evs == [] {
      assert log + evs == log;
    } else {
      var init, last := evs[..|evs| - 1], evs[|evs| - 1];
      assert log + evs == (log + init) + [last];
      assert forall e :: e in evs <==> e in init || e == last;
      TalkIsQuiet(log, init, st, w);
      WatchedGrows(log + init, last, w);
    }
  }

  /** The page tells the truth about the stored record. */
  predicate Faithful(s: Sess, v: Shown, stamp: int -> string) {
    if s.stored.status.SEnded? then
      v.status.Ended? && v.reason == Some(s.stored.endedReason) && !v.terminal
    else
      && v.status == PageStatus(s.stored.status) && v.reason.None?
      && v.expires == (if s.stored.expiresAt.Some? then Some(stamp(s.stored.expiresAt.value)) else None)
      && v.extended == s.stored.extended && v.terminal == s.stored.status.SLive?
      && v.preview == s.stored.previewUrl
  }

  /**
   The status it shows is the record's, but while the run has yet to tell that the session is live, and
   for a status the page had from the start and that no event has yet changed.
   */
  predicate StatusTold(s: Sess, v: Shown, w: Viewer) {
    || Telling(s.pc)
    || ((s.pc.Joining? || s.pc.Beginning?) && v.status == w.open)
    || v.status == PageStatus(s.stored.status)
  }

  predicate TerminalTold(s: Sess, v: Shown) { s.pc.TellingTerminal? || v.terminal == s.stored.status.SLive? }

  /** The window it shows is the record's, but the first one if that was told after the extension. */
  predicate WindowTold(s: Sess, v: Shown, w: Viewer) {
    if AheadOfWindow(s.pc) then true
    else if s.overtaken then v.expires == Some(w.stamp(s.liveAt + s.limits.ttl)) && !v.extended
    else
      && v.expires == (if s.stored.expiresAt.Some? then Some(w.stamp(s.stored.expiresAt.value)) else None)
      && v.extended == s.stored.extended
  }

  /** What a page shows of the record at every moment. */
  predicate Agrees(s: Sess, v: Shown, w: Viewer) {
    if s.stored.status.SEnded? then Faithful(s, v, w.stamp)
    else
      && !v.status.Ended? && v.reason.None? && v.preview == s.stored.previewUrl
      && StatusTold(s, v, w) && TerminalTold(s, v) && WindowTold(s, v, w)
  }

  /** The log as far as the end, if there has been one. */
  function Told(s: Sess): seq<Event> { if 0 < s.late <= |s.log| then s.log[..|s.log| - s.late] else s.log }

  predicate InStep(s: Sess, w: Viewer) { Agrees(s, Watched(Told(s), w), w) }

  lemma EndedInStep(s: Sess, reason: string, w: Viewer)
    requires if s.stored.status.SEnded? then InStep(s, w) else s.late == 0
    ensures InStep(Ended(s, reason), w)
  {
    hide Watched;
    if !s.stored.status.SEnded? {
      WatchedGrows(s.log, EndedEv(reason), w);
    }
  }

  lemma FailInStep(s: Sess, code: string, reason: string, w: Viewer)
    requires !s.stored.status.SEnded? && s.late == 0
    ensures InStep(FailWith(s, code, reason), w)
  {
    EndedInStep(Emit(s, [ErrorEv(code)]), reason, w);
  }

  /** Progress reported in the stored status keeps the page in step, and brings it there. */
  lemma TalkInStep(s: Sess, evs: seq<Event>, w: Viewer)
    requires InStep(s, w) && !s.stored.status.SEnded? && s.late == 0 && Talk(evs, s.stored.status)
    ensures InStep(Emit(s, evs), w)
    ensures (exists e | e in evs :: e.PhaseEv?) ==>
      Watched(s.log + evs, w).status == PageStatus(s.stored.status)
  {
    hide Watched;
    TalkIsQuiet(s.log, evs, s.stored.status, w);
  }

  lemma FollowInStep(s: Sess, reply: FollowReply, w: Viewer)
    requires Inv(s) && InStep(s, w) && Enabled(s, Follow(reply))
    ensures InStep(Followed(s, reply), w)
  {
    hide Watched, NoEnd, EndsAt;
    if s.bld.status.Ready? || reply.Unavailable? {
      if !s.bld.status.Ready? {
        FailInStep(Emit(s, [PhaseEv(s.bld.status, s.copy.status)]), "infra_error", "build unavailable", w);
      }
      return;
    }
    var phase := PhaseEv(s.bld.status, s.copy.status);
    var fwd := Forwarded(reply.items, s.copy.status, StatusOf);
    var u := Emit(Emit(s, [phase]), fwd).(bld := reply.final);
    assert Followed(s, reply) == Judged(u);
    assert s.log + [phase] + fwd == s.log + ([phase] + fwd);
    assert phase in [phase] + fwd;
    TalkInStep(s, [phase] + fwd, w);
    hide Forwarded;
    match reply.final.status
    case Ready =>
    case Unsupported => FailInStep(u, "unsupported", "unsupported", w);
    case _ => FailInStep(u, "infra_error", "build failed", w);
  }

  lemma BeginInStep(s: Sess, w: Viewer)
    requires Inv(s) && InStep(s, w) && s.pc.Beginning?
    ensures InStep(Begun(s), w)
  {
    hide Watched, NoEnd, EndsAt;
    var replay := if |s.log| <= 1 then Replayed(s.bld.log) else [];
    TalkInStep(s, replay, w);
    WatchedGrows(s.log + replay, PhaseEv(s.bld.status, S.SStarting), w);
    assert s.log + [] == s.log;
  }

  lemma RestoreInStep(s: Sess, reply: RestoreReply, w: Viewer)
    requires Inv(s) && InStep(s, w) && s.pc.Restoring?
    ensures InStep(RestoreTried(s, reply), w)
  {
    hide Watched, RebuildNotice, NoEnd, EndsAt, FailWith;
    var t := s.(attempts := s.attempts + 1);
    match reply
    case Restored(_) =>
    case Busy => FailInStep(t, "busy", "no capacity", w);
    case Lost =>
      if s.rebuilt {
        FailInStep(t, "infra_error", "could not start a sandbox", w);
      } else {
        TalkInStep(s, [RebuildNotice()], w);
      }
  }

  lemma BootInStep(s: Sess, ok: bool, returned: string, deleted: bool, w: Viewer)
    requires Inv(s) && InStep(s, w) && s.pc.Booting?
    ensures InStep(Booted(s, ok, returned, deleted), w)
  {
    hide Watched, NoEnd, EndsAt, FailWith;
    if !ok {
      var t := s.(boxes := s.boxes.(held := Some(returned)));
      FailInStep(Dropped(t, returned, deleted), "infra_error", "sandbox failed to start", w);
    }
  }

  lemma GoLiveInStep(s: Sess, url: Option<string>, w: Viewer)
    requires Inv(s) && InStep(s, w) && s.pc.Exposing?
    ensures InStep(WentLive(s, url), w)
  {
    hide Watched, NoEnd, EndsAt;
    if s.bld.web && s.bld.port > 0 && url.Some? {
      WatchedGrows(s.log, PreviewEv(url.value, s.bld.port), w);
    }
  }

  lemma AnnounceInStep(s: Sess, w: Viewer)
    requires Inv(s) && InStep(s, w) && Telling(s.pc)
    ensures InStep(Announced(s), w)
  {
    var t := Announced(s);
    if s.stored.status.SEnded? {
      assert s.late < |s.log|;
      assert Told(t) == Told(s);
    } else {
      WatchedGrows(s.log, News(s), w);
    }
    hide Watched, NoEnd, EndsAt;
  }

  lemma PollInStep(s: Sess, reply: PollReply, deleted: bool, w: Viewer)
    requires Inv(s) && InStep(s, w) && s.pc.Watching?
    ensures InStep(Polled(s, reply, deleted), w)
  {
    hide Watched, NoEnd, EndsAt, ExpiryKept;
    var t := s.(copy := s.stored);
    match reply
    case Gone => EndedInStep(Dropped(s, HeldId(s), true), "session expired", w);
    case Stopped => EndedInStep(s, "sandbox stopped", w);
    case Fine => EndedInStep(Dropped(t, HeldId(t), deleted), "session expired", w);
  }

  lemma ExtendInStep(s: Sess, keptAlive: bool, w: Viewer)
    requires Inv(s) && InStep(s, w)
    ensures InStep(ExtendTried(s, keptAlive), w)
  {
    hide Watched, NoEnd, EndsAt;
    if MayExtend(s.stored) {
      WatchedGrows(s.log, TtlEv(ExtendedExpiry(s.stored, s.now, s.limits), true), w);
    }
  }

  lemma TerminateInStep(s: Sess, reason: string, deleted: bool, w: Viewer)
    requires Inv(s) && InStep(s, w) && s.stored.status.SLive?
    ensures InStep(Terminated(s, reason, deleted), w)
  {
    hide Watched, NoEnd, EndsAt;
    WatchedGrows(s.log, EndedEv(reason), w);
  }

  lemma ActionInStep(s: Sess, a: Action, w: Viewer)
    requires Inv(s) && InStep(s, w) && Enabled(s, a)
    ensures InStep(Apply(s, a), w)
  {
    hide Watched, NoEnd, EndsAt, Followed, Begun, RestoreTried, Booted, WentLive, Announced, Polled, ExtendTried, Terminated;
    match a
    case Follow(r) => FollowInStep(s, r, w);
    case Begin => BeginInStep(s, w);
    case Restore(r) => RestoreInStep(s, r, w);
    case Rebuild(again) =>
      if again.None? {
        FailInStep(s.(rebuilds := s.rebuilds + 1), "infra_error", "rebuild failed", w);
      }
    case Boot(ok, returned, deleted) => BootInStep(s, ok, returned, deleted, w);
    case GoLive(url) => GoLiveInStep(s, url, w);
    case Announce => AnnounceInStep(s, w);
    case Poll(r, deleted) => PollInStep(s, r, deleted, w);
    case Tick(_) =>
    case Extend(ok) => ExtendInStep(s, ok, w);
    case Terminate(reason, deleted) => TerminateInStep(s, reason, deleted, w);
  }

  lemma {:induction false} RunInStep(s: Sess, acts: seq<Action>, w: Viewer)
    requires Inv(s) && InStep(s, w) && Executable(s, acts)
    ensures InStep(Exec(s, acts), w)
    decreases |acts|
  {
    hide Inv, InStep, Apply, Enabled;
    if acts != [] {
      ActionInStep(s, acts[0], w);
      ActionKeepsInv(s, acts[0]);
      RunInStep(Apply(s, acts[0]), acts[1..], w);
    }
  }

  // ------------------------------------------------------- where a page starts

  /** A page that knows nothing but a status. */
  function Blank(x: R.SessionStatus, stamp: int -> string): Viewer {
    Viewer(R.INITIAL.(sessionStatus := x), x, stamp)
  }

  lemma InitialInStep(s: Sess, x: R.SessionStatus, stamp: int -> string)
    requires Initial(s) && !x.Ended?
    ensures InStep(s, Blank(x, stamp))
  {
  }

  /** The record as the API answers it; empty strings are left out. */
  function Snapshot(r: S.Session, build: S.BuildStatus, stamp: int -> string): R.Session {
    R.Session(r.id, PageStatus(r.status), Some(PageBuild(build)),
              if r.previewUrl == "" then None else Some(r.previewUrl), r.terminalReady,
              if r.expiresAt.Some? then Some(stamp(r.expiresAt.value)) else None, r.extended,
              if r.endedReason == "" then None else Some(r.endedReason))
  }

  /** The page once it has loaded the record and before its stream opens; no status is excused. */
  function Loaded(r: S.Session, build: S.BuildStatus, stamp: int -> string): Viewer {
    Viewer(R.Reduce(R.INITIAL, R.Loaded(Snapshot(r, build, stamp))), R.Ended, stamp)
  }

  /** Whatever the page started with, an ended session's log leaves it telling the truth. */
  lemma EndedIsSeen(s: Sess, w: Viewer)
    requires EndInv(s) && s.stored.status.SEnded?
    ensures InStep(s, w)
  {
    var init := s.log[..|s.log| - 1 - s.late];
    assert Told(s) == init + [EndedEv(s.stored.endedReason)];
    WatchedGrows(init, EndedEv(s.stored.endedReason), w);
    hide Watched;
  }

  /** Two pages that start with one status end with one status, and each other field is as in the lemmas of Reducer. */
  lemma {:induction false} SameStatus(p: R.State, q: R.State, h: seq<R.Event>)
    requires R.IsHistory(h) && p.sessionStatus == q.sessionStatus
    ensures R.Fold(p, h).sessionStatus == R.Fold(q, h).sessionStatus
    decreases |h|
  {
    if h != [] {
      assert R.IsServerEvent(h[0]);
      SameStatus(R.Reduce(p, h[0]), R.Reduce(q, h[0]), h[1..]);
    }
  }

  /** A page that loads the record of a session not ended, and then its log, agrees with one that began blank. */
  lemma LoadedLikeBlank(s: Sess, build: S.BuildStatus, stamp: int -> string)
    requires Inv(s) && !s.stored.status.SEnded? && InStep(s, Blank(PageStatus(s.stored.status), stamp))
    ensures InStep(s, Loaded(s.stored, build, stamp))
  {
    var x := PageStatus(s.stored.status);
    var p, q := Blank(x, stamp).base, Loaded(s.stored, build, stamp).base;
    var h := Stream(s.log, stamp);
    SameStatus(p, q, h);
    R.FoldPlainFields(p, h);
    R.FoldPlainFields(q, h);
    R.FoldOptionalFields(p, h);
    R.FoldOptionalFields(q, h);
    R.FoldWhileOpen(p, h);
    R.FoldWhileOpen(q, h);
  }

  lemma LoadedAt(s: Sess, build: S.BuildStatus, stamp: int -> string)
    requires Inv(s)
    requires !s.stored.status.SEnded? ==> InStep(s, Blank(PageStatus(s.stored.status), stamp))
    ensures InStep(s, Loaded(s.stored, build, stamp))
  {
    hide InStep, Loaded, Blank, NoEnd, EndsAt;
    if s.stored.status.SEnded? {
      EndedIsSeen(s, Loaded(s.stored, build, stamp));
    } else {
      LoadedLikeBlank(s, build, stamp);
    }
  }

  /** At any moment, a page that loads the record and then receives the log is in step. */
  lemma LoadedNow(s0: Sess, acts: seq<Action>, build: S.BuildStatus, stamp: int -> string)
    requires Initial(s0) && Executable(s0, acts)
    ensures Inv(Exec(s0, acts)) && InStep(Exec(s0, acts), Loaded(Exec(s0, acts).stored, build, stamp))
  {
    hide InStep, Loaded, Blank, Inv, Exec, Executable, Initial;
    InitialInv(s0);
    RunKeepsInv(s0, acts);
    var s := Exec(s0, acts);
    if !s.stored.status.SEnded? {
      var x := PageStatus(s.stored.status);
      InitialInStep(s0, x, stamp);
      RunInStep(s0, acts, Blank(x, stamp));
    }
    LoadedAt(s, build, stamp);
  }

  /** And it stays so. */
  lemma LoadedInStep(s0: Sess, before: seq<Action>, after: seq<Action>, build: S.BuildStatus, stamp: int -> string)
    requires Initial(s0) && Executable(s0, before) && Executable(Exec(s0, before), after)
    ensures InStep(Exec(Exec(s0, before), after), Loaded(Exec(s0, before).stored, build, stamp))
  {
    hide Inv, InStep, Loaded;
    LoadedNow(s0, before, build, stamp);
    RunInStep(Exec(s0, before), after, Loaded(Exec(s0, before).stored, build, stamp));
  }

  /** The browser stops listening at the first ended event. */
  function Heard(log: seq<Event>): seq<Event> {
    if log == [] then [] else if log[0].EndedEv? then [log[0]] else [log[0]] + Heard(log[1..])
  }

  lemma {:induction false} HeardAll(log: seq<Event>)
    requires NoEnd(log)
    ensures Heard(log) == log
  {
    if log != [] {
      assert log[0] in log;
      HeardAll(log[1..]);
      assert log == [log[0]] + log[1..];
    }
  }

  lemma {:induction false} HeardUpToEnd(a: seq<Event>, e: Event, b: seq<Event>)
    requires NoEnd(a) && e.EndedEv?
    ensures Heard(a + [e] + b) == a + [e]
  {
    var log := a + [e] + b;
    if a == [] {
      assert log[0] == e;
    } else {
      assert a[0] in a && log[0] == a[0] && log[1..] == a[1..] + [e] + b;
      HeardUpToEnd(a[1..], e, b);
      assert a + [e] == [a[0]] + (a[1..] + [e]);
    }
  }

  lemma HeardIsTold(s: Sess)
    requires Inv(s)
    ensures Heard(s.log) == Told(s)
  {
    if s.stored.status.SEnded? {
      var k := |s.log| - 1 - s.late;
      assert s.log == s.log[..k] + [s.log[k]] + s.log[k + 1..];
      HeardUpToEnd(s.log[..k], s.log[k], s.log[k + 1..]);
      assert Told(s) == s.log[..k] + [s.log[k]];
    } else {
      HeardAll(s.log);
    }
  }

  /**
   Whatever interleaving of the run, the clock, extensions and replacement led here: a page that loaded
   the record at any earlier moment, lost any number of connections, and then received the stream of a
   connection opened while the session was listed shows an end exactly when the record is ended, with its
   reason. Until then, and once the run has announced what it stored, it shows the record's own status,
   expiry, extension and preview exactly when no extension was granted between the live store and the
   announcement of its window. Its log is the latest lines.
   */
  lemma PageTellsTheTruth(s0: Sess, acts: seq<Action>, n: nat, build: S.BuildStatus, attempts: seq<R.Attempt>,
                          stamp: int -> string)
    requires Initial(s0) && Executable(s0, acts) && n <= |acts| && Executable(s0, acts[..n])
    requires R.FitsHistory(attempts, Stream(Heard(Exec(s0, acts).log), stamp))
    ensures var s := Exec(s0, acts); var h := Stream(Heard(s.log), stamp);
      var page := R.Fold(Loaded(Exec(s0, acts[..n]).stored, build, stamp).base, R.AllAttempts(attempts, h) + [R.SseOpen] + h);
      && (Show(page).status.Ended? <==> s.stored.status.SEnded?)
      && (s.stored.status.SEnded? ==> Faithful(s, Show(page), stamp))
      && (!s.stored.status.SEnded? && !Telling(s.pc) ==> (Faithful(s, Show(page), stamp) <==> !Overtakes(s0, acts)))
      && page.logs == R.LastN(AsLines(LogLines(Heard(s.log))), R.MAX_LOG_LINES)
  {
    ExecSplit(s0, acts, n);
    hide Loaded, InStep, Inv;
    LoadedInStep(s0, acts[..n], acts[n..], build, stamp);
    InitialInv(s0);
    RunKeepsInv(s0, acts);
    OvertakenMeans(s0, acts);
    var s, w := Exec(s0, acts), Loaded(Exec(s0, acts[..n]).stored, build, stamp);
    assert w.open.Ended? && w.stamp == stamp by { LoadedOpen(Exec(s0, acts[..n]).stored, build, stamp); }
    assert s.overtaken <==> Overtakes(s0, acts);
    hide *;
    ReplayInStep(s, w, attempts);
  }

  lemma LoadedOpen(r: S.Session, build: S.BuildStatus, stamp: int -> string)
    ensures Loaded(r, build, stamp).open.Ended? && Loaded(r, build, stamp).stamp == stamp
  {
  }

  lemma FaithfulIff(s: Sess, v: Shown, w: Viewer)
    requires Inv(s) && Agrees(s, v, w) && w.open.Ended?
    ensures v.status.Ended? <==> s.stored.status.SEnded?
    ensures s.stored.status.SEnded? ==> Faithful(s, v, w.stamp)
    ensures !s.stored.status.SEnded? && !Telling(s.pc) ==> (Faithful(s, v, w.stamp) <==> !s.overtaken)
  {
    hide NoEnd, EndsAt, ExpiryKept;
  }

  lemma ReplayInStep(s: Sess, w: Viewer, attempts: seq<R.Attempt>)
    requires Inv(s) && InStep(s, w) && w.open.Ended? && R.FitsHistory(attempts, Stream(Heard(s.log), w.stamp))
    ensures var h := Stream(Heard(s.log), w.stamp);
      var page := R.Fold(w.base, R.AllAttempts(attempts, h) + [R.SseOpen] + h);
      && (Show(page).status.Ended? <==> s.stored.status.SEnded?)
      && (s.stored.status.SEnded? ==> Faithful(s, Show(page), w.stamp))
      && (!s.stored.status.SEnded? && !Telling(s.pc) ==> (Faithful(s, Show(page), w.stamp) <==> !s.overtaken))
      && page.logs == R.LastN(AsLines(LogLines(Heard(s.log))), R.MAX_LOG_LINES)
  {
    HeardIsTold(s);
    LinesShown(Heard(s.log), w.stamp);
    FaithfulIff(s, Watched(Told(s), w), w);
    var h := Stream(Heard(s.log), w.stamp);
    R.ReconnectIsIdempotent(w.base, attempts, h);
    R.FoldOpened(w.base, h);
    R.ReplayedLogs(w.base, h);
    hide LogLines, AsLines, R.Fold, R.AllAttempts, R.LogsOf, R.LastN, Heard, Inv, Faithful, Told, Agrees;
  }

  // -------------------------------------------------------- the build's status

  /** The last build status the session told: a phase's own, and ready with a preview. */
  function BuildTold(log: seq<Event>): Option<S.BuildStatus> {
    if log == [] then None
    else
      match log[|log| - 1]
      case PhaseEv(b, _) => Some(b)
      case PreviewEv(_, _) => Some(S.Ready)
      case _ => BuildTold(log[..|log| - 1])
  }

  /** The code of the last error told. */
  function ErrorTold(log: seq<Event>): Option<string> {
    if log == [] then None
    else match log[|log| - 1]
      case ErrorEv(code) => Some(code)
      case _ => ErrorTold(log[..|log| - 1])
  }

  lemma BuildToldSnoc(log: seq<Event>, e: Event)
    ensures BuildTold(log + [e]) == match e
                                    case PhaseEv(b, _) => Some(b)
                                    case PreviewEv(_, _) => Some(S.Ready)
                                    case _ => BuildTold(log)
    ensures ErrorTold(log + [e]) == if e.ErrorEv? then Some(e.code) else ErrorTold(log)
  {
    assert (log + [e])[..|log + [e]| - 1] == log;
  }

  /** No phase says that the session has ended: only an ended event does. */
  predicate PhasesOpen(log: seq<Event>) { forall e | e in log :: e.PhaseEv? ==> !e.session.SEnded? }

  /** What a page shows of the build and of errors after a log without an end, by what it showed before. */
  predicate ShowsBuild(p: R.State, log: seq<Event>, base: R.State) {
    && p.buildStatus == (if base.sessionStatus.Ended? || BuildTold(log).None? then base.buildStatus
                         else PageBuild(BuildTold(log).value))
    && (ErrorTold(log).Some? ==> p.error.Some? && p.error.value.code == ErrorTold(log).value)
    && (ErrorTold(log).None? ==> p.error == base.error)
  }

  lemma {:induction false} BuildShown(log: seq<Event>, w: Viewer)
    requires NoEnd(log) && PhasesOpen(log)
    ensures Page(log, w).sessionStatus.Ended? <==> w.base.sessionStatus.Ended?
    ensures ShowsBuild(Page(log, w), log, w.base)
  {
    if log != [] {
      var init, e := log[..|log| - 1], log[|log| - 1];
      assert log == init + [e] && e in log;
      BuildShown(init, w);
      PageGrowsByOne(init, e, w);
      BuildToldSnoc(init, e);
      if e.PhaseEv? {
        NamesAreKnown(e.session);
        BuildNamesAreKnown(e.build);
        StatusesMatch(e.session);
      }
      hide Page, R.AsSessionStatus, R.AsBuildStatus, SessionName, BuildName, PageBuild, PageStatus, BuildTold, ErrorTold;
    }
  }

  /** An end changes neither. */
  lemma EndKeepsBuild(log: seq<Event>, reason: string, w: Viewer)
    requires NoEnd(log) && PhasesOpen(log)
    ensures ShowsBuild(Page(log + [EndedEv(reason)], w), log + [EndedEv(reason)], w.base)
  {
    BuildShown(log, w);
    PageGrowsByOne(log, EndedEv(reason), w);
    BuildToldSnoc(log, EndedEv(reason));
    hide Page, BuildTold, ErrorTold, PageBuild;
  }

  predicate HasBegun(pc: Pc) { pc.Restoring? || pc.Booting? || pc.Exposing? || OnAir(pc) }

  /**
   The build a run has been let through by is ready. A session that is starting has said so, and so has a
   watched one even if the build had to be replaced.
   */
  predicate BuildInv(s: Sess) {
    && PhasesOpen(s.log)
    && (s.pc.Beginning? || s.pc.Restoring? || s.pc.Booting? || s.pc.Exposing? || OnAir(s.pc) ==> s.bld.status.Ready?)
    && (s.pc.Watching? || (!s.rebuilt && HasBegun(s.pc)) ==> BuildTold(s.log) == Some(S.Ready))
  }

  lemma PhasesOpenConcat(a: seq<Event>, b: seq<Event>)
    requires PhasesOpen(a) && PhasesOpen(b)
    ensures PhasesOpen(a + b)
  {
  }

  lemma EndedKeepsBuild(s: Sess, reason: string)
    requires PhasesOpen(s.log)
    ensures BuildInv(Ended(s, reason))
  {
    PhasesOpenConcat(s.log, [EndedEv(reason)]);
  }

  lemma FailKeepsBuild(s: Sess, code: string, reason: string)
    requires BuildInv(s) || PhasesOpen(s.log)
    ensures BuildInv(FailWith(s, code, reason))
  {
    PhasesOpenConcat(s.log, [ErrorEv(code)]);
    EndedKeepsBuild(Emit(s, [ErrorEv(code)]), reason);
  }

  lemma FollowKeepsBuild(s: Sess, reply: FollowReply)
    requires Inv(s) && BuildInv(s) && Enabled(s, Follow(reply))
    ensures BuildInv(Followed(s, reply))
  {
    if !s.bld.status.Ready? {
      var phase := PhaseEv(s.bld.status, s.copy.status);
      var t := Emit(s, [phase]);
      PhasesOpenConcat(s.log, [phase]);
      match reply
      case Unavailable => FailKeepsBuild(t, "infra_error", "build unavailable");
      case Streamed(items, final) =>
        var fwd := Forwarded(items, s.copy.status, StatusOf);
        assert PhasesOpen(fwd);
        PhasesOpenConcat(t.log, fwd);
        var u := Emit(t, fwd).(bld := final);
        FailKeepsBuild(u, "unsupported", "unsupported");
        FailKeepsBuild(u, "infra_error", "build failed");
        hide PhasesOpen, FailWith, Forwarded, NoEnd, EndsAt;
    }
  }

  lemma BeginKeepsBuild(s: Sess)
    requires BuildInv(s) && s.pc.Beginning?
    ensures BuildInv(Begun(s))
  {
    BuildToldSnoc(if |s.log| <= 1 then s.log + Replayed(s.bld.log) else s.log, PhaseEv(s.bld.status, S.SStarting));
    assert PhasesOpen(Replayed(s.bld.log));
    PhasesOpenConcat(s.log, Replayed(s.bld.log));
    var t := if |s.log| <= 1 then Emit(s, Replayed(s.bld.log)) else s;
    PhasesOpenConcat(t.log, [PhaseEv(s.bld.status, S.SStarting)]);
    hide PhasesOpen, Replayed;
  }

  lemma RestoreKeepsBuild(s: Sess, reply: RestoreReply)
    requires BuildInv(s) && s.pc.Restoring?
    ensures BuildInv(RestoreTried(s, reply))
  {
    hide BuildInv, FailWith, SnapshotLost, Adopted;
    var t := s.(attempts := s.attempts + 1);
    TryKeepsBuild(s);
    match reply
    case Restored(id) => AdoptKeepsBuild(t, id);
    case Busy => FailKeepsBuild(t, "busy", "no capacity");
    case Lost => LossKeepsBuild(t);
  }

  lemma TryKeepsBuild(s: Sess)
    requires BuildInv(s)
    ensures BuildInv(s.(attempts := s.attempts + 1))
  {
    hide PhasesOpen, BuildTold;
  }

  lemma AdoptKeepsBuild(s: Sess, id: string)
    requires BuildInv(s) && s.pc.Restoring?
    ensures BuildInv(Adopted(s, id))
  {
    hide PhasesOpen;
  }

  lemma LossKeepsBuild(s: Sess)
    requires BuildInv(s) && s.pc.Restoring?
    ensures BuildInv(SnapshotLost(s))
  {
    FailKeepsBuild(s, "infra_error", "could not start a sandbox");
    PhasesOpenConcat(s.log, [RebuildNotice()]);
    hide PhasesOpen, FailWith, RebuildNotice;
  }

  lemma BootKeepsBuild(s: Sess, ok: bool, returned: string, deleted: bool)
    requires BuildInv(s) && s.pc.Booting?
    ensures BuildInv(Booted(s, ok, returned, deleted))
  {
    var t := s.(boxes := s.boxes.(held := Some(returned)));
    FailKeepsBuild(Dropped(t, returned, deleted), "infra_error", "sandbox failed to start");
    hide PhasesOpen, FailWith;
  }

  lemma GoLiveKeepsBuild(s: Sess, url: Option<string>)
    requires BuildInv(s) && s.pc.Exposing?
    ensures BuildInv(WentLive(s, url))
  {
    PhasesOpenConcat(s.log, [PreviewEv(url.GetOr(""), s.bld.port)]);
    BuildToldSnoc(s.log, PreviewEv(url.GetOr(""), s.bld.port));
    hide PhasesOpen, BuildTold;
  }

  lemma AnnounceKeepsBuild(s: Sess)
    requires Inv(s) && BuildInv(s) && Telling(s.pc)
    ensures BuildInv(Announced(s))
  {
    PhasesOpenConcat(s.log, [News(s)]);
    BuildToldSnoc(s.log, News(s));
    hide PhasesOpen, BuildTold, NoEnd, EndsAt, ExpiryKept;
  }

  lemma PollKeepsBuild(s: Sess, reply: PollReply, deleted: bool)
    requires BuildInv(s) && s.pc.Watching?
    ensures BuildInv(Polled(s, reply, deleted))
  {
    var t := s.(copy := s.stored);
    EndedKeepsBuild(Dropped(s, HeldId(s), true), "session expired");
    EndedKeepsBuild(s, "sandbox stopped");
    EndedKeepsBuild(Dropped(t, HeldId(t), deleted), "session expired");
    hide PhasesOpen, BuildTold, Ended;
  }

  lemma ExtendKeepsBuild(s: Sess, keptAlive: bool)
    requires BuildInv(s)
    ensures BuildInv(ExtendTried(s, keptAlive))
  {
    var ttl := TtlEv(ExtendedExpiry(s.stored, s.now, s.limits), true);
    PhasesOpenConcat(s.log, [ttl]);
    BuildToldSnoc(s.log, ttl);
    hide PhasesOpen, BuildTold;
  }

  lemma TerminateKeepsBuild(s: Sess, reason: string, deleted: bool)
    requires BuildInv(s)
    ensures BuildInv(Terminated(s, reason, deleted))
  {
    PhasesOpenConcat(s.log, [EndedEv(reason)]);
    BuildToldSnoc(s.log, EndedEv(reason));
    hide PhasesOpen, BuildTold;
  }

  lemma ActionKeepsBuild(s: Sess, a: Action)
    requires Inv(s) && BuildInv(s) && Enabled(s, a)
    ensures BuildInv(Apply(s, a))
  {
    hide Inv, BuildInv, Followed, Begun, RestoreTried, Booted, WentLive, Announced, Polled, ExtendTried, Terminated;
    match a
    case Follow(r) => FollowKeepsBuild(s, r);
    case Begin => BeginKeepsBuild(s);
    case Restore(r) => RestoreKeepsBuild(s, r);
    case Rebuild(again) => RebuildKeepsBuild(s, again);
    case Boot(ok, returned, deleted) => BootKeepsBuild(s, ok, returned, deleted);
    case GoLive(url) => GoLiveKeepsBuild(s, url);
    case Announce => AnnounceKeepsBuild(s);
    case Poll(r, deleted) => PollKeepsBuild(s, r, deleted);
    case Tick(d) => TickKeepsBuild(s, d);
    case Extend(ok) => ExtendKeepsBuild(s, ok);
    case Terminate(reason, deleted) => TerminateKeepsBuild(s, reason, deleted);
  }

  lemma RebuildKeepsBuild(s: Sess, again: Option<BuildView>)
    requires BuildInv(s) && s.pc.Rebuilding?
    ensures BuildInv(Rebuilt(s, again))
  {
    FailKeepsBuild(s.(rebuilds := s.rebuilds + 1), "infra_error", "rebuild failed");
    hide PhasesOpen, FailWith;
  }

  lemma TickKeepsBuild(s: Sess, d: nat)
    requires BuildInv(s)
    ensures BuildInv(s.(now := s.now + d))
  {
  }

  lemma {:induction false} RunKeepsBuild(s: Sess, acts: seq<Action>)
    requires Inv(s) && BuildInv(s) && Executable(s, acts)
    ensures BuildInv(Exec(s, acts))
    decreases |acts|
  {
    hide Inv, BuildInv, Apply, Enabled;
    if acts != [] {
      ActionKeepsBuild(s, acts[0]);
      ActionKeepsInv(s, acts[0]);
      RunKeepsBuild(Apply(s, acts[0]), acts[1..]);
    }
  }

  /** The last status a build's stream reports. */
  function LastStatus(items: seq<B.Event>): Option<string> {
    if items == [] then None
    else
      match items[|items| - 1]
      case Status(st) => Some(st)
      case Log(_) => LastStatus(items[..|items| - 1])
  }

  lemma {:induction false} ForwardedTells(log: seq<Event>, items: seq<B.Event>, st: S.SessionStatus)
    ensures BuildTold(log + Forwarded(items, st, StatusOf)) ==
            if LastStatus(items).Some? then Some(StatusOf(LastStatus(items).value)) else BuildTold(log)
    decreases |items|
  {
    var fwd := Forwarded(items, st, StatusOf);
    if items == [] {
      assert log + fwd == log;
    } else {
      var init, last := items[..|items| - 1], items[|items| - 1];
      assert log + fwd == (log + Forwarded(init, st, StatusOf)) + [fwd[|items| - 1]];
      ForwardedTells(log, init, st);
      BuildToldSnoc(log + Forwarded(init, st, StatusOf), fwd[|items| - 1]);
      hide StatusOf;
    }
  }

  /**
   Following an unsettled build tells the status of its record first, and then each status its stream
   reports: the last one told is the stream's last, or the record's if it reported none.
   */
  lemma FollowTellsStatus(s: Sess, reply: FollowReply)
    requires Inv(s) && Enabled(s, Follow(reply)) && !s.bld.status.Ready?
    ensures BuildTold(Followed(s, reply).log) ==
            if reply.Streamed? && LastStatus(reply.items).Some? then Some(StatusOf(LastStatus(reply.items).value))
            else Some(s.bld.status)
  {
    hide FailWith, Forwarded, BuildTold, LastStatus, StatusOf, Inv;
    var phase := PhaseEv(s.bld.status, s.copy.status);
    var t := Emit(s, [phase]);
    BuildToldSnoc(s.log, phase);
    match reply
    case Unavailable => FailTellsNoStatus(t, "infra_error", "build unavailable");
    case Streamed(items, final) =>
      var u := Emit(t, Forwarded(items, s.copy.status, StatusOf)).(bld := final);
      ForwardedTells(t.log, items, s.copy.status);
      FailTellsNoStatus(u, "unsupported", "unsupported");
      FailTellsNoStatus(u, "infra_error", "build failed");
  }

  lemma FailTellsNoStatus(s: Sess, code: string, reason: string)
    ensures BuildTold(FailWith(s, code, reason).log) == BuildTold(s.log)
  {
    BuildToldSnoc(s.log, ErrorEv(code));
    BuildToldSnoc(s.log + [ErrorEv(code)], EndedEv(reason));
    hide BuildTold;
  }

  lemma HeardShowsBuild(s: Sess, w: Viewer)
    requires Inv(s) && PhasesOpen(s.log)
    ensures ShowsBuild(Page(Heard(s.log), w), Heard(s.log), w.base)
  {
    HeardIsTold(s);
    if s.stored.status.SEnded? {
      var k := |s.log| - 1 - s.late;
      assert Told(s) == s.log[..k] + [EndedEv(s.stored.endedReason)];
      EndKeepsBuild(s.log[..k], s.stored.endedReason, w);
    } else {
      BuildShown(s.log, w);
    }
  }

  /**
   Whatever interleaving led here, and through any reconnects, a page that loaded the record at any earlier
   moment shows the build in the last status the session told before its end, ready after a preview; or
   the one it loaded if it has been told none or had loaded an ended session. Its error is the last one told. While the
   session is starting, short of a rebuild, and while it is watched, the page shows the build as ready, and so it is.
   */
  lemma PageShowsTheBuild(s0: Sess, acts: seq<Action>, n: nat, build: S.BuildStatus, attempts: seq<R.Attempt>,
                          stamp: int -> string)
    requires Initial(s0) && Executable(s0, acts) && n <= |acts| && Executable(s0, acts[..n])
    requires R.FitsHistory(attempts, Stream(Heard(Exec(s0, acts).log), stamp))
    ensures var s := Exec(s0, acts); var h := Stream(Heard(s.log), stamp);
      var loaded := Exec(s0, acts[..n]).stored;
      var page := R.Fold(Loaded(loaded, build, stamp).base, R.AllAttempts(attempts, h) + [R.SseOpen] + h);
      && page.buildStatus == (if loaded.status.SEnded? then PageBuild(build)
                              else PageBuild(BuildTold(Heard(s.log)).GetOr(build)))
      && (ErrorTold(Heard(s.log)).Some? ==> page.error.Some? && page.error.value.code == ErrorTold(Heard(s.log)).value)
      && (ErrorTold(Heard(s.log)).None? ==> page.error.None?)
      && ((s.pc.Watching? || (!s.rebuilt && HasBegun(s.pc))) && !s.stored.status.SEnded? ==>
            s.bld.status.Ready? && page.buildStatus.Ready?)
  {
    BuildReached(s0, acts, n);
    var s, r := Exec(s0, acts), Exec(s0, acts[..n]).stored;
    hide *;
    ReplayShowsBuild(s, r, build, attempts, stamp);
  }

  lemma BuildReached(s0: Sess, acts: seq<Action>, n: nat)
    requires Initial(s0) && Executable(s0, acts) && n <= |acts| && Executable(s0, acts[..n])
    ensures Inv(Exec(s0, acts)) && BuildInv(Exec(s0, acts))
    ensures Exec(s0, acts[..n]).stored.status.SEnded? ==> Exec(s0, acts).stored.status.SEnded?
  {
    InitialInv(s0);
    assert BuildInv(s0);
    hide Initial, Inv, BuildInv, Exec, Executable;
    RunKeepsInv(s0, acts);
    RunKeepsBuild(s0, acts);
    ExecSplit(s0, acts, n);
    RunKeepsInv(s0, acts[..n]);
    StatusNeverRegresses(Exec(s0, acts[..n]), acts[n..]);
  }

  lemma LoadedBase(r: S.Session, build: S.BuildStatus, stamp: int -> string)
    ensures var p := Loaded(r, build, stamp).base;
      && (p.sessionStatus.Ended? <==> r.status.SEnded?) && p.buildStatus == PageBuild(build) && p.error.None?
  {
  }

  lemma ReplayShowsBuild(s: Sess, r: S.Session, build: S.BuildStatus, attempts: seq<R.Attempt>, stamp: int -> string)
    requires Inv(s) && BuildInv(s) && R.FitsHistory(attempts, Stream(Heard(s.log), stamp))
    requires s.stored.status.SEnded? || !r.status.SEnded?
    ensures var h := Stream(Heard(s.log), stamp);
      var page := R.Fold(Loaded(r, build, stamp).base, R.AllAttempts(attempts, h) + [R.SseOpen] + h);
      && page.buildStatus == (if r.status.SEnded? then PageBuild(build)
                              else PageBuild(BuildTold(Heard(s.log)).GetOr(build)))
      && (ErrorTold(Heard(s.log)).Some? ==> page.error.Some? && page.error.value.code == ErrorTold(Heard(s.log)).value)
      && (ErrorTold(Heard(s.log)).None? ==> page.error.None?)
      && ((s.pc.Watching? || (!s.rebuilt && HasBegun(s.pc))) && !s.stored.status.SEnded? ==>
            s.bld.status.Ready? && page.buildStatus.Ready?)
  {
    var w := Loaded(r, build, stamp);
    var h := Stream(Heard(s.log), stamp);
    LoadedBase(r, build, stamp);
    assert w.stamp == stamp by { LoadedOpen(r, build, stamp); }
    HeardShowsBuild(s, w);
    if !s.stored.status.SEnded? {
      HeardIsTold(s);
      BuildNamesAreKnown(S.Ready);
    }
    R.ReconnectIsIdempotent(w.base, attempts, h);
    R.FoldOpened(w.base, h);
    hide R.Fold, R.AllAttempts, Heard, Inv, BuildTold, ErrorTold, Loaded, PageBuild;
  }

  /**
   A connection opened once the session is no longer listed is served the stored build log and one ended
   event, and no session is unlisted before it has ended. Whatever the page showed before, it then shows
   the end with its reason, the last lines of the stored log, and the build's failure, if that was why.
   */
  lemma LatePageTellsTheTruth(s0: Sess, acts: seq<Action>, bld: Option<BuildView>, p: R.State, stamp: int -> string)
    requires Initial(s0) && Executable(s0, acts) && !Exec(s0, acts).listed
    ensures var s := Exec(s0, acts);
      s.stored.status.SEnded? && ShowsLate(R.Fold(p, [R.SseOpen] + Stream(LateStory(bld, s.stored), stamp)), p, bld, s.stored)
  {
    InitialInv(s0);
    RunKeepsInv(s0, acts);
    var s := Exec(s0, acts);
    assert s.stored.status.SEnded?;
    hide *;
    LateStream(bld, s.stored, p, stamp);
  }

  /** What a page shows once it has been served the story of a session no longer listed. */
  predicate ShowsLate(page: R.State, before: R.State, bld: Option<BuildView>, r: S.Session) {
    && page.sessionStatus.Ended? && !page.terminalReady
    && page.endedReason == Some(if r.endedReason == "" then "server restarted" else r.endedReason)
    && page.logs == R.LastN(if bld.Some? then AsLines(B.Parse(bld.value.log, B.SplitPhase)) else [], R.MAX_LOG_LINES)
    && page.error == (if bld.Some? && bld.value.status.Unsupported? then Some(R.ErrorInfo("unsupported", ""))
                      else if bld.Some? && bld.value.status.Failed? then Some(R.ErrorInfo("infra_error", ""))
                      else before.error)
  }

  /** Lines as the page shows them. */
  function AsLines(es: seq<B.Tagged>): (lines: seq<R.LogLine>)
    ensures |lines| == |es|
  {
    seq(|es|, i requires 0 <= i < |es| => R.LogLine("", es[i].phase, es[i].line))
  }

  /** A stream's lines are those of its log. */
  lemma {:induction false} LinesShown(log: seq<Event>, stamp: int -> string)
    ensures R.LogsOf(Stream(log, stamp)) == AsLines(LogLines(log))
    decreases |log|
  {
    if log != [] {
      var init, e := log[..|log| - 1], log[|log| - 1];
      LinesShown(init, stamp);
      assert Stream(log, stamp) == Stream(init, stamp) + [Wire(e, stamp)];
      R.LogsSnoc(Stream(init, stamp), Wire(e, stamp));
      if e.LogEv? {
        AsLinesSnoc(LogLines(init), e.entry);
      }
    }
  }

  lemma AsLinesSnoc(es: seq<B.Tagged>, e: B.Tagged)
    ensures AsLines(es + [e]) == AsLines(es) + [R.LogLine("", e.phase, e.line)]
  {
  }

  /** A replay shows no error. */
  lemma {:induction false} ReplayIsCalm(log: seq<Event>, w: Viewer)
    requires forall e | e in log :: e.LogEv?
    ensures Page(log, w).error == w.base.error
    decreases |log|
  {
    if log != [] {
      var init, e := log[..|log| - 1], log[|log| - 1];
      assert log == init + [e] && e in log;
      ReplayIsCalm(init, w);
      PageGrowsByOne(init, e, w);
      hide Page;
    }
  }

  lemma ReplayedIsLines(text: string)
    ensures forall e | e in Replayed(text) :: e.LogEv?
  {
    hide B.Parse;
  }

  lemma ErrorShown(log: seq<Event>, code: string, w: Viewer)
    ensures Page(log + [ErrorEv(code)], w).error == Some(R.ErrorInfo(code, ""))
    ensures LogLines(log + [ErrorEv(code)]) == LogLines(log)
  {
    PageGrowsByOne(log, ErrorEv(code), w);
    OneMoreTold(log, ErrorEv(code));
    hide Page, LogLines;
  }

  lemma LateBuildShown(bld: Option<BuildView>, w: Viewer)
    ensures Page(LateBuild(bld), w).error ==
            if bld.Some? && bld.value.status.Unsupported? then Some(R.ErrorInfo("unsupported", ""))
            else if bld.Some? && bld.value.status.Failed? then Some(R.ErrorInfo("infra_error", ""))
            else w.base.error
    ensures LogLines(LateBuild(bld)) == if bld.Some? then B.Parse(bld.value.log, B.SplitPhase) else []
  {
    hide Page, B.Parse, LogLines, Replayed;
    if bld.Some? {
      var replay := Replayed(bld.value.log);
      ReplayedStory(bld.value.log);
      ReplayedIsLines(bld.value.log);
      ReplayIsCalm(replay, w);
      ErrorShown(replay, "unsupported", w);
      ErrorShown(replay, "infra_error", w);
      assert replay + [] == replay;
    } else {
      ReplayIsCalm([], w);
      LinesOfEvents([], []);
    }
  }

  lemma LateEnds(q: R.State, reason: string, stamp: int -> string)
    ensures var t := R.Reduce(q, Wire(EndedEv(reason), stamp));
      t.sessionStatus.Ended? && !t.terminalReady && t.endedReason == Some(reason) && t.error == q.error
  {
  }

  lemma LateLines(bld: Option<BuildView>, r: S.Session, w: Viewer)
    ensures LogLines(LateStory(bld, r)) == if bld.Some? then B.Parse(bld.value.log, B.SplitPhase) else []
  {
    hide B.Parse, LateBuild, LogLines, Page;
    LateBuildShown(bld, w);
    OneMoreTold(LateBuild(bld), EndedEv(ToldReason(r)));
  }

  lemma LateLogs(bld: Option<BuildView>, r: S.Session, p: R.State, stamp: int -> string)
    ensures R.Fold(p, [R.SseOpen] + Stream(LateStory(bld, r), stamp)).logs ==
            R.LastN(if bld.Some? then AsLines(B.Parse(bld.value.log, B.SplitPhase)) else [], R.MAX_LOG_LINES)
  {
    assert AsLines([]) == [];
    hide *;
    LateLines(bld, r, Viewer(p, R.Ended, stamp));
    LinesShown(LateStory(bld, r), stamp);
    R.ReplayedLogs(p, Stream(LateStory(bld, r), stamp));
  }

  lemma LateStream(bld: Option<BuildView>, r: S.Session, p: R.State, stamp: int -> string)
    ensures ShowsLate(R.Fold(p, [R.SseOpen] + Stream(LateStory(bld, r), stamp)), p, bld, r)
  {
    var h := Stream(LateStory(bld, r), stamp);
    var w := Viewer(p, R.Ended, stamp);
    assert Page(LateStory(bld, r), w) == R.Fold(p, h);
    hide R.Fold, R.LogsOf, R.LastN, LateBuild, AsLines, LogLines, B.Parse, Page, Stream, R.Reduce, Wire;
    LateLogs(bld, r, p, stamp);
    R.FoldOpened(p, h);
    LateBuildShown(bld, w);
    PageGrowsByOne(LateBuild(bld), EndedEv(ToldReason(r)), w);
    LateEnds(Page(LateBuild(bld), w), ToldReason(r), stamp);
  }
}
