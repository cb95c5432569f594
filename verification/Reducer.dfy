/**
 The browser's fold of a session's event stream. The server replays the whole history on every
 connect, so the fold has to give the same state however often it is cut off and replayed.
 */
module Reducer {
  import opened Wrappers

  const MAX_LOG_LINES := 2000

  datatype SessionStatus = Pending | Building | Starting | Live | Ended
  datatype BuildStatus = Queued | InBuild | Ready | Failed | Unsupported
  datatype Connection = Idle | Open | Reconnecting

  datatype LogLine = LogLine(ts: string, phase: string, line: string)
  datatype ErrorInfo = ErrorInfo(code: string, message: string)

  /** The REST snapshot of a session; absent JSON fields are None. */
  datatype Session = Session(id: string, status: SessionStatus, build: Option<BuildStatus>, previewUrl: Option<string>,
                             terminalReady: bool, expiresAt: Option<string>, extended: bool, endedReason: Option<string>)

  datatype State = State(session: Option<Session>, sessionStatus: SessionStatus, buildStatus: BuildStatus,
                         phaseMessage: string, logs: seq<LogLine>, previewUrl: Option<string>, previewPort: Option<int>,
                         terminalReady: bool, expiresAt: Option<string>, extended: bool, endedReason: Option<string>,
                         error: Option<ErrorInfo>, connection: Connection)

  datatype Event =
    // server events
    | LogEv(data: LogLine)
    | PhaseEv(build: string, session: string, message: string)
    | PreviewEv(url: string, port: int)
    | TerminalEv(ready: bool)
    | TtlEv(expires: string, wasExtended: bool)
    | EndedEv(reason: string)
    | ErrorEv(info: ErrorInfo)
    // local events
    | Loaded(snapshot: Session)
    | ExtendedLocally(until: string)
    | SseOpen
    | SseError
    | Reset

  const INITIAL := State(None, Pending, Queued, "", [], None, None, false, None, false, None, None, Idle)

  function OrElse<T>(a: Option<T>, b: Option<T>): Option<T> { if a.Some? then a else b }

  function AsSessionStatus(s: string): Option<SessionStatus> {
    match s
    case "pending" => Some(Pending)
    case "building" => Some(Building)
    case "starting" => Some(Starting)
    case "live" => Some(Live)
    case "ended" => Some(Ended)
    case _ => None
  }

  function AsBuildStatus(s: string): Option<BuildStatus> {
    match s
    case "queued" => Some(Queued)
    case "building" => Some(InBuild)
    case "ready" => Some(Ready)
    case "failed" => Some(Failed)
    case "unsupported" => Some(Unsupported)
    case _ => None
  }

  /** Exactly the five names are known, and each by one status. */
  lemma NamesKnown(s: string)
    ensures AsBuildStatus(s).Some? <==> s in ["queued", "building", "ready", "failed", "unsupported"]
    ensures AsSessionStatus(s).Some? <==> s in ["pending", "building", "starting", "live", "ended"]
    ensures AsBuildStatus("queued") == Some(Queued) && AsBuildStatus("building") == Some(InBuild)
    ensures AsBuildStatus("ready") == Some(Ready) && AsBuildStatus("failed") == Some(Failed)
    ensures AsBuildStatus("unsupported") == Some(Unsupported)
    ensures AsSessionStatus("pending") == Some(Pending) && AsSessionStatus("building") == Some(Building)
    ensures AsSessionStatus("starting") == Some(Starting) && AsSessionStatus("live") == Some(Live)
    ensures AsSessionStatus("ended") == Some(Ended)
  {
  }

  function Reduce(st: State, ev: Event): State {
    match ev
    case Loaded(s) =>
      st.(session := Some(s),
          sessionStatus := s.status,
          buildStatus := s.build.GetOr(st.buildStatus),
          previewUrl := OrElse(s.previewUrl, st.previewUrl),
          terminalReady := s.terminalReady || st.terminalReady,
          expiresAt := OrElse(s.expiresAt, st.expiresAt),
          extended := s.extended || st.extended,
          endedReason := OrElse(s.endedReason, st.endedReason))
    case LogEv(l) =>
      st.(logs := (if |st.logs| >= MAX_LOG_LINES then st.logs[|st.logs| - MAX_LOG_LINES + 1..] else st.logs) + [l])
    case PhaseEv(b, s, m) =>
      if st.sessionStatus.Ended? then st.(phaseMessage := m)
      else st.(phaseMessage := m,
               buildStatus := AsBuildStatus(b).GetOr(st.buildStatus),
               sessionStatus := AsSessionStatus(s).GetOr(st.sessionStatus))
    case PreviewEv(u, p) =>
      if st.sessionStatus.Ended? then st
      else st.(previewUrl := Some(u), previewPort := Some(p), buildStatus := Ready, sessionStatus := Live)
    case TerminalEv(r) => st.(terminalReady := r)
    case TtlEv(e, x) => st.(expiresAt := Some(e), extended := x)
    case ExtendedLocally(e) => st.(expiresAt := Some(e), extended := true)
    case EndedEv(r) => st.(sessionStatus := Ended, endedReason := Some(r), terminalReady := false)
    case ErrorEv(i) => st.(error := Some(i))
    case SseOpen => st.(connection := Open, logs := [])
    case SseError => st.(connection := Reconnecting)
    case Reset => INITIAL
  }

  function Fold(st: State, evs: seq<Event>): State
    decreases |evs|
  {
    if evs == [] then st else Fold(Reduce(st, evs[0]), evs[1..])
  }

  predicate IsServerEvent(e: Event) {
    e.LogEv? || e.PhaseEv? || e.PreviewEv? || e.TerminalEv? || e.TtlEv? || e.EndedEv? || e.ErrorEv?
  }

  predicate IsHistory(h: seq<Event>) { forall e | e in h :: IsServerEvent(e) }

  lemma {:induction false} FoldConcat(st: State, a: seq<Event>, b: seq<Event>)
    ensures Fold(st, a + b) == Fold(Fold(st, a), b)
    decreases |a|
  {
    if a == [] {
      assert a + b == b;
    } else {
      assert (a + b)[1..] == a[1..] + b;
      FoldConcat(Reduce(st, a[0]), a[1..], b);
    }
  }

  // ------------------------------------------------ the last writer of a field

  /** The value the last event of h gives a field, where w says what each event writes to it. */
  function Last<V>(h: seq<Event>, w: Event -> Option<V>): Option<V> {
    if h == [] then None else OrElse(Last(h[1..], w), w(h[0]))
  }

  function MessageOf(e: Event): Option<string> { if e.PhaseEv? then Some(e.message) else None }

  function TerminalOf(e: Event): Option<bool> {
    if e.TerminalEv? then Some(e.ready) else if e.EndedEv? then Some(false) else None
  }

  function TtlOf(e: Event): Option<(string, bool)> { if e.TtlEv? then Some((e.expires, e.wasExtended)) else None }

  function ReasonOf(e: Event): Option<string> { if e.EndedEv? then Some(e.reason) else None }

  function ErrorOf(e: Event): Option<ErrorInfo> { if e.ErrorEv? then Some(e.info) else None }

  function StatusOf(e: Event): Option<SessionStatus> {
    if e.PhaseEv? then AsSessionStatus(e.session)
    else if e.PreviewEv? then Some(Live)
    else if e.EndedEv? then Some(Ended)
    else None
  }

  function BuildOf(e: Event): Option<BuildStatus> {
    if e.PhaseEv? then AsBuildStatus(e.build) else if e.PreviewEv? then Some(Ready) else None
  }

  function PreviewOf(e: Event): Option<(string, int)> { if e.PreviewEv? then Some((e.url, e.port)) else None }

  /** The fields an ended session no longer changes. */
  function Frozen(st: State): (BuildStatus, Option<string>, Option<int>) {
    (st.buildStatus, st.previewUrl, st.previewPort)
  }

  /** Once ended, a history leaves the status, build and preview as they were. */
  lemma {:induction false} FoldFromEnded(st: State, h: seq<Event>)
    requires IsHistory(h) && st.sessionStatus.Ended?
    ensures Fold(st, h).sessionStatus.Ended? && Frozen(Fold(st, h)) == Frozen(st)
    decreases |h|
  {
    if h != [] {
      assert IsServerEvent(h[0]);
      FoldFromEnded(Reduce(st, h[0]), h[1..]);
    }
  }

  /** A fold ends exactly when it started ended or some event of the history says so. */
  lemma {:induction false} FoldEnds(st: State, h: seq<Event>)
    requires IsHistory(h)
    ensures Fold(st, h).sessionStatus.Ended? <==> st.sessionStatus.Ended? || exists e | e in h :: StatusOf(e) == Some(Ended)
    decreases |h|
  {
    if h != [] {
      assert IsServerEvent(h[0]);
      FoldEnds(Reduce(st, h[0]), h[1..]);
      assert forall e :: e in h <==> e == h[0] || e in h[1..];
      assert Reduce(st, h[0]).sessionStatus.Ended? <==> st.sessionStatus.Ended? || StatusOf(h[0]) == Some(Ended);
    }
  }

  /** While not ended, status, build and preview are those of the last event that names a known one. */
  lemma {:induction false} FoldWhileOpen(st: State, h: seq<Event>)
    requires IsHistory(h) && !Fold(st, h).sessionStatus.Ended?
    ensures Fold(st, h).sessionStatus == Last(h, StatusOf).GetOr(st.sessionStatus)
    ensures Fold(st, h).buildStatus == Last(h, BuildOf).GetOr(st.buildStatus)
    ensures match Last(h, PreviewOf)
            case Some(v) => Fold(st, h).previewUrl == Some(v.0) && Fold(st, h).previewPort == Some(v.1)
            case None => Fold(st, h).previewUrl == st.previewUrl && Fold(st, h).previewPort == st.previewPort
    decreases |h|
  {
    if h != [] {
      assert IsServerEvent(h[0]);
      FoldEnds(st, h);
      FoldWhileOpen(Reduce(st, h[0]), h[1..]);
    }
  }

  /** Every other field is simply its last writer's. */
  lemma {:induction false} FoldPlainFields(st: State, h: seq<Event>)
    requires IsHistory(h)
    ensures Fold(st, h).phaseMessage == Last(h, MessageOf).GetOr(st.phaseMessage)
    ensures Fold(st, h).terminalReady == Last(h, TerminalOf).GetOr(st.terminalReady)
    ensures match Last(h, TtlOf)
            case Some(v) => Fold(st, h).expiresAt == Some(v.0) && Fold(st, h).extended == v.1
            case None => Fold(st, h).expiresAt == st.expiresAt && Fold(st, h).extended == st.extended
    decreases |h|
  {
    if h != [] {
      assert IsServerEvent(h[0]);
      FoldPlainFields(Reduce(st, h[0]), h[1..]);
    }
  }

  lemma {:induction false} FoldOptionalFields(st: State, h: seq<Event>)
    requires IsHistory(h)
    ensures Fold(st, h).endedReason == OrElse(Last(h, ReasonOf), st.endedReason)
    ensures Fold(st, h).error == OrElse(Last(h, ErrorOf), st.error)
    ensures Fold(st, h).session == st.session && Fold(st, h).connection == st.connection
    decreases |h|
  {
    if h != [] {
      assert IsServerEvent(h[0]);
      FoldOptionalFields(Reduce(st, h[0]), h[1..]);
    }
  }

  /** What an extension the visitor asked for shows is what the server then tells; an error shows only a lost connection. */
  lemma LocalEvents(st: State, until: string)
    ensures Reduce(st, ExtendedLocally(until)) == Reduce(st, TtlEv(until, true))
    ensures Reduce(st, SseError).connection.Reconnecting? && Reduce(st, SseOpen).connection.Open?
    ensures Reduce(st, SseError) == st.(connection := Reconnecting) && Reduce(st, Reset) == INITIAL
  {
  }

  /** What a single event of an open session shows at once. */
  lemma ServerEvents(st: State, message: string, url: string, port: int, info: ErrorInfo, line: LogLine)
    requires !st.sessionStatus.Ended?
    ensures forall b, s :: Reduce(st, PhaseEv(b, s, message)).phaseMessage == message
    ensures var t := Reduce(st, PreviewEv(url, port));
      t.previewUrl == Some(url) && t.previewPort == Some(port) && t.buildStatus.Ready? && t.sessionStatus.Live?
    ensures Reduce(st, ErrorEv(info)).error == Some(info) && Reduce(st, ErrorEv(info)).sessionStatus == st.sessionStatus
    ensures var shown := Reduce(st, LogEv(line)).logs; shown != [] && shown[|shown| - 1] == line
  {
  }

  /** Loading a snapshot lays what it has over what the page shows, loses nothing, and loading it again changes nothing. */
  lemma SnapshotOverlays(st: State, s: Session)
    ensures var t := Reduce(st, Loaded(s));
      && t.session == Some(s) && t.sessionStatus == s.status
      && (s.build.Some? ==> t.buildStatus == s.build.value) && (s.build.None? ==> t.buildStatus == st.buildStatus)
      && t.previewUrl == (if s.previewUrl.Some? then s.previewUrl else st.previewUrl)
      && t.expiresAt == (if s.expiresAt.Some? then s.expiresAt else st.expiresAt)
      && t.endedReason == (if s.endedReason.Some? then s.endedReason else st.endedReason)
      && (t.terminalReady <==> s.terminalReady || st.terminalReady) && (t.extended <==> s.extended || st.extended)
      && t.logs == st.logs && t.error == st.error && t.connection == st.connection && t.previewPort == st.previewPort
      && Reduce(t, Loaded(s)) == t
  {
  }

  // ---------------------------------------------------------------- replay

  /** The state without what a reconnect resets. */
  function Core(st: State): State { st.(logs := [], connection := Idle) }

  lemma {:induction false} FoldRespectsCore(a: State, b: State, h: seq<Event>)
    requires IsHistory(h) && Core(a) == Core(b)
    ensures Core(Fold(a, h)) == Core(Fold(b, h))
    decreases |h|
  {
    if h != [] {
      assert IsServerEvent(h[0]);
      FoldRespectsCore(Reduce(a, h[0]), Reduce(b, h[0]), h[1..]);
    }
  }

  lemma {:induction false} FoldRespectsLogs(a: State, b: State, h: seq<Event>)
    requires IsHistory(h) && a.logs == b.logs
    ensures Fold(a, h).logs == Fold(b, h).logs
    decreases |h|
  {
    if h != [] {
      assert IsServerEvent(h[0]);
      FoldRespectsLogs(Reduce(a, h[0]), Reduce(b, h[0]), h[1..]);
    }
  }

  /** Folding a history twice gives the core that folding it once does. */
  lemma FoldTwice(st: State, h: seq<Event>)
    requires IsHistory(h)
    ensures Core(Fold(Fold(st, h), h)) == Core(Fold(st, h))
  {
    var x := Fold(st, h);
    FoldPlainFields(st, h);
    FoldPlainFields(x, h);
    FoldOptionalFields(st, h);
    FoldOptionalFields(x, h);
    if x.sessionStatus.Ended? {
      FoldFromEnded(x, h);
    } else {
      FoldEnds(st, h);
      FoldEnds(x, h);
      FoldWhileOpen(st, h);
      FoldWhileOpen(x, h);
    }
  }

  /** One connection attempt: it opens, delivers a prefix of the history, and may break with an error. */
  datatype Attempt = Attempt(delivered: nat, broke: bool)

  predicate FitsHistory(attempts: seq<Attempt>, h: seq<Event>) {
    forall a | a in attempts :: a.delivered <= |h|
  }

  function AttemptEvents(a: Attempt, h: seq<Event>): seq<Event>
    requires a.delivered <= |h|
  {
    [SseOpen] + h[..a.delivered] + if a.broke then [SseError] else []
  }

  function AllAttempts(attempts: seq<Attempt>, h: seq<Event>): seq<Event>
    requires FitsHistory(attempts, h)
  {
    if attempts == [] then [] else AttemptEvents(attempts[0], h) + AllAttempts(attempts[1..], h)
  }

  lemma FoldOpened(st: State, h: seq<Event>)
    requires IsHistory(h)
    ensures Fold(st, [SseOpen] + h) == Fold(Reduce(st, SseOpen), h)
    ensures Core(Fold(st, [SseOpen] + h)) == Core(Fold(st, h))
    ensures Fold(st, [SseOpen] + h).connection == Open
  {
    assert ([SseOpen] + h)[1..] == h;
    FoldRespectsCore(Reduce(st, SseOpen), st, h);
    FoldOptionalFields(Reduce(st, SseOpen), h);
  }

  /** An interrupted attempt leaves no trace in what a later full replay shows. */
  lemma AttemptLeavesNoTrace(st: State, a: Attempt, h: seq<Event>)
    requires IsHistory(h) && a.delivered <= |h|
    ensures Fold(Fold(st, AttemptEvents(a, h)), [SseOpen] + h) == Fold(st, [SseOpen] + h)
  {
    var p, q := h[..a.delivered], h[a.delivered..];
    assert h == p + q;
    var x := Fold(st, p);
    var y := Fold(st, AttemptEvents(a, h));
    FoldOpened(st, p);
    FoldConcat(st, [SseOpen] + p, if a.broke then [SseError] else []);
    assert Core(y) == Core(x);
    FoldOpened(y, h);
    FoldOpened(st, h);
    FoldRespectsLogs(Reduce(y, SseOpen), Reduce(st, SseOpen), h);
    FoldRespectsCore(y, x, h);
    FoldConcat(x, p, q);
    FoldTwice(st, p);
    FoldRespectsCore(Fold(x, p), x, q);
    FoldConcat(st, p, q);
  }

  /** From any state, any number of cut-off replays followed by a full one equals the full replay alone. */
  lemma {:induction false} ReconnectIsIdempotent(st: State, attempts: seq<Attempt>, h: seq<Event>)
    requires IsHistory(h) && FitsHistory(attempts, h)
    ensures Fold(st, AllAttempts(attempts, h) + [SseOpen] + h) == Fold(st, [SseOpen] + h)
    decreases |attempts|
  {
    if attempts == [] {
      assert AllAttempts(attempts, h) + [SseOpen] + h == [SseOpen] + h;
    } else {
      var first, rest := AttemptEvents(attempts[0], h), AllAttempts(attempts[1..], h);
      assert AllAttempts(attempts, h) + [SseOpen] + h == first + (rest + [SseOpen] + h);
      FoldConcat(st, first, rest + [SseOpen] + h);
      ReconnectIsIdempotent(Fold(st, first), attempts[1..], h);
      AttemptLeavesNoTrace(st, attempts[0], h);
    }
  }

  // ------------------------------------------------------------ log window

  function LogsOf(h: seq<Event>): seq<LogLine> {
    if h == [] then [] else (if h[0].LogEv? then [h[0].data] else []) + LogsOf(h[1..])
  }

  lemma {:induction false} LogsSnoc(h: seq<Event>, e: Event)
    ensures LogsOf(h + [e]) == LogsOf(h) + if e.LogEv? then [e.data] else []
    decreases |h|
  {
    if h == [] {
      assert h + [e] == [e];
    } else {
      var all := h + [e];
      assert all[0] == h[0] && all[1..] == h[1..] + [e];
      LogsSnoc(h[1..], e);
    }
  }

  function LastN<T>(s: seq<T>, n: nat): seq<T> { if |s| <= n then s else s[|s| - n..] }

  /** The window always holds the latest lines, at most MAX_LOG_LINES of them. */
  lemma {:induction false} LogWindow(st: State, h: seq<Event>)
    requires IsHistory(h) && |st.logs| <= MAX_LOG_LINES
    ensures |Fold(st, h).logs| <= MAX_LOG_LINES
    ensures Fold(st, h).logs == LastN(st.logs + LogsOf(h), MAX_LOG_LINES)
    decreases |h|
  {
    if h == [] {
      assert st.logs + LogsOf(h) == st.logs;
      return;
    }
    hide LastN;
    assert IsServerEvent(h[0]);
    LogWindow(Reduce(st, h[0]), h[1..]);
    if h[0].LogEv? {
      LastNSnoc(st.logs, h[0].data, LogsOf(h[1..]), MAX_LOG_LINES);
    } else {
      assert LogsOf(h) == LogsOf(h[1..]);
    }
  }

  /** The window of a list longer than it is that of the list's tail. */
  lemma LastNTail<T>(s: seq<T>, n: nat)
    requires |s| > n
    ensures LastN(s[1..], n) == LastN(s, n)
  {
  }

  lemma LastNSnoc<T>(a: seq<T>, x: T, b: seq<T>, n: nat)
    requires |a| <= n && n > 0
    ensures var w := (if |a| >= n then a[|a| - n + 1..] else a) + [x];
      |w| <= n && LastN(w + b, n) == LastN(a + ([x] + b), n)
  {
    assert a + ([x] + b) == a + [x] + b;
    if |a| == n {
      assert (a + [x])[1..] == a[1..] + [x];
      assert (a + [x] + b)[1..] == a[1..] + [x] + b;
      LastNTail(a + [x] + b, n);
    }
  }

  /** After any reconnects, the page shows exactly the last lines of the replayed history. */
  lemma ReplayedLogs(st: State, h: seq<Event>)
    requires IsHistory(h)
    ensures Fold(st, [SseOpen] + h).logs == LastN(LogsOf(h), MAX_LOG_LINES)
  {
    FoldOpened(st, h);
    LogWindow(Reduce(st, SseOpen), h);
    assert [] + LogsOf(h) == LogsOf(h);
  }

  // ------------------------------------------------------------ sticky end

  predicate Revives(e: Event) { e.Reset? || (e.Loaded? && !e.snapshot.status.Ended?) }

  /**
   An ended session is revived by exactly two events: a reset, and a REST snapshot that reports
   another status. No server event does it.
   */
  lemma EndIsStickyExactly(st: State, ev: Event)
    requires st.sessionStatus.Ended?
    ensures Reduce(st, ev).sessionStatus.Ended? <==> !Revives(ev)
  {
  }

  /** Without one of the two, an ended session stays ended through any events, local ones included. */
  lemma {:induction false} EndIsSticky(st: State, evs: seq<Event>)
    requires st.sessionStatus.Ended? && forall e | e in evs :: !Revives(e)
    ensures Fold(st, evs).sessionStatus.Ended?
    decreases |evs|
  {
    if evs != [] {
      EndIsStickyExactly(st, evs[0]);
      EndIsSticky(Reduce(st, evs[0]), evs[1..]);
    }
  }

  /** The comment on reduce promises more than the code keeps: a late snapshot revives an ended session. */
  lemma LateSnapshotRevives()
    ensures exists st: State, ev: Event ::
      st.sessionStatus.Ended? && ev.Loaded? && Reduce(st, ev).sessionStatus.Live?
  {
    var s := Session("s1", Live, None, None, true, None, false, None);
    var st := Reduce(INITIAL, EndedEv("session expired"));
    assert Reduce(st, Loaded(s)).sessionStatus.Live?;
  }
}
