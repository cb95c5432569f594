/** Runs of one session in which things go as the exact conditions say they can. */
module SessionWitnesses {
  import opened Wrappers
  import opened SessionMachine
  import P = SessionPage
  import S = Store

  const LAUNCH := Limits(15, 30)
  const READY := BuildView(S.Ready, false, 0, "")
  const VISIT := S.Session("s1", "b", "device", "ip", "", "", S.SStarting, false, false, 0, None, "")

  /** A session just created for a build that is ready. */
  const FRESH := Sess(LAUNCH, VISIT, VISIT, READY, Joining, false, [], false, true, 0, 0, 0, 0, 0, false, 0,
                     Boxes(None, {}, {}))

  /** A run of it on an honest platform. */
  ghost predicate Fine(acts: seq<Action>) { Executable(FRESH, acts) && AllHonest(FRESH, acts) }

  ghost function Reached(acts: seq<Action>): Sess
    requires Fine(acts)
  {
    Exec(FRESH, acts)
  }

  lemma {:induction false} HonestSnoc(s: Sess, acts: seq<Action>, a: Action)
    requires Executable(s, acts) && AllHonest(s, acts) && Enabled(Exec(s, acts), a) && Honest(Exec(s, acts), a)
    ensures Executable(s, acts + [a]) && AllHonest(s, acts + [a])
    decreases |acts|
  {
    hide Honest, Enabled, Apply;
    ExecSnoc(s, acts, a);
    if acts == [] {
      assert acts + [a] == [a];
      assert Exec(s, []) == s;
      assert AllHonest(Apply(s, a), []);
    } else {
      assert (acts + [a])[1..] == acts[1..] + [a];
      HonestSnoc(Apply(s, acts[0]), acts[1..], a);
    }
  }

  lemma Do(acts: seq<Action>, a: Action) returns (more: seq<Action>)
    requires Fine(acts) && Enabled(Reached(acts), a) && Honest(Reached(acts), a)
    ensures Fine(more) && Reached(more) == Apply(Reached(acts), a)
  {
    hide Honest, Enabled, Apply;
    HonestSnoc(FRESH, acts, a);
    ExecSnoc(FRESH, acts, a);
    more := acts + [a];
  }

  /** The session is starting. */
  lemma Begins() returns (acts: seq<Action>)
    ensures Fine(acts)
    ensures var s := Reached(acts);
      && s.pc.Restoring? && s.now == 0 && s.limits == LAUNCH && s.stored == s.copy && s.stored.createdAt == 0
      && s.stored.sandbox == "" && !s.stored.extended && s.bld == READY
  {
    assert Fine([]) && Exec(FRESH, []) == FRESH;
    hide Fine, Reached, Replayed, FailWith, RestoreTried, Rebuilt, Booted, WentLive, Announced, Polled, ExtendTried,
      Terminated;
    acts := Do([], Follow(Unavailable));
    acts := Do(acts, Begin);
  }

  /** The sandbox has been created, d after the session. */
  lemma Boots(d: nat) returns (acts: seq<Action>)
    ensures Fine(acts)
    ensures var s := Reached(acts);
      && s.pc.Booting? && s.now == d && s.limits == LAUNCH && s.stored.sandbox == "sb" && s.boxes.held == Some("sb")
      && s.stored.createdAt == 0 && s.stored == s.copy && !s.stored.extended
  {
    acts := Begins();
    hide Fine, Reached, FailWith, SnapshotLost, Followed, Begun, Rebuilt, Booted, WentLive, Announced, Polled,
      ExtendTried, Terminated;
    acts := Do(acts, Restore(Restored("sb")));
    acts := Do(acts, Tick(d));
  }

  /** And the session has been stored as live, and nothing of it told. */
  lemma StoredLive(d: nat) returns (acts: seq<Action>)
    ensures Fine(acts)
    ensures var s := Reached(acts);
      && s.pc.TellingTerminal? && s.limits == LAUNCH && MayExtend(s.stored) && s.stored == s.copy && s.now == d
      && s.stored.createdAt == 0 && s.liveAt == d && s.stored.expiresAt == Some(d + 15)
  {
    acts := Boots(d);
    hide Fine, Reached, FailWith, Followed, Begun, RestoreTried, Rebuilt, Announced, Polled, ExtendTried, Terminated;
    acts := Do(acts, Boot(true, "sb", true));
    acts := Do(acts, GoLive(None));
  }

  /** The run tells all it has to tell; the records stay as they are. */
  lemma Announces(acts: seq<Action>) returns (more: seq<Action>)
    requires Fine(acts) && Reached(acts).pc.TellingTerminal?
    ensures Fine(more)
    ensures var s, t := Reached(acts), Reached(more);
      && t.pc.Watching? && t.stored == s.stored && t.copy == s.copy && t.limits == s.limits && t.liveAt == s.liveAt
      && t.now == s.now && t.overtaken == s.overtaken
      && t.late == s.late + (if s.stored.status.SEnded? then 3 else 0)
  {
    hide Fine, Reached, News, Followed, Begun, RestoreTried, Rebuilt, Booted, WentLive, Polled, ExtendTried, Terminated;
    more := Do(acts, Announce);
    more := Do(more, Announce);
    more := Do(more, Announce);
  }

  /** And all has been told. */
  lemma GoesLive(d: nat) returns (acts: seq<Action>)
    ensures Fine(acts)
    ensures var s := Reached(acts);
      && s.pc.Watching? && s.limits == LAUNCH && MayExtend(s.stored) && s.stored == s.copy
      && s.stored.createdAt == 0 && s.liveAt == d && s.now == d && s.stored.expiresAt == Some(d + 15)
  {
    hide Fine, Reached;
    acts := StoredLive(d);
    acts := Announces(acts);
  }

  lemma IsInitial()
    ensures Initial(FRESH)
  {
  }

  ghost predicate Forgets(acts: seq<Action>) {
    && Fine(acts) && MayExtend(Reached(acts).stored)
    && !Polled(ExtendTried(Reached(acts), true), Gone, true).stored.extended
  }

  /** An extension granted right before the platform reclaims the sandbox is forgotten. */
  lemma ExtensionCanBeForgotten()
    ensures exists acts :: Forgets(acts)
  {
    var acts := GoesLive(0);
    IsInitial();
    var g := ExtendTried(Reached(acts), true);
    assert Executable(g, []) && Exec(g, []) == g;
    ExtensionSurvivesIffPolledWell(FRESH, acts, [], Gone, true);
    assert Forgets(acts);
  }

  ghost predicate Shortens(acts: seq<Action>) {
    Fine(acts) && MayExtend(Reached(acts).stored) && Reached(acts).stored.expiresAt.Some?
    && match ExtendTried(Reached(acts), true).stored.expiresAt
       case Some(x) => x < Reached(acts).stored.expiresAt.value
       case None => false
  }

  /** With the launch limits, a session that takes more than a quarter of an hour to go live is shortened. */
  lemma ExtensionCanShorten()
    ensures exists acts :: Shortens(acts)
  {
    var acts := GoesLive(16);
    IsInitial();
    ExtendShortensIffLate(FRESH, acts);
    assert Shortens(acts);
  }

  ghost predicate Leaks(acts: seq<Action>, a: Action) {
    && Fine(acts) && Enabled(Reached(acts), a)
    && var t := Apply(Reached(acts), a); t.stored.status.SEnded? && !(t.boxes.made <= t.boxes.gone)
  }

  lemma PollLeaks(acts: seq<Action>, reply: PollReply, deleted: bool)
    requires Fine(acts) && Reached(acts).pc.Watching?
    requires var t := Polled(Reached(acts), reply, deleted); t.stored.status.SEnded? && !(t.boxes.made <= t.boxes.gone)
    ensures Leaks(acts, Poll(reply, deleted))
  {
    hide Fine, Reached, Polled;
  }

  /** A boot that fails with an empty record leaves the sandbox behind. */
  lemma FailedBootCanLeak()
    ensures exists acts :: Leaks(acts, Boot(false, "", true))
  {
    var acts := Boots(0);
    IsInitial();
    FailedBootFreesIffSameId(FRESH, acts, "", true);
    hide Exec, Executable, AllHonest, Initial;
    assert Leaks(acts, Boot(false, "", true));
  }

  /** So does an end because the sandbox was found stopped. */
  lemma StoppedSandboxCanLeak()
    ensures exists acts :: Leaks(acts, Poll(Stopped, true))
  {
    var acts := GoesLive(0);
    IsInitial();
    PollFreesExactly(FRESH, acts, Stopped, true);
    PollEnforcesExpiry(FRESH, acts, Stopped, true);
    hide Exec, Executable, AllHonest, Initial, Polled;
    PollLeaks(acts, Stopped, true);
    assert Leaks(acts, Poll(Stopped, true));
  }

  /** And so does an expiry whose delete fails. */
  lemma ExpiredSandboxCanLeak()
    ensures exists acts :: Leaks(acts, Poll(PollReply.Fine, false))
  {
    var acts := GoesLive(0);
    acts := Waits(acts, 16);
    IsInitial();
    PollFreesExactly(FRESH, acts, PollReply.Fine, false);
    PollEnforcesExpiry(FRESH, acts, PollReply.Fine, false);
    hide Exec, Executable, AllHonest, Initial, Polled;
    PollLeaks(acts, PollReply.Fine, false);
    assert Leaks(acts, Poll(PollReply.Fine, false));
  }

  lemma Waits(acts: seq<Action>, d: nat) returns (more: seq<Action>)
    requires Fine(acts)
    ensures Fine(more) && Reached(more) == Reached(acts).(now := Reached(acts).now + d)
  {
    hide Fine, Reached;
    more := Do(acts, Tick(d));
  }

  /** The run is over or watching, the session ended, and the ended event not the last of its log. */
  ghost predicate TellsAfterEnd(acts: seq<Action>) {
    && Fine(acts) && Reached(acts).stored.status.SEnded? && Reached(acts).pc.Watching?
    && !EndsOnce(Reached(acts).log, Reached(acts).stored.endedReason)
  }

  /** A replacement right after the live store: the run goes on to announce a session that has ended. */
  lemma EndCanBeFollowed()
    ensures exists acts :: TellsAfterEnd(acts)
  {
    var acts := StoredLive(0);
    acts := Replaced(acts);
    acts := Announces(acts);
    IsInitial();
    RunsEndOnce(FRESH, acts);
    LastOrLate(Reached(acts).log, Reached(acts).stored.endedReason, Reached(acts).late);
    assert TellsAfterEnd(acts);
  }

  lemma Replaced(acts: seq<Action>) returns (more: seq<Action>)
    requires Fine(acts) && Reached(acts).stored.status.SLive?
    ensures Fine(more) && Reached(more).stored.status.SEnded? && Reached(more).pc == Reached(acts).pc
  {
    hide Fine, Reached;
    more := Do(acts, Terminate("replaced by a new session", true));
  }

  /** The run has announced what it stored, the session is live, and a page with its whole stream misreports it. */
  ghost predicate Misleads(acts: seq<Action>, stamp: int -> string) {
    && Fine(acts) && Reached(acts).stored.status.SLive? && Reached(acts).pc.Watching?
    && var w := P.Loaded(VISIT, S.Ready, stamp);
       !P.Faithful(Reached(acts), P.Watched(P.Heard(Reached(acts).log), w), stamp)
  }

  /** An extension granted right after the live store is told before the window it extends. */
  lemma PageCanMislead(stamp: int -> string)
    ensures exists acts :: Misleads(acts, stamp)
  {
    var acts := StoredLive(0);
    acts := Extended(acts);
    acts := Announces(acts);
    IsInitial();
    ShowsFirstWindow(acts, stamp);
    assert Misleads(acts, stamp);
  }

  lemma Extended(acts: seq<Action>) returns (more: seq<Action>)
    requires Fine(acts) && MayExtend(Reached(acts).stored) && AheadOfWindow(Reached(acts).pc)
    ensures Fine(more) && Reached(more).stored.status.SLive? && Reached(more).pc == Reached(acts).pc
    ensures Reached(more).overtaken
  {
    hide Fine, Reached;
    more := Do(acts, Extend(true));
  }

  /** A page that loaded the new session and hears its stream is in step. */
  lemma SeenFromStart(acts: seq<Action>, stamp: int -> string)
    requires Fine(acts)
    ensures Inv(Reached(acts)) && P.InStep(Reached(acts), P.Loaded(VISIT, S.Ready, stamp))
  {
    IsInitial();
    assert Executable(FRESH, []) && Exec(FRESH, []) == FRESH && FRESH.stored == VISIT;
    hide P.Loaded, P.InStep, Inv, AllHonest, Initial;
    P.LoadedInStep(FRESH, [], acts, S.Ready, stamp);
    InitialInv(FRESH);
    RunKeepsInv(FRESH, acts);
  }

  lemma ShowsFirstWindow(acts: seq<Action>, stamp: int -> string)
    requires Fine(acts) && Reached(acts).overtaken && Reached(acts).pc.Watching? && Reached(acts).stored.status.SLive?
    ensures Misleads(acts, stamp)
  {
    SeenFromStart(acts, stamp);
    var s, w := Reached(acts), P.Loaded(VISIT, S.Ready, stamp);
    P.LoadedOpen(VISIT, S.Ready, stamp);
    hide Fine, Reached, P.Loaded, P.Watched, Inv;
    P.HeardIsTold(s);
    P.FaithfulIff(s, P.Watched(P.Told(s), w), w);
  }
}
