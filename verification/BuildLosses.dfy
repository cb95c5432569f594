/**
 The four ways to lose a sandbox, each at the end of a run from an empty store in which everything
 before was as it should be.
 */
module BuildLosses {
  import opened Wrappers
  import opened BuildMachine
  import S = Store

  const FRESH := State(1, map[], map[], [], {}, {}, {}, map[], {}, map[])
  const HEAD := Commit("owner", "repo", "sha")

  /** A run from the empty store on an honest platform. */
  ghost predicate Fine(acts: seq<Action>) { Executable(FRESH, acts) && AllHonest(FRESH, acts) }

  ghost function Reached(acts: seq<Action>): State
    requires Fine(acts)
  {
    Exec(FRESH, acts)
  }

  /** After that run, this one action loses a sandbox. */
  ghost predicate Loses(acts: seq<Action>, a: Action) {
    Fine(acts) && Conserved(Reached(acts)) && Enabled(Reached(acts), a) && !Conserved(Apply(Reached(acts), a))
  }

  lemma {:induction false} HonestSnoc(s: State, acts: seq<Action>, a: Action)
    requires Executable(s, acts) && AllHonest(s, acts) && Enabled(Exec(s, acts), a) && Honest(Exec(s, acts), a)
    ensures Executable(s, acts + [a]) && AllHonest(s, acts + [a])
    decreases |acts|
  {
    hide Honest, Enabled, Apply;
    ExecSnoc(s, acts, a);
    if acts == [] {
      assert acts + [a] == [a];
      assert Exec(s, []) == s;
      assert AllHonest(Apply(s, a), []);
    } else {
      assert (acts + [a])[1..] == acts[1..] + [a];
      HonestSnoc(Apply(s, acts[0]), acts[1..], a);
    }
  }

  lemma Do(acts: seq<Action>, a: Action) returns (more: seq<Action>)
    requires Fine(acts) && Enabled(Reached(acts), a) && Honest(Reached(acts), a)
    ensures Fine(more) && Reached(more) == Apply(Reached(acts), a)
  {
    hide Honest, Enabled, Apply;
    HonestSnoc(FRESH, acts, a);
    ExecSnoc(FRESH, acts, a);
    more := acts + [a];
  }

  lemma Sound(acts: seq<Action>)
    requires Fine(acts)
    ensures Sandboxes(Reached(acts)) && Flight(Reached(acts)) && Conserved(Reached(acts))
  {
    assert Initial(FRESH) && Sandboxes(FRESH) && Flight(FRESH);
    RunKeepsSandboxes(FRESH, acts);
    RunKeepsFlight(FRESH, acts);
    SandboxesAreConserved(Reached(acts));
  }

  /** The first build of the commit, queued. */
  lemma FirstEnsure() returns (acts: seq<Action>)
    ensures Fine(acts) && Reached(acts) == Started(FRESH, "b", Rec(HEAD, S.Queued, "", ""))
  {
    assert Fine([]) && Exec(FRESH, []) == FRESH;
    acts := Do([], Ensure(HEAD, None, "b"));
  }

  predicate Ready(s: State, e: nat, id: string, n: string) {
    && e < |s.pipes| && s.pipes[e].pc.Queued? && !s.pipes[e].keep && s.pipes[e].sb.None?
    && |s.permits| < s.limit && e !in s.permits && FreshSandbox(s, id) && n !in s.snaps
    && s.pipes[e].rec.golden != id
  }

  /** t is s but for pipeline e and its build's record. */
  ghost predicate Elsewhere(s: State, t: State, e: nat, r: Rec) {
    && e < |s.pipes| && |t.pipes| == |s.pipes| && t.pipes[e].build == s.pipes[e].build
    && t.store == s.store[s.pipes[e].build := r] && t.limit == s.limit
  }

  /** Pipeline e as far as its sandbox having been asked for. */
  lemma GetsSandbox(acts: seq<Action>, e: nat, id: string, n: string) returns (more: seq<Action>)
    requires Fine(acts) && Ready(Reached(acts), e, id, n)
    ensures Fine(more)
    ensures var s, t := Reached(acts), Reached(more); var p := s.pipes[e]; var r := p.rec.(status := S.Building);
      && Elsewhere(s, t, e, r) && t.runs == s.runs && t.permits == s.permits + {e}
      && t.pipes[e] == p.(pc := Preparing, sb := Some(id), rec := r.(golden := id))
      && t.created == s.created + {id} && t.deleted == s.deleted && t.snaps == s.snaps && t.issued == s.issued
  {
    hide Fine, Reached, FreshSandbox;
    more := Do(acts, Own(e, Acquire));
    more := Do(more, Own(e, MarkBuilding));
    FreshAfter(Reached(acts), Reached(more), id, Reached(acts).pipes[e].build, Reached(more).pipes[e].rec);
    more := Do(more, Own(e, CreateOk(id)));
  }

  lemma FreshAfter(s: State, t: State, id: string, b: string, r: Rec)
    requires FreshSandbox(s, id) && t.created == s.created && t.deleted == s.deleted && t.snaps == s.snaps
    requires t.store == s.store[b := r] && r.golden != id
    ensures FreshSandbox(t, id)
  {
  }

  /** From the sandbox to the snapshot being ready. */
  lemma GetsSnapshot(acts: seq<Action>, e: nat, id: string, n: string) returns (more: seq<Action>)
    requires Fine(acts) && e < |Reached(acts).pipes| && n !in Reached(acts).snaps
    requires Reached(acts).pipes[e].pc.Preparing? && Reached(acts).pipes[e].sb == Some(id)
    ensures Fine(more)
    ensures var s, t := Reached(acts), Reached(more);
      t == s.(pipes := s.pipes[e := s.pipes[e].(pc := Pausing, snap := n)], snaps := s.snaps[n := id])
  {
    hide Fine, Reached;
    more := Do(acts, Own(e, WaitReady(id, true)));
    more := Do(more, Own(e, WorkOk));
    more := Do(more, Own(e, SnapOk(n)));
    more := Do(more, Own(e, SnapReady));
    assert Reached(more) == Reached(acts).(
      pipes := Reached(acts).pipes[e := Reached(acts).pipes[e].(pc := Pausing, snap := n)],
      snaps := Reached(acts).snaps[n := id]);
  }

  /** From there to the end. */
  lemma Publishes(acts: seq<Action>, e: nat, id: string) returns (more: seq<Action>)
    requires Fine(acts) && e < |Reached(acts).pipes|
    requires Reached(acts).pipes[e].pc.Pausing? && Reached(acts).pipes[e].sb == Some(id)
    ensures Fine(more)
    ensures var s, t := Reached(acts), Reached(more); var p := s.pipes[e];
      && Elsewhere(s, t, e, p.rec.(status := S.Ready, snapshot := p.snap))
      && t.runs == s.runs - {p.build} && t.permits == s.permits - {e}
      && t.created == s.created && t.deleted == s.deleted && t.snaps == s.snaps && t.issued == s.issued[id := p.build]
  {
    hide Fine, Reached;
    more := Do(acts, Own(e, Pause(true)));
    more := Do(more, Own(e, Publish));
    more := Do(more, Own(e, FinishLog));
    more := Do(more, Own(e, Unregister));
    more := Do(more, Own(e, Cleanup(true)));
    more := Do(more, Own(e, Release));
  }

  /** A whole build that works. */
  lemma Builds(acts: seq<Action>, e: nat, id: string, n: string) returns (more: seq<Action>)
    requires Fine(acts) && Ready(Reached(acts), e, id, n)
    ensures Fine(more)
    ensures var s, t := Reached(acts), Reached(more); var p := s.pipes[e];
      && Elsewhere(s, t, e, Rec(p.rec.commit, S.Ready, id, n))
      && t.runs == s.runs - {p.build} && t.permits == s.permits
      && t.created == s.created + {id} && t.deleted == s.deleted && t.snaps == s.snaps[n := id]
      && t.issued == s.issued[id := p.build]
  {
    var s := Reached(acts);
    hide Fine, Reached, FreshSandbox;
    more := GetsSandbox(acts, e, id, n);
    more := GetsSnapshot(more, e, id, n);
    more := Publishes(more, e, id);
    assert s.permits + {e} - {e} == s.permits;
  }

  /** One build has worked: the commit's record names g1, and nothing runs. */
  lemma OneBuilt() returns (acts: seq<Action>)
    ensures Fine(acts)
    ensures var s := Reached(acts);
      && s.limit == 1 && |s.pipes| == 1 && s.permits == {} && s.runs == map[]
      && s.store == map["b" := OLD_COPY]
      && s.created == {"g1"} && s.deleted == {} && s.snaps == map["n1" := "g1"] && s.issued == map["g1" := "b"]
  {
    acts := FirstEnsure();
    var s := Reached(acts);
    assert Ready(s, 0, "g1", "n1");
    hide Fine, Reached;
    acts := Builds(acts, 0, "g1", "n1");
  }

  const OLD_COPY := Rec(HEAD, S.Ready, "g1", "n1")

  /** The platform has then reclaimed g1. */
  lemma GoldenReclaimed() returns (acts: seq<Action>)
    ensures Fine(acts)
    ensures var s := Reached(acts);
      && s.limit == 1 && |s.pipes| == 1 && s.permits == {} && s.runs == map[] && s.store == map["b" := OLD_COPY]
      && s.created == {"g1"} && s.deleted == {"g1"} && s.snaps == map[] && s.issued == map["g1" := "b"]
  {
    acts := OneBuilt();
    Sound(acts);
    NobodyHolds(Reached(acts), "g1");
    hide Fine, Reached, Conserved, Sandboxes, Flight, Holds;
    acts := Do(acts, Reclaim("g1"));
    assert Reached(acts).snaps == map[];
  }

  /** And one rebuild has worked: the record names g2. The old copy is still readable. */
  lemma RebuiltOnce() returns (acts: seq<Action>)
    ensures Fine(acts)
    ensures var s := Reached(acts);
      && "b" in s.store && s.store["b"] == Rec(HEAD, S.Ready, "g2", "n2") && "b" !in s.runs
      && "g2" in s.created && "g2" !in s.deleted && Readable(s, "b", OLD_COPY)
  {
    acts := GoldenReclaimed();
    assert Readable(Reached(acts), "b", OLD_COPY);
    hide Fine, Reached;
    acts := Do(acts, Rebuild("b", OLD_COPY, true));
    var s := Reached(acts);
    assert s.snaps == map[];
    assert Ready(s, 1, "g2", "n2");
    hide Ready;
    acts := Builds(acts, 1, "g2", "n2");
  }

  lemma NobodyHolds(s: State, id: string)
    requires Sandboxes(s) && id in s.issued
    ensures forall e | 0 <= e < |s.pipes| :: !Holds(s.pipes[e], id)
  {
  }

  // ---------------------------------------------------------------- losses

  /** A wait that fails with an empty record. */
  lemma WaitCanLose()
    ensures exists acts :: Loses(acts, Own(0, WaitReady("", false)))
  {
    var acts := FirstEnsure();
    assert Ready(Reached(acts), 0, "g1", "n1");
    acts := GetsSandbox(acts, 0, "g1", "n1");
    Sound(acts);
    WaitConservesIffSameId(Reached(acts), 0, "", false);
    assert Loses(acts, Own(0, WaitReady("", false)));
  }

  /** A failed build whose delete fails. */
  lemma CleanupCanLose()
    ensures exists acts :: Loses(acts, Own(0, Cleanup(false)))
  {
    var acts := FirstEnsure();
    assert Ready(Reached(acts), 0, "g1", "n1");
    acts := GetsSandbox(acts, 0, "g1", "n1");
    acts := Fails(acts, 0, "g1");
    Sound(acts);
    CleanupConservesIffDeleted(Reached(acts), 0, false);
    assert Loses(acts, Own(0, Cleanup(false)));
  }

  lemma Fails(acts: seq<Action>, e: nat, id: string) returns (more: seq<Action>)
    requires Fine(acts) && e < |Reached(acts).pipes|
    requires Reached(acts).pipes[e].pc.Preparing? && Reached(acts).pipes[e].sb == Some(id)
    ensures Fine(more) && |Reached(more).pipes| == |Reached(acts).pipes|
    ensures Reached(more).pipes[e].pc.Cleaning? && Reached(more).pipes[e].sb == Some(id)
    ensures Reached(more).pipes[e].keep == Reached(acts).pipes[e].keep
  {
    hide Fine, Reached;
    more := Do(acts, Own(e, WaitReady(id, false)));
    more := Do(more, Own(e, RecordFailure));
    more := Do(more, Own(e, FinishLog));
    more := Do(more, Own(e, Unregister));
  }

  /** A rebuild asked for with the record itself, whose delete fails. */
  lemma RebuildCanLose()
    ensures exists acts :: Loses(acts, Rebuild("b", OLD_COPY, false))
  {
    var acts := OneBuilt();
    Sound(acts);
    assert Readable(Reached(acts), "b", OLD_COPY);
    RebuildConservesIffCopyIsCurrent(Reached(acts), "b", OLD_COPY, false);
    assert Loses(acts, Rebuild("b", OLD_COPY, false));
  }

  /** Two sessions rebuild one commit, one after the other, and the second still holds the first record. */
  lemma StaleRebuildCanLose()
    ensures exists acts :: Loses(acts, Rebuild("b", OLD_COPY, true))
  {
    var acts := RebuiltOnce();
    Sound(acts);
    RebuildConservesIffCopyIsCurrent(Reached(acts), "b", OLD_COPY, true);
    assert Loses(acts, Rebuild("b", OLD_COPY, true));
  }

  /** A second session rebuilds with the old record while the first one's rebuild has just stored ready. */
  ghost predicate Overlaps(acts: seq<Action>) {
    && Fine(acts) && "b" in Reached(acts).store && "b" in Reached(acts).runs && Readable(Reached(acts), "b", OLD_COPY)
    && var t := Joined(Reached(acts), "b", OLD_COPY, true); !Flight(t) && !Conserved(t)
  }

  lemma Republished() returns (acts: seq<Action>)
    ensures Fine(acts)
    ensures var s := Reached(acts);
      && |s.pipes| == 2 && s.pipes[1].pc.Closing? && s.pipes[1].build == "b"
      && "b" in s.store && s.store["b"] == Rec(HEAD, S.Ready, "g2", "n2") && "b" in s.runs && s.runs["b"] == 1
      && "g2" in s.created && "g2" !in s.deleted && Readable(s, "b", OLD_COPY)
  {
    acts := GoldenReclaimed();
    assert Readable(Reached(acts), "b", OLD_COPY);
    hide Fine, Reached;
    acts := Do(acts, Rebuild("b", OLD_COPY, true));
    var s := Reached(acts);
    assert s.snaps == map[];
    assert Ready(s, 1, "g2", "n2");
    hide Ready, FreshSandbox;
    acts := GetsSandbox(acts, 1, "g2", "n2");
    acts := GetsSnapshot(acts, 1, "g2", "n2");
    acts := StoresReady(acts, 1, "g2");
  }

  lemma StoresReady(acts: seq<Action>, e: nat, id: string) returns (more: seq<Action>)
    requires Fine(acts) && e < |Reached(acts).pipes|
    requires Reached(acts).pipes[e].pc.Pausing? && Reached(acts).pipes[e].sb == Some(id)
    ensures Fine(more)
    ensures var s, t := Reached(acts), Reached(more); var p := s.pipes[e];
      && Elsewhere(s, t, e, p.rec.(status := S.Ready, snapshot := p.snap)) && t.pipes[e].pc.Closing?
      && t.runs == s.runs && t.created == s.created && t.deleted == s.deleted && t.issued == s.issued[id := p.build]
  {
    hide Fine, Reached;
    more := Do(acts, Own(e, Pause(true)));
    more := Do(more, Own(e, Publish));
  }

  lemma OverlappingRebuildCanLose()
    ensures exists acts :: Overlaps(acts)
  {
    var acts := Republished();
    Sound(acts);
    JoinKeepsFlightIff(Reached(acts), "b", OLD_COPY, true);
    JoinConservesIff(Reached(acts), "b", OLD_COPY, true);
    assert Overlaps(acts);
  }
}
