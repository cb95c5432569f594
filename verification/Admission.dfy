/** Admission: who may open a session, whose sessions are replaced, and what the limits then hold to. */
module Admission {
  import opened Wrappers
  import S = Store
  import M = SessionMachine
  import Session

  datatype Limits = Limits(perDevice: int, perIp: int, global: int)

  const DEFAULT_LIMITS := Limits(1, 2, 200)
  const REPLACED := "replaced by a new session"

  /** A create call: build is what resolving and building returned, if they worked; id is the random id drawn. */
  datatype Request = Request(device: string, ip: string, id: string, build: Option<(string, S.BuildStatus)>, now: int)

  datatype Answer = Admitted(session: S.Session) | Busy | Limited | Unresolved

  // ---------------------------------------------------------- what Create does

  /** The sessions a new one of the device replaces: all its live ones, once it is at its limit. */
  function Mine(ss: S.Sessions, limits: Limits, device: string): set<string> {
    var ids := S.DeviceIds(ss, device);
    if |ids| >= limits.perDevice then ids else {}
  }

  function EndAll(ss: S.Sessions, ids: set<string>): S.Sessions {
    map id | id in ss :: if id in ids then M.EndRecord(ss[id], REPLACED) else ss[id]
  }

  function NewSession(q: Request, buildId: string, st: S.BuildStatus): S.Session {
    S.Session(q.id, buildId, q.device, q.ip, "", "", if st.Ready? then S.SStarting else S.SBuilding, false, false,
              q.now, None, "")
  }

  /** What the source compares with the per-IP limit: it subtracts every replaced session, whatever its IP. */
  function IpCount(ss: S.Sessions, limits: Limits, q: Request): int {
    |S.IpIds(ss, q.ip)| - |Mine(ss, limits, q.device)|
  }

  function Admit(ss: S.Sessions, limits: Limits, q: Request): (Answer, S.Sessions) {
    if |S.LiveIds(ss)| >= limits.global then (Busy, ss)
    else
      var left := EndAll(ss, Mine(ss, limits, q.device));
      if IpCount(ss, limits, q) >= limits.perIp then (Limited, left)
      else if q.build.None? then (Unresolved, left)
      else
        var s := NewSession(q, q.build.value.0, q.build.value.1);
        (Admitted(s), left[q.id := s])
  }

  function IdsOf(ms: seq<S.Session>): set<string> { set s | s in ms :: s.id }

  lemma EndOneMore(ss: S.Sessions, ms: seq<S.Session>, i: nat)
    requires i < |ms| && ms[i].id in ss && ss[ms[i].id] == ms[i]
    ensures EndAll(ss, IdsOf(ms[..i]))[ms[i].id := M.EndRecord(ms[i], REPLACED)] == EndAll(ss, IdsOf(ms[..i + 1]))
  {
    assert ms[..i + 1] == ms[..i] + [ms[i]];
    assert IdsOf(ms[..i + 1]) == IdsOf(ms[..i]) + {ms[i].id};
    hide IdsOf, REPLACED;
  }

  /** The manager over the store; one call runs at a time. */
  class Manager {
    const store: S.Memory
    const limits: Limits

    constructor (store: S.Memory, limits: Limits)
      ensures this.store == store && this.limits == limits
    {
      this.store, this.limits := store, limits;
    }

    /** terminate, as far as the store is concerned. */
    method Terminate(s: S.Session, reason: string)
      requires s.id in store.sessions
      modifies store`sessions
      ensures store.sessions == old(store.sessions)[s.id := M.EndRecord(s, reason)]
    {
      var ended := s.(status := S.SEnded, endedReason := reason);
      var _ := store.UpdateSession(ended);
    }

    /** Ends all the device's live sessions; n is how many there were. */
    method ReplaceAll(device: string) returns (n: nat)
      requires store.Keyed()
      modifies store`sessions
      ensures n == |S.DeviceIds(old(store.sessions), device)|
      ensures store.sessions == EndAll(old(store.sessions), S.DeviceIds(old(store.sessions), device))
      ensures store.Keyed()
    {
      var mine := store.LiveSessionsForDevice(device);
      ghost var ss := store.sessions;
      n := 0;
      while n < |mine|
        invariant n <= |mine|
        invariant store.sessions == EndAll(ss, IdsOf(mine[..n]))
      {
        assert mine[n] in mine;
        EndOneMore(ss, mine, n);
        Terminate(mine[n], REPLACED);
        n := n + 1;
      }
      assert mine[..n] == mine;
    }

    /**
     Create: the answer and the session table are those of Admit; a visit is counted exactly when the
     visitor is let in.
     */
    method Create(q: Request) returns (r: Answer)
      requires store.Keyed() && q.id != "" && q.id !in store.sessions
      modifies store`sessions, store`builds
      ensures (r, store.sessions) == Admit(old(store.sessions), limits, q)
      ensures store.Keyed()
      ensures store.builds ==
        if r.Admitted? && r.session.buildId in old(store.builds) then
          old(store.builds)[r.session.buildId := S.Visited(old(store.builds)[r.session.buildId], q.now)]
        else old(store.builds)
    {
      var byDevice, byIp, total := store.LiveSessions(q.device, q.ip);
      if total >= limits.global {
        return Busy;
      }
      var ipCount: int := byIp;
      ghost var ss := store.sessions;
      if byDevice >= limits.perDevice {
        var n := ReplaceAll(q.device);
        ipCount := ipCount - n;
      }
      assert store.sessions == EndAll(ss, Mine(ss, limits, q.device));
      if ipCount >= limits.perIp {
        return Limited;
      }
      if q.build.None? {
        return Unresolved;
      }
      var s := NewSession(q, q.build.value.0, q.build.value.1);
      s := store.CreateSession(s.(id := ""), q.id, q.now);
      var _ := store.RecordVisit(s.buildId, q.now);
      return Admitted(s);
    }
  }

  // -------------------------------------------------------------- the answer

  /**
   Which answer a visitor gets, in counts alone: busy when the service is full; limited when the IP is, less
   the sessions the device gives up by coming back at its limit; unresolved when there is no build; else let in.
   */
  lemma AnswerMeans(ss: S.Sessions, limits: Limits, q: Request)
    ensures var total, mine, here := |S.LiveIds(ss)|, |S.DeviceIds(ss, q.device)|, |S.IpIds(ss, q.ip)|;
      var counted := if mine >= limits.perDevice then here - mine else here;
      var r := Admit(ss, limits, q).0;
      && (r.Busy? <==> total >= limits.global)
      && (r.Limited? <==> total < limits.global && counted >= limits.perIp)
      && (r.Unresolved? <==> total < limits.global && counted < limits.perIp && q.build.None?)
      && (r.Admitted? <==> total < limits.global && counted < limits.perIp && q.build.Some?)
  {
  }

  /** What the device's coming back at its limit does to each session. */
  predicate Replaced(ss: S.Sessions, tt: S.Sessions, device: string, replacing: bool) {
    forall id | id in ss :: id in tt && tt[id] ==
      if replacing && ss[id].device == device && ss[id].status != S.SEnded
      then ss[id].(status := S.SEnded, endedReason := "replaced by a new session")
      else ss[id]
  }

  lemma EndAllReplaces(ss: S.Sessions, limits: Limits, device: string)
    ensures var tt := EndAll(ss, Mine(ss, limits, device));
      tt.Keys == ss.Keys && Replaced(ss, tt, device, |S.DeviceIds(ss, device)| >= limits.perDevice)
  {
  }

  lemma NobodyReplaced(ss: S.Sessions, device: string)
    ensures Replaced(ss, ss, device, false)
  {
  }

  lemma AddedIsNoReplacement(ss: S.Sessions, tt: S.Sessions, device: string, replacing: bool, s: S.Session)
    requires Replaced(ss, tt, device, replacing) && s.id !in ss
    ensures Replaced(ss, tt[s.id := s], device, replacing)
  {
  }

  /**
   What a create does to the table, session by session: the visitor's own live sessions are ended when
   the device is at its limit and the service is not full, the new one is there exactly when it was let
   in, and every other stays as it was.
   */
  lemma TableMeans(ss: S.Sessions, limits: Limits, q: Request)
    requires q.id !in ss
    ensures var r, tt := Admit(ss, limits, q).0, Admit(ss, limits, q).1;
      && tt.Keys == ss.Keys + (if r.Admitted? then {q.id} else {})
      && (r.Admitted? ==> tt[q.id] == r.session)
      && Replaced(ss, tt, q.device,
                  |S.LiveIds(ss)| < limits.global && |S.DeviceIds(ss, q.device)| >= limits.perDevice)
  {
    EndAllReplaces(ss, limits, q.device);
    NobodyReplaced(ss, q.device);
    hide Replaced, EndAll, Mine, IpCount, S.LiveIds, S.DeviceIds, REPLACED;
    var r := Admit(ss, limits, q).0;
    if r.Admitted? {
      AddedIsNoReplacement(ss, EndAll(ss, Mine(ss, limits, q.device)), q.device,
                           |S.DeviceIds(ss, q.device)| >= limits.perDevice, r.session);
    }
  }

  /**
   The session a visitor is given is one a run can be started on: a fresh one of this device and IP, for the
   build it was given, starting if that is ready and else building.
   */
  lemma AdmittedStartsRun(ss: S.Sessions, limits: Limits, q: Request, window: M.Limits, bld: M.BuildView)
    requires Admit(ss, limits, q).0.Admitted? && bld.status == q.build.value.1
    ensures var s := Admit(ss, limits, q).0.session;
      && s.id == q.id && s.buildId == q.build.value.0 && s.device == q.device && s.ip == q.ip && s.createdAt == q.now
      && (bld.status.Ready? ==> s.status.SStarting?) && (!bld.status.Ready? ==> s.status.SBuilding?)
      && M.Initial(Session.Fresh(window, s, bld, q.now))
  {
    Session.FreshRun(window, Admit(ss, limits, q).0.session, bld, q.now);
  }

  // ------------------------------------------------------------ the two caps

  /** The global limit, and at most one session of a device beyond what its limit tolerates. */
  predicate DeviceCapped(ss: S.Sessions, limits: Limits, device: string) {
    |S.DeviceIds(ss, device)| <= if limits.perDevice > 1 then limits.perDevice else 1
  }

  ghost predicate Capped(ss: S.Sessions, limits: Limits) {
    && |S.LiveIds(ss)| <= limits.global
    && forall device :: DeviceCapped(ss, limits, device)
  }

  lemma EndAllLive(ss: S.Sessions, ids: set<string>)
    ensures S.LiveIds(EndAll(ss, ids)) == S.LiveIds(ss) - ids
  {
  }

  lemma EndAllDevice(ss: S.Sessions, ids: set<string>, device: string)
    ensures S.DeviceIds(EndAll(ss, ids), device) == S.DeviceIds(ss, device) - ids
  {
  }

  lemma EndAllIp(ss: S.Sessions, ids: set<string>, ip: string)
    ensures S.IpIds(EndAll(ss, ids), ip) == S.IpIds(ss, ip) - ids
  {
  }

  /** The new set is the old one with id, if it belongs. */
  lemma OneMore(old_: set<string>, new_: set<string>, id: string, belongs: bool)
    requires id !in old_ && (id in new_ <==> belongs)
    requires forall x | x != id :: x in new_ <==> x in old_
    ensures |new_| == |old_| + if belongs then 1 else 0
  {
    assert new_ == old_ + if belongs then {id} else {};
  }

  lemma AddLive(ss: S.Sessions, s: S.Session)
    requires s.id !in ss && s.Live()
    ensures |S.LiveIds(ss[s.id := s])| == |S.LiveIds(ss)| + 1
  {
    OneMore(S.LiveIds(ss), S.LiveIds(ss[s.id := s]), s.id, true);
  }

  lemma AddDevice(ss: S.Sessions, s: S.Session, device: string)
    requires s.id !in ss && s.Live()
    ensures |S.DeviceIds(ss[s.id := s], device)| == |S.DeviceIds(ss, device)| + if s.device == device then 1 else 0
  {
    OneMore(S.DeviceIds(ss, device), S.DeviceIds(ss[s.id := s], device), s.id, s.device == device);
  }

  lemma AddIp(ss: S.Sessions, s: S.Session, ip: string)
    requires s.id !in ss && s.Live()
    ensures |S.IpIds(ss[s.id := s], ip)| == |S.IpIds(ss, ip)| + if s.ip == ip then 1 else 0
  {
    OneMore(S.IpIds(ss, ip), S.IpIds(ss[s.id := s], ip), s.id, s.ip == ip);
  }

  lemma Smaller<T>(a: set<T>, b: set<T>)
    requires a <= b
    ensures |a| <= |b|
  {
    assert b == a + (b - a);
  }

  /** A table whose live sessions all were live before, for the same devices, stays within the caps. */
  lemma FewerKeepCaps(ss: S.Sessions, tt: S.Sessions, limits: Limits)
    requires Capped(ss, limits)
    requires S.LiveIds(tt) <= S.LiveIds(ss)
    requires forall device :: S.DeviceIds(tt, device) <= S.DeviceIds(ss, device)
    ensures Capped(tt, limits)
  {
    Smaller(S.LiveIds(tt), S.LiveIds(ss));
    forall device ensures DeviceCapped(tt, limits, device) {
      assert DeviceCapped(ss, limits, device);
      Smaller(S.DeviceIds(tt, device), S.DeviceIds(ss, device));
    }
  }

  lemma EndAllKeepsCaps(ss: S.Sessions, limits: Limits, ids: set<string>)
    requires Capped(ss, limits)
    ensures Capped(EndAll(ss, ids), limits)
  {
    EndAllLive(ss, ids);
    forall device ensures S.DeviceIds(EndAll(ss, ids), device) <= S.DeviceIds(ss, device) {
      EndAllDevice(ss, ids, device);
    }
    FewerKeepCaps(ss, EndAll(ss, ids), limits);
  }

  /** Once its sessions are replaced, if they have to be, the device has room for one more. */
  lemma RoomForOne(ss: S.Sessions, limits: Limits, device: string)
    ensures var n := |S.DeviceIds(EndAll(ss, Mine(ss, limits, device)), device)|; n == 0 || n < limits.perDevice
  {
    EndAllDevice(ss, Mine(ss, limits, device), device);
    assert S.DeviceIds(ss, device) - S.DeviceIds(ss, device) == {};
    assert S.DeviceIds(ss, device) - {} == S.DeviceIds(ss, device);
  }

  lemma AddKeepsCaps(ss: S.Sessions, limits: Limits, s: S.Session)
    requires Capped(ss, limits) && s.id !in ss && s.Live() && |S.LiveIds(ss)| < limits.global
    requires var n := |S.DeviceIds(ss, s.device)|; n == 0 || n < limits.perDevice
    ensures Capped(ss[s.id := s], limits)
  {
    AddLive(ss, s);
    var tt := ss[s.id := s];
    forall device ensures DeviceCapped(tt, limits, device) {
      AddDevice(ss, s, device);
      assert DeviceCapped(ss, limits, device);
    }
  }

  /** Whatever Create answers, the global and the per-device caps hold afterwards, replacements included. */
  lemma AdmitKeepsCaps(ss: S.Sessions, limits: Limits, q: Request)
    requires Capped(ss, limits) && q.id !in ss
    ensures Capped(Admit(ss, limits, q).1, limits)
  {
    var mine := Mine(ss, limits, q.device);
    EndAllKeepsCaps(ss, limits, mine);
    var r := Admit(ss, limits, q).0;
    if r.Admitted? {
      EndAllLive(ss, mine);
      Smaller(S.LiveIds(EndAll(ss, mine)), S.LiveIds(ss));
      RoomForOne(ss, limits, q.device);
      hide Capped, Mine, S.LiveIds, S.DeviceIds;
      AddKeepsCaps(EndAll(ss, mine), limits, r.session);
    }
  }

  /** What happens to the table: a create, or a write of an existing session that does not revive it. */
  datatype Op = Open(q: Request) | Write(s: S.Session)

  predicate Allowed(ss: S.Sessions, op: Op) {
    match op
    case Open(q) => q.id !in ss
    case Write(s) =>
      && s.id in ss && s.device == ss[s.id].device && s.ip == ss[s.id].ip
      && (s.Live() ==> ss[s.id].Live())
  }

  function ApplyOp(ss: S.Sessions, limits: Limits, op: Op): S.Sessions {
    match op
    case Open(q) => Admit(ss, limits, q).1
    case Write(s) => ss[s.id := s]
  }

  predicate AllAllowed(ss: S.Sessions, limits: Limits, ops: seq<Op>)
    decreases |ops|
  {
    ops == [] || (Allowed(ss, ops[0]) && AllAllowed(ApplyOp(ss, limits, ops[0]), limits, ops[1..]))
  }

  function ApplyOps(ss: S.Sessions, limits: Limits, ops: seq<Op>): S.Sessions
    decreases |ops|
  {
    if ops == [] then ss else ApplyOps(ApplyOp(ss, limits, ops[0]), limits, ops[1..])
  }

  /** With Create atomic, the caps hold over every run. */
  lemma {:induction false} CapsHold(ss: S.Sessions, limits: Limits, ops: seq<Op>)
    requires Capped(ss, limits) && AllAllowed(ss, limits, ops)
    ensures Capped(ApplyOps(ss, limits, ops), limits)
    decreases |ops|
  {
    hide Capped, Admit;
    if ops != [] {
      match ops[0] {
        case Open(q) => AdmitKeepsCaps(ss, limits, q);
        case Write(s) => FewerKeepCaps(ss, ss[s.id := s], limits);
      }
      CapsHold(ApplyOp(ss, limits, ops[0]), limits, ops[1..]);
    }
  }

  // ---------------------------------------------------------- the per-IP cap

  /** Sessions replaced that do not count for this IP. */
  function Foreign(ss: S.Sessions, limits: Limits, q: Request): set<string> {
    Mine(ss, limits, q.device) - S.IpIds(ss, q.ip)
  }

  /** How many sessions the IP has once a visitor is let in. */
  lemma IpAfter(ss: S.Sessions, limits: Limits, q: Request)
    requires q.id !in ss && Admit(ss, limits, q).0.Admitted?
    ensures |S.IpIds(Admit(ss, limits, q).1, q.ip)| == IpCount(ss, limits, q) + |Foreign(ss, limits, q)| + 1
  {
    var mine, here := Mine(ss, limits, q.device), S.IpIds(ss, q.ip);
    EndAllIp(ss, mine, q.ip);
    var s := Admit(ss, limits, q).0.session;
    hide Mine, S.IpIds, S.LiveIds;
    AddIp(EndAll(ss, mine), s, q.ip);
    Exchange(here, mine);
  }

  lemma Exchange(a: set<string>, b: set<string>)
    ensures |a - b| == |a| - |b| + |b - a|
  {
    assert a == (a - b) + (a * b) && b == (b - a) + (a * b);
  }

  /** A create keeps the IP within its limit exactly when the foreign sessions it replaces leave room. */
  lemma IpCapExactly(ss: S.Sessions, limits: Limits, q: Request)
    requires q.id !in ss && Admit(ss, limits, q).0.Admitted?
    ensures |S.IpIds(Admit(ss, limits, q).1, q.ip)| <= limits.perIp
       <==> |Foreign(ss, limits, q)| < limits.perIp - IpCount(ss, limits, q)
  {
    IpAfter(ss, limits, q);
  }

  /** In particular it does whenever all the sessions replaced share the new one's IP. */
  lemma IpCapOnOneIp(ss: S.Sessions, limits: Limits, q: Request)
    requires q.id !in ss && Mine(ss, limits, q.device) <= S.IpIds(ss, q.ip)
    ensures Admit(ss, limits, q).0.Admitted? ==> |S.IpIds(Admit(ss, limits, q).1, q.ip)| <= limits.perIp
  {
    if Admit(ss, limits, q).0.Admitted? {
      assert Foreign(ss, limits, q) == {};
      IpCapExactly(ss, limits, q);
    }
  }

  /** One visitor at home, two at the office. */
  function Scene(): S.Sessions {
    map["a" := NewSession(Request("d1", "home", "a", None, 0), "b", S.Ready),
        "b" := NewSession(Request("d2", "office", "b", None, 0), "b", S.Ready),
        "c" := NewSession(Request("d3", "office", "c", None, 0), "b", S.Ready)]
  }

  lemma SceneCounts()
    ensures S.LiveIds(Scene()) == {"a", "b", "c"}
    ensures S.IpIds(Scene(), "office") == {"b", "c"} && S.DeviceIds(Scene(), "d1") == {"a"}
    ensures forall ip :: |S.IpIds(Scene(), ip)| <= 2
  {
    forall ip ensures |S.IpIds(Scene(), ip)| <= 2 {
      if ip == "office" {
        assert S.IpIds(Scene(), ip) == {"b", "c"};
      } else {
        assert S.IpIds(Scene(), ip) <= {"a"};
        Smaller(S.IpIds(Scene(), ip), {"a"});
      }
    }
  }

  lemma SceneIsCapped()
    ensures Capped(Scene(), DEFAULT_LIMITS)
  {
    SceneCounts();
    forall device ensures DeviceCapped(Scene(), DEFAULT_LIMITS, device) {
      var id := if device == "d1" then "a" else if device == "d2" then "b" else "c";
      assert S.DeviceIds(Scene(), device) <= {id};
      Smaller(S.DeviceIds(Scene(), device), {id});
    }
  }

  /** All caps hold, and letting this visitor in puts its IP over the limit. */
  ghost predicate BreaksIpCap(ss: S.Sessions, limits: Limits, q: Request) {
    && q.id !in ss && (forall ip :: |S.IpIds(ss, ip)| <= limits.perIp) && Capped(ss, limits)
    && |S.IpIds(Admit(ss, limits, q).1, q.ip)| > limits.perIp
  }

  /** And not in general: with the launch limits, a device that moves to a full IP is let in. */
  lemma IpCapCanBreak()
    ensures exists ss: S.Sessions, q: Request :: BreaksIpCap(ss, DEFAULT_LIMITS, q)
  {
    var ss, q := Scene(), Request("d1", "office", "d", Some(("b", S.Ready)), 0);
    SceneCounts();
    SceneIsCapped();
    assert q.id !in ss;
    hide Scene, Capped;
    assert Admit(ss, DEFAULT_LIMITS, q).0.Admitted?;
    IpAfter(ss, DEFAULT_LIMITS, q);
    assert Foreign(ss, DEFAULT_LIMITS, q) == {"a"};
    assert BreaksIpCap(ss, DEFAULT_LIMITS, q);
  }

  /**
   A visitor who is not let in keeps the device's sessions exactly when the service is full, the device
   is below its limit, or it has none.
   */
  lemma RefusalKeepsSessionsIff(ss: S.Sessions, limits: Limits, q: Request)
    requires !Admit(ss, limits, q).0.Admitted?
    ensures S.DeviceIds(Admit(ss, limits, q).1, q.device) == S.DeviceIds(ss, q.device)
       <==> |S.LiveIds(ss)| >= limits.global || |S.DeviceIds(ss, q.device)| < limits.perDevice
            || S.DeviceIds(ss, q.device) == {}
  {
    EndAllDevice(ss, Mine(ss, limits, q.device), q.device);
  }

  /** A refusal that costs the visitor a session. */
  ghost predicate Costs(ss: S.Sessions, limits: Limits, q: Request) {
    Capped(ss, limits) && !Admit(ss, limits, q).0.Admitted?
    && S.DeviceIds(Admit(ss, limits, q).1, q.device) != S.DeviceIds(ss, q.device)
  }

  /** With the launch limits, asking for a repository that cannot be resolved does. */
  lemma RefusalCanCost()
    ensures exists ss: S.Sessions, q: Request :: Costs(ss, DEFAULT_LIMITS, q)
  {
    var ss, q := Scene(), Request("d1", "home", "d", None, 0);
    SceneCounts();
    SceneIsCapped();
    hide Scene, Capped;
    RefusalKeepsSessionsIff(ss, DEFAULT_LIMITS, q);
    assert Costs(ss, DEFAULT_LIMITS, q);
  }

  // ------------------------------------------- check and insert taken apart

  /** The table, and the create calls that have passed the global check and not inserted yet. */
  datatype Split = Split(sessions: S.Sessions, checked: set<nat>)

  datatype Move =
    | Check(c: nat)
    | Insert(c: nat, s: S.Session)
    | GiveUp(c: nat)      // refused for the IP, or the build could not be had
    | Update(s: S.Session) // a replacement, or any write by a run; none revives

  predicate Possible(st: Split, m: Move, global: int, n: int) {
    match m
    case Check(c) => c !in st.checked && |st.checked| < n && |S.LiveIds(st.sessions)| < global
    case Insert(c, s) => c in st.checked && s.id !in st.sessions && s.Live()
    case GiveUp(c) => c in st.checked
    case Update(s) => Allowed(st.sessions, Write(s))
  }

  function Make(st: Split, m: Move): Split {
    match m
    case Check(c) => st.(checked := st.checked + {c})
    case Insert(c, s) => Split(st.sessions[s.id := s], st.checked - {c})
    case GiveUp(c) => st.(checked := st.checked - {c})
    case Update(s) => st.(sessions := st.sessions[s.id := s])
  }

  predicate AllPossible(st: Split, ms: seq<Move>, global: int, n: int)
    decreases |ms|
  {
    ms == [] || (Possible(st, ms[0], global, n) && AllPossible(Make(st, ms[0]), ms[1..], global, n))
  }

  function MakeAll(st: Split, ms: seq<Move>): Split
    decreases |ms|
  {
    if ms == [] then st else MakeAll(Make(st, ms[0]), ms[1..])
  }

  /** Sessions there are and sessions there may soon be. */
  function Load(st: Split): int { |S.LiveIds(st.sessions)| + |st.checked| }

  lemma MoveLoad(st: Split, m: Move, global: int, n: int)
    requires Possible(st, m, global, n)
    ensures Load(Make(st, m)) <= if m.Check? then global + n - 1 else Load(st)
  {
    match m
    case Check(c) => assert |st.checked + {c}| == |st.checked| + 1;
    case Insert(c, s) =>
      AddLive(st.sessions, s);
      assert st.checked == (st.checked - {c}) + {c};
    case GiveUp(c) => assert st.checked == (st.checked - {c}) + {c};
    case Update(s) => Smaller(S.LiveIds(st.sessions[s.id := s]), S.LiveIds(st.sessions));
  }

  /** With n creates in flight at once, the live sessions and those in flight never exceed global + n - 1. */
  lemma {:induction false} SplitOvershootsByLess(st: Split, ms: seq<Move>, global: int, n: int)
    requires Load(st) <= global + n - 1 && AllPossible(st, ms, global, n)
    ensures Load(MakeAll(st, ms)) <= global + n - 1
    decreases |ms|
  {
    if ms != [] {
      MoveLoad(st, ms[0], global, n);
      SplitOvershootsByLess(Make(st, ms[0]), ms[1..], global, n);
    }
  }

  lemma {:induction false} MoveOn(st: Split, ms: seq<Move>, m: Move, global: int, n: int)
    requires AllPossible(st, ms, global, n) && Possible(MakeAll(st, ms), m, global, n)
    ensures AllPossible(st, ms + [m], global, n) && MakeAll(st, ms + [m]) == Make(MakeAll(st, ms), m)
    decreases |ms|
  {
    hide Possible, Make;
    if ms == [] {
      assert ms + [m] == [m];
      assert AllPossible(Make(st, m), [], global, n);
    } else {
      assert (ms + [m])[1..] == ms[1..] + [m];
      MoveOn(Make(st, ms[0]), ms[1..], m, global, n);
    }
  }

  function Name(k: nat): string { seq(k, _ => 'x') }

  /** A table of k live sessions with short names. */
  predicate Filled(ss: S.Sessions, k: int) {
    |S.LiveIds(ss)| == k && forall id | id in ss :: |id| < k
  }

  function Visitor(k: nat): S.Session {
    NewSession(Request(Name(k), Name(k), Name(k), None, 1), "b", S.Ready)
  }

  const NOBODY := Split(map[], {})

  lemma {:induction false} Fill(global: int, n: int, k: nat) returns (ms: seq<Move>)
    requires k <= global && n >= 1
    ensures AllPossible(NOBODY, ms, global, n)
    ensures Filled(MakeAll(NOBODY, ms).sessions, k) && MakeAll(NOBODY, ms).checked == {}
  {
    ms := [];
    if k == 0 {
      assert S.LiveIds(NOBODY.sessions) == {};
    } else {
      ms := Fill(global, n, k - 1);
      var st := MakeAll(NOBODY, ms);
      MoveOn(NOBODY, ms, Check(0), global, n);
      ms := ms + [Check(0)];
      var s := Visitor(k - 1);
      AddLive(st.sessions, s);
      MoveOn(NOBODY, ms, Insert(0, s), global, n);
      ms := ms + [Insert(0, s)];
    }
  }

  lemma {:induction false} CheckMany(global: int, n: int, k: nat) returns (ms: seq<Move>)
    requires global >= 1 && k <= n && n >= 1
    ensures AllPossible(NOBODY, ms, global, n)
    ensures var st := MakeAll(NOBODY, ms);
      && Filled(st.sessions, global - 1) && |st.checked| == k && forall c | c in st.checked :: c < k
  {
    if k == 0 {
      ms := Fill(global, n, global - 1);
    } else {
      ms := CheckMany(global, n, k - 1);
      MoveOn(NOBODY, ms, Check(k - 1), global, n);
      ms := ms + [Check(k - 1)];
    }
  }

  lemma {:induction false} InsertMany(global: int, n: int, k: nat) returns (ms: seq<Move>)
    requires global >= 1 && k <= n && n >= 1
    ensures AllPossible(NOBODY, ms, global, n)
    ensures var st := MakeAll(NOBODY, ms); Filled(st.sessions, global - 1 + k) && |st.checked| == n - k
  {
    if k == 0 {
      ms := CheckMany(global, n, n);
    } else {
      ms := InsertMany(global, n, k - 1);
      var st := MakeAll(NOBODY, ms);
      var c :| c in st.checked;
      var s := Visitor(global - 1 + k - 1);
      AddLive(st.sessions, s);
      assert st.checked == (st.checked - {c}) + {c};
      MoveOn(NOBODY, ms, Insert(c, s), global, n);
      ms := ms + [Insert(c, s)];
    }
  }

  /** The bound is reached: for every limit and every n there is a run that ends with global + n - 1 live sessions. */
  lemma OvershootIsReached(global: int, n: int)
    requires global >= 1 && n >= 1
    ensures exists ms :: AllPossible(NOBODY, ms, global, n) && |S.LiveIds(MakeAll(NOBODY, ms).sessions)| == global + n - 1
  {
    var ms := InsertMany(global, n, n);
  }
}
