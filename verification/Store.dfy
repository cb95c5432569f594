/**
 The in-process store. Times are integers; 0 is Go's zero time. Records are values here, which is
 what cloneBuild and the by-value maps of the source give their callers.
 */
module Store {
  import opened Wrappers
  import R = Recipe

  datatype BuildStatus = Queued | Building | Ready | Failed | Unsupported {
    predicate Settled() { Ready? || Failed? || Unsupported? }
  }

  datatype SessionStatus = SPending | SBuilding | SStarting | SLive | SEnded

  datatype Build = Build(id: string, owner: string, repo: string, sha: string, status: BuildStatus, kind: R.Kind,
                         recipe: Option<R.Recipe>, port: int, golden: string, snapshot: string, log: string,
                         error: string, builtAt: Option<int>, lastVisitAt: int, visits: int, createdAt: int,
                         updatedAt: int)

  datatype Session = Session(id: string, buildId: string, device: string, ip: string, sandbox: string,
                             previewUrl: string, status: SessionStatus, terminalReady: bool, extended: bool,
                             createdAt: int, expiresAt: Option<int>, endedReason: string) {
    /** Whether the session still holds, or is about to hold, a sandbox. */
    predicate Live() { status != SEnded }
  }

  type Builds = map<string, Build>
  type Sessions = map<string, Session>

  // ------------------------------------------------------ what operations do

  function Created(b: Build, newId: string, now: int): Build {
    b.(id := if b.id == "" then newId else b.id, createdAt := if b.createdAt == 0 then now else b.createdAt, updatedAt := now)
  }

  /** The record UpdateBuild writes over cur: the caller's, but with the counters of the store. */
  function Merged(b: Build, cur: Build, now: int): Build {
    b.(updatedAt := now, visits := cur.visits, lastVisitAt := cur.lastVisitAt, createdAt := cur.createdAt)
  }

  function Visited(b: Build, at: int): Build { b.(visits := b.visits + 1, lastVisitAt := at) }

  function LiveIds(ss: Sessions): (r: set<string>) { set id | id in ss && ss[id].Live() }

  function DeviceIds(ss: Sessions, device: string): (r: set<string>) {
    set id | id in ss && ss[id].Live() && ss[id].device == device
  }

  function IpIds(ss: Sessions, ip: string): (r: set<string>) { set id | id in ss && ss[id].Live() && ss[id].ip == ip }

  predicate IsCommit(b: Build, owner: string, repo: string, sha: string) {
    b.owner == owner && b.repo == repo && b.sha == sha
  }

  /** How many of ids a scan with rest still to go has met. */
  ghost function Met(ids: set<string>, rest: set<string>): nat { |ids - rest| }

  /** Taking one id out of what is left to scan meets it, if it is one of ids; at the end all are met. */
  lemma MeetOneMore(ids: set<string>, rest: set<string>, id: string)
    requires id in rest
    ensures Met(ids, rest - {id}) == Met(ids, rest) + if id in ids then 1 else 0
    ensures Met(ids, {}) == |ids|
  {
    assert ids - (rest - {id}) == (ids - rest) + if id in ids then {id} else {};
    assert ids - {} == ids;
  }

  class Memory {
    var builds: Builds
    var sessions: Sessions
    var usage: map<string, int>

    /** Every session is stored under its own id. */
    ghost predicate Keyed()
      reads this
    {
      forall id | id in sessions :: sessions[id].id == id
    }

    constructor ()
      ensures Keyed()
      ensures builds == map[] && sessions == map[] && usage == map[]
    {
      builds, sessions, usage := map[], map[], map[];
    }

    /** newId stands for NewID's random identifier. */
    method CreateBuild(b: Build, newId: string, now: int) returns (stored: Build)
      modifies this`builds
      ensures stored == Created(b, newId, now) && builds == old(builds)[stored.id := stored]
      ensures stored.id == (if b.id != "" then b.id else newId) && stored.updatedAt == now
      ensures stored.createdAt == (if b.createdAt != 0 then b.createdAt else now)
      ensures stored.(id := b.id, createdAt := b.createdAt, updatedAt := b.updatedAt) == b
    {
      stored := b;
      if stored.id == "" {
        stored := stored.(id := newId);
      }
      if stored.createdAt == 0 {
        stored := stored.(createdAt := now);
      }
      stored := stored.(updatedAt := now);
      builds := builds[stored.id := stored];
    }

    method UpdateBuild(b: Build, now: int) returns (stored: Option<Build>)
      modifies this`builds
      ensures b.id !in old(builds) ==> stored == None && builds == old(builds)
      ensures b.id in old(builds) ==>
        stored == Some(Merged(b, old(builds)[b.id], now)) && builds == old(builds)[b.id := stored.value]
    {
      if b.id !in builds {
        return None;
      }
      var cur := builds[b.id];
      var next := b.(updatedAt := now);
      next := next.(visits := cur.visits, lastVisitAt := cur.lastVisitAt, createdAt := cur.createdAt);
      builds := builds[b.id := next];
      return Some(next);
    }

    method GetBuild(id: string) returns (r: Option<Build>)
      ensures r == if id in builds then Some(builds[id]) else None
    {
      return if id in builds then Some(builds[id]) else None;
    }

    method GetBuildBySHA(owner: string, repo: string, sha: string) returns (r: Option<Build>)
      ensures r.Some? ==> r.value in builds.Values && IsCommit(r.value, owner, repo, sha)
      ensures r.None? ==> forall id | id in builds :: !IsCommit(builds[id], owner, repo, sha)
    {
      var rest := builds.Keys;
      while rest != {}
        invariant rest <= builds.Keys
        invariant forall id | id in builds && id !in rest :: !IsCommit(builds[id], owner, repo, sha)
        decreases rest
      {
        var id :| id in rest;
        if IsCommit(builds[id], owner, repo, sha) {
          return Some(builds[id]);
        }
        rest := rest - {id};
      }
      return None;
    }

    method LatestBuild(owner: string, repo: string) returns (best: Option<Build>)
      ensures best.None? ==> forall id | id in builds :: !(builds[id].owner == owner && builds[id].repo == repo)
      ensures best.Some? ==>
        && best.value in builds.Values && best.value.owner == owner && best.value.repo == repo
        && forall id | id in builds && builds[id].owner == owner && builds[id].repo == repo ::
             builds[id].createdAt <= best.value.createdAt
    {
      best := None;
      var rest := builds.Keys;
      while rest != {}
        invariant rest <= builds.Keys
        invariant best.None? ==>
          forall id | id in builds && id !in rest :: !(builds[id].owner == owner && builds[id].repo == repo)
        invariant best.Some? ==>
          && best.value in builds.Values && best.value.owner == owner && best.value.repo == repo
          && forall id | id in builds && id !in rest && builds[id].owner == owner && builds[id].repo == repo ::
               builds[id].createdAt <= best.value.createdAt
        decreases rest
      {
        var id :| id in rest;
        var b := builds[id];
        if b.owner == owner && b.repo == repo && (best.None? || b.createdAt > best.value.createdAt) {
          best := Some(b);
        }
        rest := rest - {id};
      }
    }

    method RecordVisit(id: string, at: int) returns (ok: bool)
      modifies this`builds
      ensures ok == (id in old(builds))
      ensures builds == if ok then old(builds)[id := Visited(old(builds)[id], at)] else old(builds)
    {
      if id !in builds {
        return false;
      }
      var b := builds[id];
      b := b.(visits := b.visits + 1);
      b := b.(lastVisitAt := at);
      builds := builds[id := b];
      return true;
    }

    method CreateSession(s: Session, newId: string, now: int) returns (stored: Session)
      modifies this`sessions
      ensures stored == s.(id := if s.id == "" then newId else s.id,
                           createdAt := if s.createdAt == 0 then now else s.createdAt)
      ensures sessions == old(sessions)[stored.id := stored]
      ensures old(Keyed()) ==> Keyed()
    {
      stored := s;
      if stored.id == "" {
        stored := stored.(id := newId);
      }
      if stored.createdAt == 0 {
        stored := stored.(createdAt := now);
      }
      sessions := sessions[stored.id := stored];
    }

    method UpdateSession(s: Session) returns (ok: bool)
      modifies this`sessions
      ensures ok == (s.id in old(sessions))
      ensures sessions == if ok then old(sessions)[s.id := s] else old(sessions)
      ensures old(Keyed()) ==> Keyed()
    {
      if s.id !in sessions {
        return false;
      }
      sessions := sessions[s.id := s];
      return true;
    }

    method GetSession(id: string) returns (r: Option<Session>)
      ensures r == if id in sessions then Some(sessions[id]) else None
    {
      return if id in sessions then Some(sessions[id]) else None;
    }

    /** The body of the counting loop. */
    method CountSession(s: Session, device: string, ip: string, byDevice: nat, byIp: nat, total: nat)
        returns (d: nat, i: nat, t: nat)
      ensures d == byDevice + if s.Live() && s.device == device then 1 else 0
      ensures i == byIp + if s.Live() && s.ip == ip then 1 else 0
      ensures t == total + if s.Live() then 1 else 0
    {
      d, i, t := byDevice, byIp, total;
      if !s.Live() {
        return;
      }
      t := t + 1;
      if s.device == device {
        d := d + 1;
      }
      if s.ip == ip {
        i := i + 1;
      }
    }

    /** Counts the sessions not yet ended for a device, for an IP, and overall. */
    method LiveSessions(device: string, ip: string) returns (byDevice: nat, byIp: nat, total: nat)
      ensures byDevice == |DeviceIds(sessions, device)|
      ensures byIp == |IpIds(sessions, ip)|
      ensures total == |LiveIds(sessions)|
    {
      byDevice, byIp, total := 0, 0, 0;
      ghost var dev, ips, live := DeviceIds(sessions, device), IpIds(sessions, ip), LiveIds(sessions);
      var rest := sessions.Keys;
      while rest != {}
        invariant rest <= sessions.Keys
        invariant byDevice == Met(dev, rest) && byIp == Met(ips, rest) && total == Met(live, rest)
        decreases rest
      {
        var id :| id in rest;
        MeetOneMore(dev, rest, id);
        MeetOneMore(ips, rest, id);
        MeetOneMore(live, rest, id);
        rest := rest - {id};
        byDevice, byIp, total := CountSession(sessions[id], device, ip, byDevice, byIp, total);
      }
      assert dev - {} == dev && ips - {} == ips && live - {} == live;
    }

    /** The device's sessions that have not ended, in no particular order. */
    method LiveSessionsForDevice(device: string) returns (out: seq<Session>)
      requires Keyed()
      ensures forall s | s in out :: s.id in sessions && sessions[s.id] == s
      ensures (set s | s in out :: s.id) == DeviceIds(sessions, device)
      ensures |out| == |DeviceIds(sessions, device)|
    {
      out := [];
      var rest := sessions.Keys;
      ghost var taken: set<string> := {};
      while rest != {}
        invariant rest <= sessions.Keys
        invariant taken == (set id | id in DeviceIds(sessions, device) && id !in rest) && |out| == |taken|
        invariant forall s | s in out :: s.id in taken && sessions[s.id] == s
        invariant forall id | id in taken :: sessions[id] in out
        decreases rest
      {
        var id :| id in rest;
        var s := sessions[id];
        if s.Live() && s.device == device {
          out, taken := out + [s], taken + {id};
        }
        rest := rest - {id};
      }
      assert taken == DeviceIds(sessions, device);
      forall id | id in taken ensures id in set s | s in out :: s.id {
        assert sessions[id] in out && sessions[id].id == id;
      }
    }

    method IncrUsage(key: string, n: int) returns (count: int)
      modifies this`usage
      ensures usage == Counted(old(usage), Use(key, n)) && count == Total(usage, key)
    {
      count := (if key in usage then usage[key] else 0) + n;
      usage := usage[key := count];
    }
  }

  // ------------------------------------------------------- usage counters

  datatype Use = Use(key: string, n: int)

  /** A counter nobody has touched stands at 0. */
  function Total(usage: map<string, int>, key: string): int { if key in usage then usage[key] else 0 }

  function Counted(usage: map<string, int>, u: Use): map<string, int> { usage[u.key := Total(usage, u.key) + u.n] }

  function CountedAll(usage: map<string, int>, us: seq<Use>): map<string, int> {
    if us == [] then usage else Counted(CountedAll(usage, us[..|us| - 1]), us[|us| - 1])
  }

  function Sum(us: seq<Use>, key: string): int {
    if us == [] then 0
    else Sum(us[..|us| - 1], key) + if us[|us| - 1].key == key then us[|us| - 1].n else 0
  }

  /** Every counter is what it was plus the increments under its own key, whatever was counted under others. */
  lemma {:induction false} UsageIsSum(usage: map<string, int>, us: seq<Use>, key: string)
    ensures Total(CountedAll(usage, us), key) == Total(usage, key) + Sum(us, key)
  {
    if us != [] {
      UsageIsSum(usage, us[..|us| - 1], key);
    }
  }

  // ------------------------------------------------------- visit counters

  /** A write to the build table; an update carries whatever stale copy its caller holds. */
  datatype BuildOp = Create(b: Build) | Update(stale: Build, now: int) | Visit(id: string, at: int)

  function ApplyOp(bs: Builds, op: BuildOp): Builds {
    match op
    case Create(b) => bs[b.id := b]
    case Update(b, now) => if b.id in bs then bs[b.id := Merged(b, bs[b.id], now)] else bs
    case Visit(id, at) => if id in bs then bs[id := Visited(bs[id], at)] else bs
  }

  function ApplyOps(bs: Builds, ops: seq<BuildOp>): Builds {
    if ops == [] then bs else ApplyOp(ApplyOps(bs, ops[..|ops| - 1]), ops[|ops| - 1])
  }

  function VisitTimes(ops: seq<BuildOp>, id: string): seq<int> {
    if ops == [] then []
    else
      var last := ops[|ops| - 1];
      VisitTimes(ops[..|ops| - 1], id) + if last.Visit? && last.id == id then [last.at] else []
  }

  /**
   Visit conservation: whatever stale copies builders write back in between, a build's counter is
   its starting value plus its visits, its last visit is the latest recorded one, and its creation
   time never moves. Other builds may be created and written freely.
   */
  lemma {:induction false} VisitsAreConserved(bs: Builds, ops: seq<BuildOp>, id: string)
    requires id in bs
    requires forall op | op in ops :: op.Create? ==> op.b.id != id
    ensures var end := ApplyOps(bs, ops); var times := VisitTimes(ops, id);
      && id in end
      && end[id].visits == bs[id].visits + |times|
      && end[id].lastVisitAt == (if times == [] then bs[id].lastVisitAt else times[|times| - 1])
      && end[id].createdAt == bs[id].createdAt
  {
    if ops != [] {
      VisitsAreConserved(bs, ops[..|ops| - 1], id);
      assert ops[|ops| - 1] in ops;
    }
  }

  function Names(op: BuildOp): string {
    match op
    case Create(b) => b.id
    case Update(b, _) => b.id
    case Visit(id, _) => id
  }

  /** A read gives the last write under its id: writes and visits of other builds do not touch it. */
  lemma {:induction false} OthersLeaveItAlone(bs: Builds, ops: seq<BuildOp>, id: string)
    requires forall op | op in ops :: Names(op) != id
    ensures id in ApplyOps(bs, ops) <==> id in bs
    ensures id in bs ==> ApplyOps(bs, ops)[id] == bs[id]
  {
    if ops != [] {
      OthersLeaveItAlone(bs, ops[..|ops| - 1], id);
      assert ops[|ops| - 1] in ops;
    }
  }

  /** Everything in a record but what the store counts itself. */
  function Text(b: Build): Build { b.(visits := 0, lastVisitAt := 0, createdAt := 0) }

  /** Visits, and operations on other builds. */
  predicate Spares(ops: seq<BuildOp>, id: string) { forall op | op in ops :: Names(op) == id ==> op.Visit? }

  lemma {:induction false} SparedTextStays(bs: Builds, ops: seq<BuildOp>, id: string)
    requires id in bs && Spares(ops, id)
    ensures id in ApplyOps(bs, ops) && Text(ApplyOps(bs, ops)[id]) == Text(bs[id])
  {
    if ops != [] {
      assert ops[|ops| - 1] in ops;
      SparedTextStays(bs, ops[..|ops| - 1], id);
    }
  }

  lemma {:induction false} OpsConcat(bs: Builds, a: seq<BuildOp>, b: seq<BuildOp>)
    ensures ApplyOps(bs, a + b) == ApplyOps(ApplyOps(bs, a), b)
    decreases |b|
  {
    if b == [] {
      assert a + b == a;
    } else {
      assert (a + b)[..|a + b| - 1] == a + b[..|b| - 1];
      OpsConcat(bs, a, b[..|b| - 1]);
    }
  }

  /**
   A read gives what the last update of a known build wrote, in every field but the store's own counters,
   whatever visits and operations on other builds follow.
   */
  lemma LastWriteIsRead(bs: Builds, before: seq<BuildOp>, b: Build, now: int, after: seq<BuildOp>)
    requires b.id in ApplyOps(bs, before) && Spares(after, b.id)
    ensures var end := ApplyOps(bs, before + [Update(b, now)] + after);
      b.id in end && Text(end[b.id]) == Text(b).(updatedAt := now)
  {
    OpsConcat(bs, before + [Update(b, now)], after);
    OpsConcat(bs, before, [Update(b, now)]);
    var mid := ApplyOps(bs, before);
    assert [Update(b, now)][..0] == [];
    assert ApplyOps(mid, [Update(b, now)]) == ApplyOp(mid, Update(b, now));
    SparedTextStays(ApplyOp(mid, Update(b, now)), after, b.id);
  }

  /** A visit to a build that does not exist changes nothing, and is the only kind that fails. */
  lemma FailedVisitChangesNothing(bs: Builds, id: string, at: int)
    ensures ApplyOp(bs, Visit(id, at)) == bs <==> id !in bs
  {
    if id in bs {
      assert ApplyOp(bs, Visit(id, at))[id].visits != bs[id].visits;
    }
  }
}
