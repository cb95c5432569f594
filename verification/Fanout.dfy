/**
 The event log and its subscribers as a transition system. Each action is one critical section or
 one channel operation of the program; a run is any interleaving of enabled actions.
 */
module FanoutProtocol {
  /** The capacity of a subscriber's output channel. */
  const CAPACITY := 64

  /**
   Where a subscriber goroutine stands: about to look at the log, holding an event it has to send,
   waiting for a wake token, returned but still registered, unregistered, and with its channel closed.
   */
  datatype Pc = Scan | Holding | Waiting | Exiting | Detached | Closed

  datatype Sub<T> = Sub(
    pc: Pc,
    cursor: nat,
    token: bool,      // the one-place wake channel
    hand: seq<T>,     // the event taken from the log and not sent, if any
    out: seq<T>,      // the buffered output channel
    received: seq<T>, // what the consumer has taken
    cancelled: bool)  // the subscriber's context has ended

  datatype State<T> = State(events: seq<T>, done: bool, subs: seq<Sub<T>>)

  /** What a subscriber's goroutine does next, or its consumer for Receive. */
  datatype Step =
    | Look        // the locked section of the subscriber loop
    | Send
    | Abort       // the context case of either select
    | Wake
    | Unregister
    | CloseOut
    | Receive     // the consumer takes one event, also after the close

  datatype Action<T> = Emit(ev: T) | Finish | Subscribe | Cancel(i: nat) | Own(i: nat, step: Step) {
    predicate By(j: nat) { Own? && i == j }
  }

  predicate Left(pc: Pc) { pc.Exiting? || pc.Detached? || pc.Closed? }

  predicate Registered(pc: Pc) { !pc.Detached? && !pc.Closed? }

  function Nudge<T>(u: Sub<T>): Sub<T> { if Registered(u.pc) then u.(token := true) else u }

  function NudgeAll<T>(subs: seq<Sub<T>>): (r: seq<Sub<T>>)
    ensures |r| == |subs| && forall i | 0 <= i < |subs| :: r[i] == Nudge(subs[i])
  {
    seq(|subs|, i requires 0 <= i < |subs| => Nudge(subs[i]))
  }

  function NewSub<T>(): Sub<T> { Sub(Scan, 0, false, [], [], [], false) }

  predicate CanStep<T>(u: Sub<T>, step: Step) {
    match step
    case Look => u.pc.Scan?
    case Send => u.pc.Holding? && |u.out| < CAPACITY
    case Abort => u.cancelled && (u.pc.Holding? || u.pc.Waiting?)
    case Wake => u.pc.Waiting? && u.token
    case Unregister => u.pc.Exiting?
    case CloseOut => u.pc.Detached?
    case Receive => u.out != []
  }

  predicate Enabled<T>(s: State<T>, a: Action<T>) {
    match a
    case Emit(_) => true
    case Finish => true
    case Subscribe => true
    case Cancel(i) => i < |s.subs|
    case Own(i, step) => i < |s.subs| && CanStep(s.subs[i], step)
  }

  /** The subscriber loop under the lock: take the next event, or leave when done, or go to wait. */
  function Looked<T>(u: Sub<T>, events: seq<T>, done: bool): Sub<T> {
    if u.cursor < |events| then u.(pc := Holding, hand := [events[u.cursor]], cursor := u.cursor + 1)
    else u.(pc := if done then Exiting else Waiting)
  }

  function Stepped<T>(u: Sub<T>, events: seq<T>, done: bool, step: Step): Sub<T>
    requires CanStep(u, step)
  {
    match step
    case Look => Looked(u, events, done)
    case Send => u.(pc := Scan, out := u.out + u.hand, hand := [])
    case Abort => u.(pc := Exiting)
    case Wake => u.(pc := Scan, token := false)
    case Unregister => u.(pc := Detached)
    case CloseOut => u.(pc := Closed)
    case Receive => u.(received := u.received + [u.out[0]], out := u.out[1..])
  }

  function Apply<T>(s: State<T>, a: Action<T>): State<T>
    requires Enabled(s, a)
  {
    match a
    case Emit(ev) => s.(events := s.events + [ev], subs := NudgeAll(s.subs))
    case Finish => s.(done := true, subs := NudgeAll(s.subs))
    case Subscribe => s.(subs := s.subs + [NewSub()])
    case Cancel(i) => s.(subs := s.subs[i := s.subs[i].(cancelled := true)])
    case Own(i, step) => s.(subs := s.subs[i := Stepped(s.subs[i], s.events, s.done, step)])
  }

  function Empty<T>(): State<T> { State([], false, []) }

  predicate Executable<T>(s: State<T>, acts: seq<Action<T>>)
    decreases |acts|
  {
    acts == [] || (Enabled(s, acts[0]) && Executable(Apply(s, acts[0]), acts[1..]))
  }

  function Exec<T>(s: State<T>, acts: seq<Action<T>>): State<T>
    requires Executable(s, acts)
    decreases |acts|
  {
    if acts == [] then s else Exec(Apply(s, acts[0]), acts[1..])
  }

  // ---------------------------------------------------------------- safety

  /** What a subscriber's consumer has taken or will find in the channel. */
  function Delivered<T>(u: Sub<T>): seq<T> { u.received + u.out }

  ghost predicate SubInv<T>(u: Sub<T>, events: seq<T>, done: bool) {
    && u.cursor <= |events|
    && u.received + u.out + u.hand == events[..u.cursor]
    && |u.out| <= CAPACITY
    && (u.pc.Holding? ==> |u.hand| == 1)
    && (u.pc.Scan? || u.pc.Waiting? ==> u.hand == [])
    && (Left(u.pc) && !u.cancelled ==> done && u.hand == [])
    && (u.pc.Waiting? && (u.cursor < |events| || done) ==> u.token)
  }

  /** Exactly-once in-order delivery up to the cursor, and no lost wakeup, for every subscriber. */
  ghost predicate Inv<T>(s: State<T>) {
    forall i | 0 <= i < |s.subs| :: SubInv(s.subs[i], s.events, s.done)
  }

  lemma StepKeepsSubInv<T>(u: Sub<T>, events: seq<T>, done: bool, step: Step)
    requires SubInv(u, events, done) && CanStep(u, step)
    ensures SubInv(Stepped(u, events, done, step), events, done)
  {
    match step
    case Look =>
      if u.cursor < |events| {
        assert events[..u.cursor + 1] == events[..u.cursor] + [events[u.cursor]];
        assert u.hand == [];
        assert u.received + u.out + [events[u.cursor]] == events[..u.cursor + 1];
      }
    case Send =>
      assert u.received + (u.out + u.hand) + [] == u.received + u.out + u.hand;
    case Receive =>
      assert u.out == [u.out[0]] + u.out[1..];
      assert u.received + [u.out[0]] + u.out[1..] == u.received + u.out;
    case _ =>
  }

  lemma ActionKeepsInv<T>(s: State<T>, a: Action<T>)
    requires Inv(s) && Enabled(s, a)
    ensures Inv(Apply(s, a))
    ensures s.events <= Apply(s, a).events && |s.subs| <= |Apply(s, a).subs|
  {
    var s' := Apply(s, a);
    forall i | 0 <= i < |s'.subs| ensures SubInv(s'.subs[i], s'.events, s'.done) {
      if i < |s.subs| {
        var u := s.subs[i];
        assert SubInv(u, s.events, s.done);
        assert s'.events[..u.cursor] == s.events[..u.cursor];
        if a.Own? && a.i == i {
          StepKeepsSubInv(u, s.events, s.done, a.step);
        }
      }
    }
  }

  lemma {:induction false} RunKeepsInv<T>(s: State<T>, acts: seq<Action<T>>)
    requires Inv(s) && Executable(s, acts)
    ensures Inv(Exec(s, acts)) && s.events <= Exec(s, acts).events && |s.subs| <= |Exec(s, acts).subs|
    decreases |acts|
  {
    if acts != [] {
      ActionKeepsInv(s, acts[0]);
      RunKeepsInv(Apply(s, acts[0]), acts[1..]);
    }
  }

  /**
   In every run from the empty log, what a subscriber has received, has buffered and holds is the
   history up to its cursor, and the streams of any two subscribers are prefixes of one another.
   */
  lemma ExactlyOnceInOrder<T>(acts: seq<Action<T>>, i: nat, j: nat)
    requires Executable(Empty<T>(), acts)
    requires i < |Exec(Empty<T>(), acts).subs| && j < |Exec(Empty<T>(), acts).subs|
    ensures var s := Exec(Empty<T>(), acts);
      && s.subs[i].cursor <= |s.events|
      && s.subs[i].received + s.subs[i].out + s.subs[i].hand == s.events[..s.subs[i].cursor]
      && Delivered(s.subs[i]) <= s.events
      && (Delivered(s.subs[i]) <= Delivered(s.subs[j]) || Delivered(s.subs[j]) <= Delivered(s.subs[i]))
  {
    RunKeepsInv(Empty<T>(), acts);
    var s := Exec(Empty<T>(), acts);
    assert SubInv(s.subs[i], s.events, s.done) && SubInv(s.subs[j], s.events, s.done);
  }

  /** No lost wakeup: whoever waits while there is something to do has a token to be woken by. */
  lemma NoLostWakeup<T>(acts: seq<Action<T>>, i: nat)
    requires Executable(Empty<T>(), acts) && i < |Exec(Empty<T>(), acts).subs|
    ensures var s := Exec(Empty<T>(), acts);
      s.subs[i].pc.Waiting? && (s.subs[i].cursor < |s.events| || s.done) ==> Enabled(s, Own(i, Wake))
  {
    RunKeepsInv(Empty<T>(), acts);
    var s := Exec(Empty<T>(), acts);
    assert SubInv(s.subs[i], s.events, s.done);
  }

  // ----------------------------------------------------- nothing is missed

  /** No subscriber has left on its own before having taken the first n events. */
  ghost predicate Pinned<T>(s: State<T>, n: nat) {
    && n <= |s.events|
    && forall i | 0 <= i < |s.subs| :: Left(s.subs[i].pc) && !s.subs[i].cancelled ==> s.subs[i].cursor >= n
  }

  lemma {:induction false} RunKeepsPinned<T>(s: State<T>, acts: seq<Action<T>>, n: nat)
    requires Inv(s) && Pinned(s, n) && Executable(s, acts)
    ensures Pinned(Exec(s, acts), n)
    decreases |acts|
  {
    if acts != [] {
      ActionKeepsInv(s, acts[0]);
      forall i | 0 <= i < |s.subs| ensures SubInv(s.subs[i], s.events, s.done) {}
      RunKeepsPinned(Apply(s, acts[0]), acts[1..], n);
    }
  }

  lemma {:induction false} ExecConcat<T>(s: State<T>, a: seq<Action<T>>, b: seq<Action<T>>)
    requires Executable(s, a + b)
    ensures Executable(s, a) && Executable(Exec(s, a), b) && Exec(Exec(s, a), b) == Exec(s, a + b)
    decreases |a|
  {
    hide Enabled, Apply;
    if a == [] {
      assert a + b == b;
    } else {
      assert (a + b)[0] == a[0] && (a + b)[1..] == a[1..] + b;
      ExecConcat(Apply(s, a[0]), a[1..], b);
    }
  }

  lemma ExecSplit<T>(s: State<T>, acts: seq<Action<T>>, n: nat)
    requires Executable(s, acts) && n <= |acts|
    ensures Executable(s, acts[..n]) && Executable(Exec(s, acts[..n]), acts[n..])
    ensures Exec(Exec(s, acts[..n]), acts[n..]) == Exec(s, acts)
  {
    assert acts == acts[..n] + acts[n..];
    hide Exec, Executable;
    ExecConcat(s, acts[..n], acts[n..]);
  }

  /** Before Finish, nobody has left of their own accord. */
  lemma NobodyLeftYet<T>(s: State<T>)
    requires Inv(s) && !s.done
    ensures Pinned(s, |s.events|)
  {
    forall k | 0 <= k < |s.subs| ensures Left(s.subs[k].pc) ==> s.subs[k].cancelled {
      assert SubInv(s.subs[k], s.events, s.done);
    }
  }

  /**
   In any run at all, a subscriber that leaves without its context having ended leaves a finished log,
   and has been given every event the log held at any moment before Finish.
   */
  lemma FinishLosesNothing<T>(acts: seq<Action<T>>, n: nat, i: nat)
    requires Executable(Empty<T>(), acts) && n <= |acts| && i < |Exec(Empty<T>(), acts).subs|
    ensures Executable(Empty<T>(), acts[..n])
    ensures var s, t := Exec(Empty<T>(), acts[..n]), Exec(Empty<T>(), acts); var u := t.subs[i];
      Left(u.pc) && !u.cancelled ==> t.done && (!s.done ==> s.events <= Delivered(u))
  {
    ExecSplit(Empty<T>(), acts, n);
    var s, t := Exec(Empty<T>(), acts[..n]), Exec(Empty<T>(), acts);
    RunKeepsInv(Empty<T>(), acts[..n]);
    RunKeepsInv(s, acts[n..]);
    assert SubInv(t.subs[i], t.events, t.done);
    if !s.done {
      NobodyLeftYet(s);
      RunKeepsPinned(s, acts[n..], |s.events|);
      AllOfPrefix(s, t, i);
    }
  }

  lemma AllOfPrefix<T>(s: State<T>, t: State<T>, i: nat)
    requires Inv(t) && i < |t.subs| && s.events <= t.events && Pinned(t, |s.events|)
    ensures Left(t.subs[i].pc) && !t.subs[i].cancelled ==> s.events <= Delivered(t.subs[i])
  {
    var u := t.subs[i];
    assert SubInv(u, t.events, t.done);
    if Left(u.pc) && !u.cancelled {
      assert Delivered(u) == t.events[..u.cursor];
    }
  }

  // --------------------------------------------------------------- leaving

  /** Once it has left, a subscriber does not come back. */
  lemma {:induction false} LeftForGood<T>(s: State<T>, acts: seq<Action<T>>, i: nat)
    requires Executable(s, acts) && i < |s.subs| && Left(s.subs[i].pc)
    ensures i < |Exec(s, acts).subs| && Left(Exec(s, acts).subs[i].pc)
    decreases |acts|
  {
    if acts != [] {
      LeftForGood(Apply(s, acts[0]), acts[1..], i);
    }
  }

  /** The steps of one subscriber, in order. */
  function Steps<T>(i: nat, steps: seq<Step>): seq<Action<T>> {
    if steps == [] then [] else [Own(i, steps[0])] + Steps(i, steps[1..])
  }

  lemma ThenStep<T>(s: State<T>, i: nat, step: Step, rest: seq<Step>)
    requires i < |s.subs| && CanStep(s.subs[i], step) && Executable(Apply(s, Own(i, step)), Steps(i, rest))
    ensures Executable(s, Steps(i, [step] + rest))
    ensures Exec(s, Steps(i, [step] + rest)) == Exec(Apply(s, Own(i, step)), Steps(i, rest))
  {
    assert ([step] + rest)[1..] == rest;
    var acts: seq<Action<T>> := [Own(i, step)] + Steps(i, rest);
    assert acts[1..] == Steps(i, rest);
    hide CanStep, Apply;
  }

  /** Only subscriber i has changed, and it has gone. */
  ghost predicate Departed<T>(s: State<T>, t: State<T>, i: nat) {
    && t.events == s.events && t.done == s.done && |t.subs| == |s.subs| && i < |s.subs|
    && t.subs[i].pc.Closed? && !Registered(t.subs[i].pc)
    && t.subs[i].received == s.subs[i].received && t.subs[i].out == s.subs[i].out
    && forall k | 0 <= k < |s.subs| && k != i :: t.subs[k] == s.subs[k]
  }

  lemma ClosesAfterExit<T>(s: State<T>, i: nat)
    requires i < |s.subs| && s.subs[i].pc.Exiting?
    ensures Executable(s, Steps(i, [Unregister, CloseOut])) && Departed(s, Exec(s, Steps(i, [Unregister, CloseOut])), i)
  {
    var u := Apply(s, Own(i, Unregister));
    var v := Apply(u, Own(i, CloseOut));
    assert Steps<T>(i, []) == [] && Executable(v, []) && Exec(v, []) == v;
    ThenStep(u, i, CloseOut, []);
    ThenStep(s, i, Unregister, [CloseOut]);
    assert [Unregister] + [CloseOut] == [Unregister, CloseOut] && [CloseOut] + [] == [CloseOut];
    hide Executable, Exec;
  }

  /**
   A subscriber whose context has ended can leave from wherever it waits or holds an event, whether or not
   the log is finished, and without anyone's help: it returns, unregisters and closes its channel.
   */
  lemma CancelledLeaves<T>(s: State<T>, i: nat)
    requires i < |s.subs| && s.subs[i].cancelled && (s.subs[i].pc.Holding? || s.subs[i].pc.Waiting?)
    ensures Executable(s, Steps(i, [Abort, Unregister, CloseOut]))
    ensures Departed(s, Exec(s, Steps(i, [Abort, Unregister, CloseOut])), i)
  {
    var u := Apply(s, Own(i, Abort));
    ClosesAfterExit(u, i);
    ThenStep(s, i, Abort, [Unregister, CloseOut]);
    assert [Abort] + [Unregister, CloseOut] == [Abort, Unregister, CloseOut];
    hide Executable, Exec;
  }

  /** If it was about to look at the log, it does that first. */
  lemma CancelledLooksAndLeaves<T>(s: State<T>, i: nat)
    requires i < |s.subs| && s.subs[i].cancelled && s.subs[i].pc.Scan?
    ensures var u := Apply(s, Own(i, Look));
      u.subs[i].cancelled && (u.subs[i].pc.Holding? || u.subs[i].pc.Waiting? || u.subs[i].pc.Exiting?)
    ensures exists steps ::
      && 3 <= |steps| <= 4 && steps[0] == Look && Executable(s, Steps(i, steps))
      && i < |Exec(s, Steps(i, steps)).subs| && Exec(s, Steps(i, steps)).subs[i].pc.Closed?
  {
    var u := Apply(s, Own(i, Look));
    var rest := if u.subs[i].pc.Exiting? then [Unregister, CloseOut] else [Abort, Unregister, CloseOut];
    if u.subs[i].pc.Exiting? {
      ClosesAfterExit(u, i);
    } else {
      CancelledLeaves(u, i);
    }
    ThenStep(s, i, Look, rest);
    var steps := [Look] + rest;
    assert steps[0] == Look;
    hide Executable, Exec;
  }

  // ----------------------------------------------------------------- drain

  function Rank(pc: Pc): nat {
    match pc
    case Closed => 0
    case Detached => 1
    case Exiting => 2
    case Scan => 3
    case Waiting => 4
    case Holding => 5
  }

  /** How many more steps a subscriber and its consumer can take once the log is done. */
  function Measure<T>(s: State<T>, i: nat): int
    requires i < |s.subs|
  {
    4 * (|s.events| - s.subs[i].cursor) + |s.subs[i].out| + Rank(s.subs[i].pc)
  }

  function StepsBy<T>(acts: seq<Action<T>>, i: nat): nat {
    if acts == [] then 0 else (if acts[0].By(i) then 1 else 0) + StepsBy(acts[1..], i)
  }

  /** With the log done and nothing emitted, every step of a subscriber lowers its measure and no other raises it. */
  lemma StepLowersMeasure<T>(s: State<T>, a: Action<T>, i: nat)
    requires Inv(s) && s.done && Enabled(s, a) && !a.Emit? && i < |s.subs|
    ensures Measure(Apply(s, a), i) <= Measure(s, i) - (if a.By(i) then 1 else 0)
    ensures Apply(s, a).done && Apply(s, a).events == s.events
  {
    assert SubInv(s.subs[i], s.events, s.done);
  }

  /** A subscriber that has not closed and been emptied can always take a step. */
  lemma NotDrainedCanStep<T>(s: State<T>, i: nat)
    requires Inv(s) && s.done && i < |s.subs|
    requires !(s.subs[i].pc.Closed? && s.subs[i].out == [])
    ensures exists a: Action<T> :: a.By(i) && Enabled(s, a)
  {
    var u := s.subs[i];
    assert SubInv(u, s.events, s.done);
    var step := match u.pc
      case Scan => Look
      case Waiting => Wake
      case Exiting => Unregister
      case Detached => CloseOut
      case Holding => if |u.out| < CAPACITY then Send else Receive
      case Closed => Receive;
    var a: Action<T> := Own(i, step);
    assert a.By(i) && Enabled(s, a);
  }

  /**
   Guaranteed drain: after Finish and with no further emits, a subscriber and its consumer take at
   most Measure steps in any run, and once they can take none the channel is closed and empty and an
   uncancelled subscriber's consumer holds the whole history.
   */
  lemma {:induction false} FinishedLogDrains<T>(s: State<T>, acts: seq<Action<T>>, i: nat)
    requires Inv(s) && s.done && Executable(s, acts) && i < |s.subs|
    requires forall a | a in acts :: !a.Emit?
    requires Pinned(s, |s.events|)
    ensures var t := Exec(s, acts);
      && i < |t.subs|
      && 0 <= Measure(t, i) <= Measure(s, i) - StepsBy(acts, i)
      && ((forall a: Action<T> | a.By(i) :: !Enabled(t, a)) ==>
            && t.subs[i].pc.Closed? && t.subs[i].out == []
            && (!t.subs[i].cancelled ==> t.subs[i].received == s.events))
    decreases |acts|
  {
    assert SubInv(s.subs[i], s.events, s.done);
    if acts == [] {
      if forall a: Action<T> | a.By(i) :: !Enabled(s, a) {
        if !(s.subs[i].pc.Closed? && s.subs[i].out == []) {
          NotDrainedCanStep(s, i);
        }
      }
    } else {
      assert acts[0] in acts;
      ActionKeepsInv(s, acts[0]);
      StepLowersMeasure(s, acts[0], i);
      assert Executable(Apply(s, acts[0]), []);
      RunKeepsPinned(s, [acts[0]], |s.events|);
      assert Exec(s, [acts[0]]) == Apply(s, acts[0]);
      FinishedLogDrains(Apply(s, acts[0]), acts[1..], i);
    }
  }

  /**
   From the start: whatever happens before the first Finish, and whatever but emits after it, from any
   moment on a subscriber drains as above.
   */
  lemma FinishedRunDrains<T>(before: seq<Action<T>>, mid: seq<Action<T>>, after: seq<Action<T>>, i: nat)
    requires Executable(Empty<T>(), before) && !Exec(Empty<T>(), before).done
    requires var f := Apply(Exec(Empty<T>(), before), Finish);
      Executable(f, mid) && Executable(Exec(f, mid), after) && i < |Exec(f, mid).subs|
    requires forall a | a in mid || a in after :: !a.Emit?
    ensures var f := Apply(Exec(Empty<T>(), before), Finish); var s := Exec(f, mid); var t := Exec(s, after);
      && i < |t.subs|
      && 0 <= Measure(t, i) <= Measure(s, i) - StepsBy(after, i)
      && ((forall a: Action<T> | a.By(i) :: !Enabled(t, a)) ==>
            && t.subs[i].pc.Closed? && t.subs[i].out == []
            && (!t.subs[i].cancelled ==> t.subs[i].received == Exec(Empty<T>(), before).events))
  {
    var s := Exec(Empty<T>(), before);
    RunKeepsInv(Empty<T>(), before);
    NobodyLeftYet(s);
    ActionKeepsInv(s, Finish);
    var f := Apply(s, Finish);
    assert Pinned(f, |s.events|);
    RunKeepsInv(f, mid);
    RunKeepsPinned(f, mid, |s.events|);
    QuietKeepsDone(f, mid);
    FinishedLogDrains(Exec(f, mid), after, i);
  }

  lemma {:induction false} QuietKeepsDone<T>(s: State<T>, acts: seq<Action<T>>)
    requires s.done && Executable(s, acts) && forall a | a in acts :: !a.Emit?
    ensures Exec(s, acts).done && Exec(s, acts).events == s.events
    decreases |acts|
  {
    if acts != [] {
      assert acts[0] in acts;
      QuietKeepsDone(Apply(s, acts[0]), acts[1..]);
    }
  }
}

/** The log and its subscribers as the mutable objects they are, each method one atomic section. */
module Fanout {
  import opened FanoutProtocol

  class Subscriber<T> {
    var pc: Pc
    var cursor: nat
    var wake: bool
    var hand: seq<T>
    var out: seq<T>
    var received: seq<T>
    var ctxDone: bool

    constructor ()
      ensures View() == NewSub()
    {
      pc, cursor, wake, hand, out, received, ctxDone := Scan, 0, false, [], [], [], false;
    }

    ghost function View(): Sub<T>
      reads this
    {
      Sub(pc, cursor, wake, hand, out, received, ctxDone)
    }

    /** Take the next event; with none left, leave if the log is done, else go to wait. */
    method LookAt(events: seq<T>, done: bool)
      modifies this`pc, this`cursor, this`hand
      ensures View() == Looked(old(View()), events, done) && Registered(pc)
    {
      if cursor < |events| {
        hand := [events[cursor]];
        cursor := cursor + 1;
        pc := Holding;
      } else if done {
        pc := Exiting;
      } else {
        pc := Waiting;
      }
    }
  }

  class Log<T> {
    var events: seq<T>
    var done: bool
    var subs: set<Subscriber<T>>
    /** Every subscriber ever created, in order; subs holds those still registered. */
    ghost var members: seq<Subscriber<T>>

    ghost predicate Valid()
      reads this, members
    {
      && (forall i, j | 0 <= i < j < |members| :: members[i] != members[j])
      && subs == (set u | u in members && Registered(u.pc))
      && Inv(Abs())
    }

    ghost function Abs(): (s: State<T>)
      reads this, members
      ensures s.events == events && s.done == done && |s.subs| == |members|
      ensures forall i | 0 <= i < |members| :: s.subs[i] == members[i].View()
    {
      State(events, done, seq(|members|, i requires 0 <= i < |members| reads this, members => members[i].View()))
    }

    constructor ()
      ensures Valid() && fresh(this) && Abs() == Empty() && members == []
    {
      events, done, subs, members := [], false, {}, [];
    }

    /** wakeAll: a token for every registered subscriber; a pending one absorbs it. */
    method WakeAll()
      modifies subs`wake
      ensures forall u | u in subs :: u.wake
    {
      var rest := subs;
      while rest != {}
        invariant rest <= subs
        invariant forall u | u in subs && u !in rest :: u.wake
        decreases rest
      {
        var u :| u in rest;
        u.wake := true;
        rest := rest - {u};
      }
    }

    method Emit(ev: T)
      requires Valid()
      modifies this`events, subs`wake
      ensures Valid() && Abs() == Apply(old(Abs()), Action.Emit(ev))
      ensures events == old(events) + [ev] && done == old(done)
    {
      hide Inv;
      ActionKeepsInv(Abs(), Action.Emit(ev));
      events := events + [ev];
      WakeAll();
      assert Abs().subs == Apply(old(Abs()), Action.Emit(ev)).subs;
    }

    method Finish()
      requires Valid()
      modifies this`done, subs`wake
      ensures Valid() && Abs() == Apply(old(Abs()), Action.Finish)
      ensures done && events == old(events)
    {
      hide Inv;
      ActionKeepsInv(Abs(), Action.Finish);
      done := true;
      WakeAll();
      assert Abs().subs == Apply(old(Abs()), Action.Finish).subs;
    }

    method Subscribe() returns (u: Subscriber<T>)
      requires Valid()
      modifies this`subs, this`members
      ensures Valid() && fresh(u) && members == old(members) + [u]
      ensures Abs() == Apply(old(Abs()), Action.Subscribe)
      ensures u.pc.Scan? && u.cursor == 0 && u.out == [] && u.received == [] && !u.ctxDone && u in subs
    {
      hide Inv;
      ActionKeepsInv(Abs(), Action.Subscribe);
      u := new Subscriber();
      subs := subs + {u};
      members := members + [u];
      assert Abs().subs == Apply(old(Abs()), Action.Subscribe).subs;
    }

    /** The locked section of the subscriber loop. */
    method LookStep(u: Subscriber<T>, ghost i: nat)
      requires Valid() && i < |members| && members[i] == u && Enabled(Abs(), Own(i, Look))
      modifies u`pc, u`cursor, u`hand
      ensures Valid() && Abs() == Apply(old(Abs()), Own(i, Look))
    {
      assert Registered(u.pc);
      hide Inv, Looked, CanStep, Registered;
      ActionKeepsInv(Abs(), Own(i, Look));
      u.LookAt(events, done);
      assert Abs().subs == Apply(old(Abs()), Own(i, Look)).subs;
    }

    method SendStep(u: Subscriber<T>, ghost i: nat)
      requires Valid() && i < |members| && members[i] == u && Enabled(Abs(), Own(i, Send))
      modifies u`pc, u`out, u`hand
      ensures Valid() && Abs() == Apply(old(Abs()), Own(i, Send))
      ensures u.pc.Scan? && u.out == old(u.out + u.hand) && u.hand == []
    {
      hide Inv;
      ActionKeepsInv(Abs(), Own(i, Send));
      u.out, u.hand, u.pc := u.out + u.hand, [], Scan;
      assert Abs().subs == Apply(old(Abs()), Own(i, Send)).subs;
    }

    method WakeStep(u: Subscriber<T>, ghost i: nat)
      requires Valid() && i < |members| && members[i] == u && Enabled(Abs(), Own(i, Wake))
      modifies u`pc, u`wake
      ensures Valid() && Abs() == Apply(old(Abs()), Own(i, Wake))
      ensures u.pc.Scan? && !u.wake
    {
      hide Inv;
      ActionKeepsInv(Abs(), Own(i, Wake));
      u.wake, u.pc := false, Scan;
      assert Abs().subs == Apply(old(Abs()), Own(i, Wake)).subs;
    }

    method AbortStep(u: Subscriber<T>, ghost i: nat)
      requires Valid() && i < |members| && members[i] == u && Enabled(Abs(), Own(i, Abort))
      modifies u`pc
      ensures Valid() && Abs() == Apply(old(Abs()), Own(i, Abort))
      ensures Left(u.pc)
    {
      hide Inv;
      ActionKeepsInv(Abs(), Own(i, Abort));
      u.pc := Exiting;
      assert Abs().subs == Apply(old(Abs()), Own(i, Abort)).subs;
    }

    /** The deferred removal from the registry, which runs before the channel is closed. */
    method UnregisterStep(u: Subscriber<T>, ghost i: nat)
      requires Valid() && i < |members| && members[i] == u && Enabled(Abs(), Own(i, Unregister))
      modifies this`subs, u`pc
      ensures Valid() && Abs() == Apply(old(Abs()), Own(i, Unregister))
      ensures subs == old(subs) - {u} && u.pc.Detached?
    {
      hide Inv;
      ActionKeepsInv(Abs(), Own(i, Unregister));
      subs := subs - {u};
      u.pc := Detached;
      assert Abs().subs == Apply(old(Abs()), Own(i, Unregister)).subs;
    }

    method CloseStep(u: Subscriber<T>, ghost i: nat)
      requires Valid() && i < |members| && members[i] == u && Enabled(Abs(), Own(i, CloseOut))
      modifies u`pc
      ensures Valid() && Abs() == Apply(old(Abs()), Own(i, CloseOut))
      ensures u.pc.Closed?
    {
      hide Inv;
      ActionKeepsInv(Abs(), Own(i, CloseOut));
      u.pc := Closed;
      assert Abs().subs == Apply(old(Abs()), Own(i, CloseOut)).subs;
    }

    /** The subscriber's context ends. */
    method CancelStep(u: Subscriber<T>, ghost i: nat)
      requires Valid() && i < |members| && members[i] == u
      modifies u`ctxDone
      ensures Valid() && Abs() == Apply(old(Abs()), Cancel(i))
      ensures u.ctxDone
    {
      hide Inv;
      ActionKeepsInv(Abs(), Cancel(i));
      u.ctxDone := true;
      assert Abs().subs == Apply(old(Abs()), Cancel(i)).subs;
    }

    /** The consumer takes the oldest buffered event. */
    method ReceiveStep(u: Subscriber<T>, ghost i: nat) returns (ev: T)
      requires Valid() && i < |members| && members[i] == u && Enabled(Abs(), Own(i, Receive))
      modifies u`received, u`out
      ensures Valid() && Abs() == Apply(old(Abs()), Own(i, Receive))
      ensures u.received == old(u.received) + [ev]
      ensures old(u.out) == [ev] + u.out
    {
      hide Inv;
      ActionKeepsInv(Abs(), Own(i, Receive));
      ev := u.out[0];
      u.received, u.out := u.received + [ev], u.out[1..];
      assert Abs().subs == Apply(old(Abs()), Own(i, Receive)).subs;
    }
  }
}
