/**
 The build log: how the builder prints its events for storage, and how the session package and
 the builder's own replay read the stored text back.
 */
module BuildLog {
  import opened GoStrings

  /** One line of build output and the phase that printed it. Timestamps are not modelled. */
  datatype Tagged = Tagged(phase: string, line: string)

  /** One item on a build's stream. */
  datatype Event = Log(entry: Tagged) | Status(status: string)

  function Entries(evs: seq<Event>): seq<Tagged> {
    if evs == [] then []
    else (if evs[0].Log? then [evs[0].entry] else []) + Entries(evs[1..])
  }

  lemma {:induction false} EntriesSnoc(evs: seq<Event>, e: Event)
    ensures Entries(evs + [e]) == Entries(evs) + if e.Log? then [e.entry] else []
  {
    if evs == [] {
      assert evs + [e] == [e];
    } else {
      assert (evs + [e])[1..] == evs[1..] + [e];
      EntriesSnoc(evs[1..], e);
      var first := if evs[0].Log? then [evs[0].entry] else [];
      var last := if e.Log? then [e.entry] else [];
      assert first + (Entries(evs[1..]) + last) == first + Entries(evs[1..]) + last;
    }
  }

  // ---------------------------------------------------------------- print

  function Render(e: Tagged): string {
    (if e.phase != "" then "[" + e.phase + "] " else "") + e.line
  }

  /** The stored text of a list of log lines: one terminated line each. */
  function Text(es: seq<Tagged>): string {
    if es == [] then "" else Render(es[0]) + "\n" + Text(es[1..])
  }

  lemma {:induction false} TextConcat(a: seq<Tagged>, b: seq<Tagged>)
    ensures Text(a + b) == Text(a) + Text(b)
  {
    if a == [] {
      assert a + b == b;
    } else {
      assert (a + b)[1..] == a[1..] + b;
      TextConcat(a[1..], b);
    }
  }

  lemma TextSnoc(evs: seq<Event>, i: nat)
    requires i < |evs|
    ensures Text(Entries(evs[..i + 1]))
         == Text(Entries(evs[..i])) + if evs[i].Log? then Render(evs[i].entry) + "\n" else ""
  {
    assert evs[..i + 1] == evs[..i] + [evs[i]];
    EntriesSnoc(evs[..i], evs[i]);
    if evs[i].Log? {
      TextConcat(Entries(evs[..i]), [evs[i].entry]);
      assert Text([evs[i].entry]) == Render(evs[i].entry) + "\n" + "";
    } else {
      assert Entries(evs[..i + 1]) == Entries(evs[..i]);
    }
  }

  /** run.text: status changes are skipped, every log line is printed in order. */
  method RenderText(evs: seq<Event>) returns (text: string)
    ensures text == Text(Entries(evs))
  {
    text := "";
    for i := 0 to |evs|
      invariant text == Text(Entries(evs[..i]))
    {
      TextSnoc(evs, i);
      if evs[i].Log? {
        var tag := "";
        if evs[i].entry.phase != "" {
          tag := "[" + evs[i].entry.phase + "] ";
        }
        text := text + (tag + evs[i].entry.line + "\n");
      }
    }
    assert evs[..|evs|] == evs;
  }

  // ---------------------------------------------------------------- parse

  /** splitPhase: separates the "[phase] " prefix, if the line has one. */
  function SplitPhase(line: string): Tagged {
    if HasPrefix(line, "[") then
      var i := Index(line, "] ");
      if i > 0 then Tagged(line[1..i], line[i + 2..]) else Tagged("", line)
    else Tagged("", line)
  }

  /** How a stored line is shown by Builder.Subscribe for a finished build: the tag stays in the line. */
  function Untagged(line: string): Tagged { Tagged("", line) }

  function Map<A, B>(xs: seq<A>, f: A -> B): (ys: seq<B>)
    ensures |ys| == |xs| && forall i | 0 <= i < |xs| :: ys[i] == f(xs[i])
  {
    seq(|xs|, i requires 0 <= i < |xs| => f(xs[i]))
  }

  predicate NonEmpty(l: string) { l != "" }

  /** Reads stored text back, decoding each non-empty line with f. */
  function Parse(text: string, f: string -> Tagged): seq<Tagged> {
    Map(Keep(Lines(text), NonEmpty), f)
  }

  /** session.replayLog. */
  method ReplayLog(text: string) returns (out: seq<Tagged>)
    ensures out == Parse(text, SplitPhase)
  {
    out := ReplayLines(text, SplitPhase);
  }

  /** The stream Builder.Subscribe gives for a finished build: its log, tags kept in the lines, then its status. */
  method StoredReplay(text: string, status: string) returns (out: seq<Event>)
    ensures Entries(out) == Parse(text, Untagged)
    ensures out == Logs(Parse(text, Untagged)) + [Status(status)]
  {
    hide Parse;
    var es := ReplayLines(text, Untagged);
    out := [];
    for i := 0 to |es|
      invariant out == Logs(es[..i])
    {
      assert Logs(es[..i + 1]) == Logs(es[..i]) + [Log(es[i])];
      out := out + [Log(es[i])];
    }
    assert es[..|es|] == es;
    EntriesOfLogs([], es);
    assert [] + Logs(es) == Logs(es);
    EntriesSnoc(out, Status(status));
    out := out + [Status(status)];
  }

  function Logs(es: seq<Tagged>): seq<Event> { seq(|es|, i requires 0 <= i < |es| => Log(es[i])) }

  lemma {:induction false} EntriesOfLogs(evs: seq<Event>, es: seq<Tagged>)
    ensures Entries(evs + Logs(es)) == Entries(evs) + es
  {
    if es == [] {
      assert evs + Logs(es) == evs;
    } else {
      var init, last := es[..|es| - 1], es[|es| - 1];
      assert evs + Logs(es) == (evs + Logs(init)) + [Log(last)];
      EntriesOfLogs(evs, init);
      EntriesSnoc(evs + Logs(init), Log(last));
    }
  }

  /** What reading one more line adds. */
  lemma LineReads(ls: seq<string>, i: nat, f: string -> Tagged)
    requires i < |ls|
    ensures Map(Keep(ls[..i + 1], NonEmpty), f)
         == Map(Keep(ls[..i], NonEmpty), f) + if ls[i] != "" then [f(ls[i])] else []
  {
    assert ls[..i + 1] == ls[..i] + [ls[i]];
    KeepConcat(ls[..i], [ls[i]], NonEmpty);
    assert Keep([ls[i]], NonEmpty) == if ls[i] != "" then [ls[i]] else [];
  }

  /** The loop both replays share. */
  method ReplayLines(text: string, f: string -> Tagged) returns (out: seq<Tagged>)
    ensures out == Parse(text, f)
  {
    assert Keep([], NonEmpty) == [];
    hide Keep, Lines, TrimNewlines;
    var ls := Lines(TrimNewlines(text));
    out := [];
    assert ls[..0] == [];
    for i := 0 to |ls|
      invariant out == Map(Keep(ls[..i], NonEmpty), f)
    {
      LineReads(ls, i, f);
      if ls[i] == "" {
        continue;
      }
      out := out + [f(ls[i])];
    }
    assert ls[..|ls|] == ls;
    TrimNewlinesKeepsLines(text, NonEmpty);
  }

  // ----------------------------------------------------------- round trip

  /** What one event must satisfy to survive printing and decoding with f. */
  predicate Survives(e: Tagged, f: string -> Tagged) {
    '\n' !in e.phase && '\n' !in e.line && Render(e) != "" && f(Render(e)) == e
  }

  /** A decoder that never invents a newline. */
  ghost predicate LineDecoder(f: string -> Tagged) {
    forall l: string | '\n' !in l :: '\n' !in f(l).phase && '\n' !in f(l).line
  }

  lemma ParseStep(e: Tagged, es: seq<Tagged>, f: string -> Tagged)
    ensures Parse(Text([e] + es), f) == Parse(Render(e), f) + Parse(Text(es), f)
  {
    assert ([e] + es)[1..] == es;
    ParseConcat(Render(e), Text(es), f);
  }

  lemma ParseConcat(a: string, b: string, f: string -> Tagged)
    ensures Parse(a + "\n" + b, f) == Parse(a, f) + Parse(b, f)
  {
    LinesConcat(a, b);
    KeepConcat(Lines(a), Lines(b), NonEmpty);
    MapConcat(Keep(Lines(a), NonEmpty), Keep(Lines(b), NonEmpty), f);
  }

  lemma MapConcat<A, B>(xs: seq<A>, ys: seq<A>, f: A -> B)
    ensures Map(xs + ys, f) == Map(xs, f) + Map(ys, f)
  {
  }

  lemma ParseRendered(e: Tagged, f: string -> Tagged)
    requires '\n' !in e.phase && '\n' !in e.line
    ensures Parse(Render(e), f) == if Render(e) == "" then [] else [f(Render(e))]
  {
    assert '\n' !in Render(e);
    LinesOfLine(Render(e));
    assert Keep([Render(e)], NonEmpty) == if Render(e) == "" then [] else [Render(e)];
  }

  /** Decoding inverts printing exactly on the lists whose every event survives on its own. */
  lemma {:induction false} RoundTrip(es: seq<Tagged>, f: string -> Tagged)
    requires LineDecoder(f)
    ensures Parse(Text(es), f) == es <==> forall e | e in es :: Survives(e, f)
  {
    if forall e | e in es :: Survives(e, f) {
      SurvivorsReturn(es, f);
    }
    if Parse(Text(es), f) == es {
      forall e | e in es ensures '\n' !in e.phase && '\n' !in e.line {
        var ls := Keep(Lines(Text(es)), NonEmpty);
        var i :| 0 <= i < |es| && es[i] == e;
        assert ls[i] in ls;
        assert e == f(ls[i]);
      }
      OnlySurvivorsReturn(es, f);
    }
  }

  lemma {:induction false} SurvivorsReturn(es: seq<Tagged>, f: string -> Tagged)
    requires forall e | e in es :: Survives(e, f)
    ensures Parse(Text(es), f) == es
  {
    if es == [] {
      assert Lines("") == [""];
      assert Keep([""], NonEmpty) == [];
    } else {
      assert es == [es[0]] + es[1..];
      assert Survives(es[0], f);
      ParseStep(es[0], es[1..], f);
      ParseRendered(es[0], f);
      SurvivorsReturn(es[1..], f);
    }
  }

  lemma {:induction false} OnlySurvivorsReturn(es: seq<Tagged>, f: string -> Tagged)
    requires forall e | e in es :: '\n' !in e.phase && '\n' !in e.line
    ensures |Parse(Text(es), f)| <= |es|
    ensures Parse(Text(es), f) == es ==> forall e | e in es :: Survives(e, f)
  {
    if es == [] {
      assert Lines("") == [""];
      assert Keep([""], NonEmpty) == [];
    } else {
      var rest := es[1..];
      assert es == [es[0]] + rest;
      ParseStep(es[0], rest, f);
      ParseRendered(es[0], f);
      OnlySurvivorsReturn(rest, f);
      if Parse(Text(es), f) == es {
        assert Parse(Text(es), f)[0] == f(Render(es[0]));
        assert Parse(Text(rest), f) == Parse(Text(es), f)[1..];
      }
    }
  }

  /** Exactly the events that print unambiguously: see ReplayRoundTrip. */
  predicate Printable(e: Tagged) {
    && '\n' !in e.phase && '\n' !in e.line
    && if e.phase != "" then !Contains(e.phase, "] ")
       else e.line != "" && !(HasPrefix(e.line, "[") && Contains(e.line, "] "))
  }

  lemma TagEndChars(s: string, i: int)
    requires OccursAt(s, "] ", i)
    ensures i + 1 < |s| && s[i] == ']' && s[i + 1] == ' '
  {
    assert s[i] == s[i..i + 2][0] && s[i + 1] == s[i..i + 2][1];
  }

  /** Where the first "] " of a tagged line is: after the phase, or earlier, inside it. */
  lemma TagEnd(phase: string, line: string)
    requires phase != ""
    ensures var r := Render(Tagged(phase, line)); var i := Index(r, "] ");
      && r[0] == '[' && 0 < i <= |phase| + 1
      && r[1..|phase| + 1] == phase && r[|phase| + 3..] == line
      && (i < |phase| + 1 ==> OccursAt(phase, "] ", i - 1))
  {
    var r := Render(Tagged(phase, line));
    var k := |phase| + 1;
    assert r == "[" + phase + "] " + line;
    assert r[1..k] == phase && r[k + 2..] == line && r[k..k + 2] == "] ";
    assert OccursAt(r, "] ", k);
    var i := Index(r, "] ");
    TagEndChars(r, i);
    assert r[0] == '[' && r[k] == ']';
    if i < k {
      assert i + 1 != k;
      assert phase[i - 1..i + 1] == r[i..i + 2];
    }
  }

  lemma TagInsidePhase(phase: string, line: string, j: int)
    requires phase != "" && OccursAt(phase, "] ", j)
    ensures OccursAt(Render(Tagged(phase, line)), "] ", j + 1)
  {
    var r := Render(Tagged(phase, line));
    assert r == "[" + phase + "] " + line;
    assert r[j + 1..j + 3] == phase[j..j + 2];
  }

  lemma TaggedSurvives(phase: string, line: string)
    requires phase != ""
    ensures SplitPhase(Render(Tagged(phase, line))) == Tagged(phase, line) <==> !Contains(phase, "] ")
  {
    var r := Render(Tagged(phase, line));
    var i := Index(r, "] ");
    TagEnd(phase, line);
    if i <= |phase| {
      assert |r[1..i]| < |phase|;
    } else {
      forall j ensures !OccursAt(phase, "] ", j) {
        if OccursAt(phase, "] ", j) {
          TagInsidePhase(phase, line, j);
        }
      }
    }
  }

  lemma UntaggedSurvives(line: string)
    ensures SplitPhase(line) == Tagged("", line) <==> !(HasPrefix(line, "[") && Contains(line, "] "))
  {
    if HasPrefix(line, "[") && Contains(line, "] ") {
      var j :| OccursAt(line, "] ", j);
      var i := Index(line, "] ");
      TagEndChars(line, i);
      assert line[0] == '[';
      assert |line[i + 2..]| < |line|;
    }
  }

  lemma PrintableSurvives(e: Tagged)
    ensures Printable(e) <==> Survives(e, SplitPhase)
  {
    if e.phase == "" {
      assert Render(e) == e.line;
      UntaggedSurvives(e.line);
    } else {
      assert e == Tagged(e.phase, e.line);
      TaggedSurvives(e.phase, e.line);
    }
  }

  lemma SplitPhaseIsLineDecoder()
    ensures LineDecoder(SplitPhase)
  {
  }

  /** The stored log of a build gives back the same phases and lines, in order, exactly when every event is printable. */
  lemma ReplayRoundTrip(es: seq<Tagged>)
    ensures Parse(Text(es), SplitPhase) == es <==> forall e | e in es :: Printable(e)
  {
    SplitPhaseIsLineDecoder();
    RoundTrip(es, SplitPhase);
    forall e ensures Printable(e) <==> Survives(e, SplitPhase) {
      PrintableSurvives(e);
    }
  }

  /** Builder.Subscribe gives the events of a finished build back only when none of them had a phase. */
  lemma StoredRoundTrip(es: seq<Tagged>)
    ensures Parse(Text(es), Untagged) == es
       <==> forall e | e in es :: e.phase == "" && e.line != "" && '\n' !in e.line
  {
    RoundTrip(es, Untagged);
    forall e: Tagged
      ensures Survives(e, Untagged) <==> e.phase == "" && e.line != "" && '\n' !in e.line
    {
    }
  }

  /** An untagged line that looks tagged is read as another phase's. */
  lemma LookalikeIsMisread()
    ensures !Printable(Tagged("", "[a] b")) && Parse(Text([Tagged("", "[a] b")]), SplitPhase) != [Tagged("", "[a] b")]
  {
    var e := Tagged("", "[a] b");
    assert OccursAt(e.line, "] ", 2);
    ReplayRoundTrip([e]);
    assert e in [e];
  }

  /** The builder's own replay loses the phase of the plainest line. */
  lemma StoredReplayLosesPhase()
    ensures Parse(Text([Tagged("install", "done")]), Untagged) != [Tagged("install", "done")]
  {
    StoredRoundTrip([Tagged("install", "done")]);
    assert Tagged("install", "done") in [Tagged("install", "done")];
  }

  /** What a phase name must be for every line it tags to be printable. */
  predicate PhaseName(phase: string) {
    phase != "" && '\n' !in phase && !Contains(phase, "] ")
  }

  // ---------------------------------------------------------- logger.Write

  predicate Blank(l: string) { forall i | 0 <= i < |l| :: IsSpace(l[i]) }

  predicate NonBlank(l: string) { !Blank(l) }

  lemma {:induction false} TrimRightBlank(l: string)
    ensures TrimRight(l) == "" <==> Blank(l)
  {
    if l != "" && IsSpace(l[|l| - 1]) {
      TrimRightBlank(l[..|l| - 1]);
    }
  }

  lemma {:induction false} TrimSpaceBlank(l: string)
    ensures TrimSpace(l) == "" <==> Blank(l)
  {
    if l != "" && IsSpace(l[0]) {
      TrimSpaceBlank(l[1..]);
    } else {
      TrimRightBlank(l);
    }
  }

  function TagAll(phase: string, ls: seq<string>): seq<Tagged> { Map(ls, l => Tagged(phase, l)) }

  /** The log lines one chunk of command output contributes. */
  function ChunkEntries(phase: string, chunk: string): seq<Tagged> { TagAll(phase, Keep(Lines(chunk), NonBlank)) }

  /** The log lines of a list of (phase, chunk) writes. */
  function WrittenEntries(writes: seq<(string, string)>): seq<Tagged> {
    if writes == [] then [] else ChunkEntries(writes[0].0, writes[0].1) + WrittenEntries(writes[1..])
  }

  predicate LooksTagged(l: string) { HasPrefix(l, "[") && Contains(l, "] ") }

  /** A write that the stored log can give back: if it has any line to keep, its phase or those lines must do. */
  predicate Storable(w: (string, string)) {
    forall l | l in Lines(w.1) && NonBlank(l) :: if w.0 == "" then !LooksTagged(l) else PhaseName(w.0)
  }

  lemma ChunkPrintable(w: (string, string))
    ensures Storable(w) <==> forall e | e in ChunkEntries(w.0, w.1) :: Printable(e)
  {
    var kept, es := Keep(Lines(w.1), NonBlank), ChunkEntries(w.0, w.1);
    KeepMembers(Lines(w.1), NonBlank);
    forall l | l in Lines(w.1) && NonBlank(l)
      ensures Printable(Tagged(w.0, l)) <==> if w.0 == "" then !LooksTagged(l) else PhaseName(w.0)
      ensures Tagged(w.0, l) in es
    {
      assert l != "";
      assert l in kept;
      var i :| 0 <= i < |kept| && kept[i] == l;
      assert es[i] == Tagged(w.0, l);
    }
    forall e | e in es ensures e.phase == w.0 && e.line in Lines(w.1) && NonBlank(e.line) {
      var i :| 0 <= i < |es| && es[i] == e;
      assert kept[i] in kept;
    }
  }

  lemma {:induction false} WritesPrintable(writes: seq<(string, string)>)
    ensures (forall w | w in writes :: Storable(w)) <==> forall e | e in WrittenEntries(writes) :: Printable(e)
  {
    if writes != [] {
      WritesPrintable(writes[1..]);
      ChunkPrintable(writes[0]);
      assert forall w :: w in writes <==> w == writes[0] || w in writes[1..];
    }
  }

  /**
   Output is cut at its newlines and nowhere else: what precedes one and what follows it are written
   independently, and a line is one entry of the phase, unchanged, or none if it is all white space.
   */
  lemma ChunkLineByLine(phase: string, a: string, b: string)
    ensures ChunkEntries(phase, a + "\n" + b) == ChunkEntries(phase, a) + ChunkEntries(phase, b)
    ensures '\n' !in a ==>
      ChunkEntries(phase, a) == if forall c | c in a :: IsSpace(c) then [] else [Tagged(phase, a)]
  {
    if '\n' !in a {
      ChunkOfLine(phase, a);
    }
    hide Lines, Keep, IsSpace, Blank, NonBlank;
    LinesConcat(a, b);
    KeepConcat(Lines(a), Lines(b), NonBlank);
  }

  lemma ChunkOfLine(phase: string, l: string)
    requires '\n' !in l
    ensures ChunkEntries(phase, l) == if forall c | c in l :: IsSpace(c) then [] else [Tagged(phase, l)]
  {
    hide IsSpace, Lines;
    LinesOfLine(l);
    assert Blank(l) <==> forall c | c in l :: IsSpace(c);
    assert Keep([l], NonBlank) == if NonBlank(l) then [l] else [];
  }

  /**
   Command output written through the logger, stored and replayed, is exactly its non-blank lines, in
   order and under their phases, precisely when every write is storable.
   */
  lemma WriteRoundTrip(writes: seq<(string, string)>)
    ensures Parse(Text(WrittenEntries(writes)), SplitPhase) == WrittenEntries(writes)
       <==> forall w | w in writes :: Storable(w)
  {
    WritesPrintable(writes);
    ReplayRoundTrip(WrittenEntries(writes));
  }
}
