/** The builder's logger: command output is cut into lines and written to the run's event log. */
module Logger {
  import opened GoStrings
  import opened BuildLog
  import F = Fanout
  import P = FanoutProtocol

  /** One more non-blank line appends one more event. */
  lemma LineAppends(evs: seq<Event>, phase: string, ls: seq<string>, i: nat)
    requires i < |ls|
    ensures evs + Logs(TagAll(phase, Keep(ls[..i + 1], NonBlank)))
         == evs + Logs(TagAll(phase, Keep(ls[..i], NonBlank)))
              + if NonBlank(ls[i]) then [Log(Tagged(phase, ls[i]))] else []
  {
    assert ls[..i + 1] == ls[..i] + [ls[i]];
    KeepConcat(ls[..i], [ls[i]], NonBlank);
    assert Keep([ls[i]], NonBlank) == if NonBlank(ls[i]) then [ls[i]] else [];
  }

  class Logger {
    const log: F.Log<Event>
    var phase: string

    constructor (log: F.Log<Event>)
      ensures this.log == log && phase == ""
    {
      this.log, phase := log, "";
    }

    /** line, with the message already formatted. */
    method Line(text: string)
      requires log.Valid()
      modifies log`events, log.subs`wake
      ensures log.Valid() && log.events == old(log.events) + [Log(Tagged(phase, text))]
    {
      log.Emit(Log(Tagged(phase, text)));
    }

    /** Write: every non-blank line of the chunk becomes one event of the current phase. */
    method Write(chunk: string) returns (n: nat)
      requires log.Valid()
      modifies log`events, log.subs`wake
      ensures n == |chunk| && log.Valid()
      ensures log.events == old(log.events) + Logs(ChunkEntries(phase, chunk))
      ensures Entries(log.events) == old(Entries(log.events)) + ChunkEntries(phase, chunk)
    {
      assert Keep([], NonBlank) == [] && !NonBlank("");
      hide P.Inv, Keep, TrimSpace, Blank;
      var ls := Lines(TrimNewlines(chunk));
      assert ls[..0] == [];
      for i := 0 to |ls|
        invariant log.Valid()
        invariant log.events == old(log.events) + Logs(TagAll(phase, Keep(ls[..i], NonBlank)))
      {
        LineAppends(old(log.events), phase, ls, i);
        TrimSpaceBlank(ls[i]);
        if TrimSpace(ls[i]) != "" {
          Line(ls[i]);
        }
      }
      assert ls[..|ls|] == ls;
      TrimNewlinesKeepsLines(chunk, NonBlank);
      EntriesOfLogs(old(log.events), ChunkEntries(phase, chunk));
      n := |chunk|;
    }
  }
}
