# trylive, verified

trylive is a Go service: a visitor names a repository, the service builds its head commit once in a sandbox,
snapshots the running result, and gives every visitor a sandbox restored from that snapshot for a limited time. A
browser page folds the session's event stream into what it shows.

This project models the parts of the service that have to be right under concurrency, failure and retry, and proves
what they promise over every input and every run.

| file | part of the service |
|---|---|
| `Fanout.dfy` | the event log and its subscribers: a transition system, and the mutable objects that refine it |
| `BuildMachine.dfy`, `Builder.dfy` | any number of concurrent builds: a transition system, and the builder object that refines it, one full pipeline included |
| `BuildLosses.dfy` | the runs that lose a sandbox |
| `BuildStream.dfy` | a build and its event log as one system: what the close of its stream means |
| `Install.dfy` | the install loop with model repairs, over Go slices, and the port-probing loop |
| `Pipeline.dfy` | the work of a build inside its sandbox: clone, inspect, recipe, tools, install, start and probe |
| `Probe.dfy` | socket tables and the choice of a port |
| `Recipe.dfy` | the command checker, the splitter and the recipe checker |
| `BuildLog.dfy`, `Logger.dfy` | the phase-tagged log: written, printed, stored, parsed back |
| `SessionMachine.dfy`, `Session.dfy` | one session: a transition system, and the run that refines it, start to finish |
| `SessionWitnesses.dfy` | the runs of a session that end badly |
| `Admission.dfy` | the limits on opening sessions, atomic and with check and insert apart |
| `Store.dfy` | the in-process store |
| `Reducer.dfy`, `SessionPage.dfy` | the browser's fold, and its agreement with the stored session |
| `GoStrings.dfy`, `Wrappers.dfy` | the string functions of Go that the above rely on; Option |

## How it is put together

What runs step by step is a class whose methods do what the source's critical sections and loops do. Where several
of them interleave, a transition system on values says what one step does; each method's contract says that it did
exactly one such step (`Did`), and `Valid` says that all that ever happened to the object is a run of the transition
system. The theorems are about all runs of the transition system, so they hold of the objects. The fan-out log is
tied to its transition system through `Log.Abs` in the same way. The methods of `Builder` and `Session.Run` that do one
such step have no row below; the operations made of them have.

The sandbox platform, the model, the resolver, the clock and other visitors are parameters that may answer anything.
What a theorem needs of them is in its `requires`:

- the platform hands out sandbox and snapshot ids that are not in use (`FreshSandbox`);
- deletes succeed and a wait returns the record of the id it was asked for (`AllHonest`), for conservation and
  for freeing the visitor's sandbox only; for conservation, also that a rebuild of a record with a living golden is
  asked for with a copy that names it;
- the model's repair is an error or one to eight accepted commands (`Honest`);
- store reads and writes by a pipeline or a session run succeed; `Ensure` may see either fail;
- the platform reclaims no sandbox that a pipeline still holds (the guard of `Reclaim`);
- a session is replaced only once it is stored as live;
- these are single steps of a session: the start of the restore, with its store write and event; a preview with the
  live store after it, but not the three announcements that follow; a poll, with the platform's answer, the re-read
  of the record and the end if it comes to that, so that nothing falls between them; an extension; a termination;
- a rebuild is one step, and is asked for while no run of the build is registered; the copy of the record it is asked
  with may be any ready one the session once read (`Readable`).

## Where the code does less than one might expect

Each of these is proved, with the exact condition under which the code does meet the expectation.

- A build log line comes back from storage unchanged exactly when it is printable (`ReplayRoundTrip`,
  `LookalikeIsMisread`); the builder's own replay of a finished build keeps the tag inside the line
  (`StoredRoundTrip`, `StoredReplayLosesPhase`).
- The wait for a sandbox overwrites the variable the deferred delete uses. A record with another id loses the sandbox
  (`WaitConservesIffSameId`, `WaitCanLose`), as does a delete that fails (`CleanupConservesIffDeleted`,
  `CleanupCanLose`). The visitor's sandbox is lost in the same way when its boot fails (`FailedBootFreesIffSameId`,
  `FailedBootCanLeak`).
- A rebuild deletes the golden its own copy of the record names and overwrites the record regardless. A copy from before
  another rebuild loses the newer golden, and so does a delete that fails (`RebuildConservesIffCopyIsCurrent`,
  `StaleRebuildCanLose`, `RebuildCanLose`). A rebuild while another's run is still registered is harmless until that
  run has stored its verdict (`JoinKeepsFlightIff`, `JoinConservesIff`, `OverlappingRebuildCanLose`).
- A session that ends because the platform stopped its sandbox leaves the sandbox to the platform; every other end
  frees it if its delete works (`VisitorSandboxIsFreed`, `PollFreesExactly`, `TerminationFreesIffDeleted`,
  `StoppedSandboxCanLeak`, `ExpiredSandboxCanLeak`).
- After repairs the install list can be longer than the eight commands a recipe may have: up to 22, and 24 runs
  (`InstallOutcome`, `InstallBoundsAreReached`).
- A session that went live too late after its creation has a first window past the hard cap, and an extension then
  shortens it (`ExpiryBound`, `ExtendShortensIffLate`, `ExtensionCanShorten`).
- The run stores a session as live before it announces it. A replacement in between is followed by announcements of a
  session that has ended (`EndIsLastIffNotCutShort`, `EndCanBeFollowed`); the page has stopped listening by then. An
  extension in between, before the window is announced, is told first, and pages show the first window until the end
  (`PageTellsTheTruth`, `PageCanMislead`).
- Ending a session writes the run's copy, so an extension granted since its last good poll is forgotten in the final
  record (`ExtensionSurvivesIffPolledWell`, `ExtensionCanBeForgotten`).
- A session replaced before it is live can be revived by its own run (`ReplacedStaysEndedIffLive`).
- The per-IP limit is checked against a count that subtracts every replaced session, whatever its IP, so it can be
  exceeded (`IpCapCanBreak`, `IpCapExactly`); and a visitor refused after the replacement has lost the device's
  sessions all the same (`RefusalKeepsSessionsIff`, `RefusalCanCost`).
- With check and insert apart, n concurrent creates can exceed the global limit, by at most n - 1, and do
  (`SplitOvershootsByLess`, `OvershootIsReached`).
- The comment on `reduce` says nothing after `ended` revives a session. No server event does, but a late REST
  snapshot does (`EndIsSticky`, `LateSnapshotRevives`).

## Model

| member | source | states |
|---|---|---|
| FanoutProtocol.ActionKeepsInv | internal/fanout/fanout.go:30-112 | every emit, finish, subscription, cancellation and subscriber step keeps every subscriber's received, buffered and held events equal to the history up to its cursor, keeps a wake token pending for a waiter with something to do, and only appends to the history |
| FanoutProtocol.ExactlyOnceInOrder | internal/fanout/fanout.go:72-112 | in every run from the empty log a subscriber has the history up to its cursor, each event once and in order; any two subscribers' streams are prefix-comparable |
| FanoutProtocol.NoLostWakeup | internal/fanout/fanout.go:59-68 | in every run a subscriber waiting with unread events, or after Finish, can be woken at once |
| FanoutProtocol.FinishLosesNothing | internal/fanout/fanout.go:37-112 | in any run, a subscriber that leaves uncancelled leaves a finished log and has been given every event the log held at any moment before Finish |
| FanoutProtocol.StepLowersMeasure | internal/fanout/fanout.go:85-109 | after Finish every step of a subscriber or its consumer lowers its drain measure, and nobody else's step raises it |
| FanoutProtocol.NotDrainedCanStep | internal/fanout/fanout.go:85-109 | after Finish a subscriber that is not closed and empty always has a step to take, itself or its consumer |
| FanoutProtocol.FinishedLogDrains | internal/fanout/fanout.go:70-112 | after Finish and with no more emits, a subscriber takes boundedly many steps in any run, and when it can take none it is closed, empty and, if uncancelled, its consumer has the whole history |
| FanoutProtocol.FinishedRunDrains | internal/fanout/fanout.go:37-112 | the same from the empty log: any run up to the first Finish, then any without emits, from any moment after; the consumer ends with exactly the history Finish found |
| FanoutProtocol.LeftForGood | internal/fanout/fanout.go:78-109 | a subscriber that has left does not come back in any run |
| FanoutProtocol.CancelledLeaves | internal/fanout/fanout.go:92-107 | in every state, the log finished or not, a subscriber whose context has ended and who waits or holds an event can at once return, unregister and close its channel, in that order, with nothing else changed |
| FanoutProtocol.CancelledLooksAndLeaves | internal/fanout/fanout.go:86-107 | and one about to look at the log can look and then do the same |
| Fanout.Log.constructor | internal/fanout/fanout.go:23-26 | a new log is the empty state |
| Fanout.Log.WakeAll | internal/fanout/fanout.go:59-68 | every registered subscriber has a token afterwards |
| Fanout.Log.Emit | internal/fanout/fanout.go:28-35 | exactly the emit step: the event is appended and all registered subscribers are nudged |
| Fanout.Log.Finish | internal/fanout/fanout.go:37-43 | exactly the finish step |
| Fanout.Log.Subscribe | internal/fanout/fanout.go:72-77 | exactly the subscribe step: a fresh subscriber at cursor 0 |
| Fanout.Subscriber.LookAt | internal/fanout/fanout.go:88-103 | the subscriber takes the next event, or leaves if the log is done, or goes to wait |
| Fanout.Log.LookStep | internal/fanout/fanout.go:87-103 | exactly the locked section of the subscriber loop |
| Fanout.Log.SendStep | internal/fanout/fanout.go:92-93 | exactly the send of the held event into the buffered channel |
| Fanout.Log.AbortStep | internal/fanout/fanout.go:94-107 | exactly the return when the context ends during either select: the subscriber has left |
| Fanout.Log.WakeStep | internal/fanout/fanout.go:104-105 | exactly the consumption of the wake token |
| Fanout.Log.UnregisterStep | internal/fanout/fanout.go:80-84 | exactly the deferred removal from the registry |
| Fanout.Log.CloseStep | internal/fanout/fanout.go:79 | exactly the deferred close of the channel, after the removal |
| Fanout.Log.CancelStep | internal/fanout/fanout.go:70-72 | exactly the end of a subscriber's context |
| Fanout.Log.ReceiveStep | internal/session/session.go:338 | a consumer gets the oldest buffered event |
| BuildLog.RenderText | internal/builder/builder.go:190-203 | the text is the printed log entries in order, one terminated line each, status changes skipped |
| BuildLog.ReplayLog | internal/session/session.go:378-389 | the entries are those of the stored text's non-empty lines, decoded by splitPhase |
| BuildLog.StoredReplay | internal/builder/builder.go:149-164 | the builder's own replay of a finished build: each non-empty stored line whole, then the status |
| BuildLog.PrintableSurvives | internal/session/session.go:391-399 | splitPhase inverts the printing of one event exactly when it is printable: no newline, no "] " in the phase, and an untagged line that does not look tagged |
| BuildLog.ReplayRoundTrip | internal/session/session.go:378-399 | replaying the printed text of any list of entries returns that list exactly when all of them are printable |
| BuildLog.StoredRoundTrip | internal/builder/builder.go:151-160 | the builder's own replay returns the list exactly when no entry has a phase |
| BuildLog.LookalikeIsMisread | internal/session/session.go:391-399 | the untagged line "[a] b" is not returned |
| BuildLog.ChunkLineByLine | internal/builder/builder.go:180-188 | a chunk is cut at its newlines and nowhere else; a line of white space gives no entry, any other line one, unchanged, of the current phase |
| BuildLog.WriteRoundTrip | internal/builder/builder.go:180-203 | for any writes: printed and replayed, exactly the non-blank lines of each chunk come back, in order and under their phases, precisely when every write with a line to keep has a phase name without newline or "] ", or no phase and no line that looks tagged |
| Logger.Logger.Line | internal/builder/builder.go:176-178 | appends one event of the current phase to the run's log |
| Logger.Logger.Write | internal/builder/builder.go:180-188 | appends one event of the current phase for each non-blank line of the chunk, in order, and reports the whole chunk written |
| Recipe.ValidateCommand | internal/recipe/recipe.go:150-176 | decides as CommandFault does, with the same first reason |
| Recipe.AcceptedIff | internal/recipe/recipe.go:150-176 | the checker accepts exactly the lines free of forbidden tokens whose split names an allow-listed program |
| Recipe.RefusalsFit | internal/recipe/recipe.go:152-175 | every refusal says exactly why: only white space; the first forbidden token of the list that occurs; only assignments; or the first field that is none, when it is no allowed program |
| Recipe.Split | internal/recipe/recipe.go:178-192 | splits into leading assignments, program and arguments |
| Recipe.AcceptedSplits | internal/recipe/recipe.go:150-192 | every accepted line splits into exactly its own fields, assignments first, then an allow-listed program |
| Recipe.SplitInvertsSpaced | internal/recipe/recipe.go:178-192 | a command whose assignments contain an equals sign and start with no dash, and whose program does not look so, written out with spaces, splits back into itself |
| Recipe.Validate | internal/recipe/recipe.go:113-148 | accepts exactly the valid recipes; a reported fault really is one, and nothing that is checked before it is wrong |
| Probe.ParseLine | internal/builder/probe.go:18-42 | the port one line contributes, in either format |
| Probe.Unreserved | internal/builder/probe.go:43-48 | the unreserved ports of a set, each once |
| Probe.ParseListening | internal/builder/probe.go:13-51 | the ascending list of unreserved ports the lines decode to |
| Probe.ListeningMembers | internal/builder/probe.go:13-51 | a port is listed exactly when some line decodes to it and it is none of 22, 35729 and 44772 |
| Probe.ListedPortsAreUsable | internal/builder/probe.go:28-47 | listed ports are positive and unreserved |
| Probe.LineOrderIrrelevant | internal/builder/probe.go:13-51 | reordering or repeating lines changes nothing |
| Probe.HexPortInvertsRendering | internal/builder/probe.go:53-64 | decoding a rendered local address returns its port, for every port from 1 to 65535 |
| Probe.SsLineNamesItsPort | internal/builder/probe.go:33-41 | a line of ss, whatever columns stand before and after its first address, decodes to the decimal port of that address, for every port from 1 to 65535 |
| Probe.ProcRowNamesItsPort | internal/builder/probe.go:23-32 | a row of /proc/net/tcp decodes to its hexadecimal local port when its state is 0A, and to none in any other two-byte state |
| Probe.ChoosePort | internal/builder/probe.go:66-78 | picks as Chosen says |
| Probe.ChosenMeaning | internal/builder/probe.go:66-78 | the choice is the hint when it listens, without it the minimum, and 0 only when nothing listens |
| Install.AppendTo | internal/builder/builder.go:441 | append in place when the capacity allows, else into a fresh array |
| Install.Repair | internal/builder/builder.go:440-442 | the failing command and the rest are replaced, and the recipe gets its own copy of the new list |
| Install.RunInstall | internal/builder/builder.go:407-446 | the verdict, the runs, the launched programs and the recipe's final list are those of the specification; the array the published recipe shares is not altered |
| Install.InstallOutcome | internal/builder/builder.go:407-446 | on success, and only then, the commands that exited 0 are exactly the final list; at most 24 commands run, at most 3 of them fail, the final list has at most 22 |
| Install.InstallBoundsAreReached | internal/builder/builder.go:431-443 | 22 and 24 are reached |
| Install.InstallStopsFor | internal/builder/builder.go:411-439 | on any run install stops for exactly the reason it reports: the budget was spent before the next command; the last command could not be run; or it exited with that code and no model was there, both repairs were spent, or the model gave no answer; it succeeds only after a command that exited 0 |
| Install.InstallEdits | internal/builder/builder.go:434-442 | the final list is the recipe's with the model's answers and nothing else put in, in order, one for each failure survived, each in place of some command and all after it |
| Install.InstallRunsAcceptedCommands | internal/recipe/model.go:44-69 | every command run and every command in the final list is accepted, repairs included |
| Install.OnlyAllowedProgramsLaunch | internal/builder/builder.go:416 | for a valid recipe every program install or start launches, on any run, is allow-listed |
| Install.ProbeRound | internal/builder/builder.go:469-493 | one turn of the probe loop decides exactly when it must, as specified |
| Install.ProbeLoop | internal/builder/builder.go:467-493 | the loop stops, and in the first round that commits, fails, is cancelled or passes the deadline |
| Install.StartAndProbe | internal/builder/builder.go:448-494 | the decision is that of the first deciding round, and in plain terms: web on the hint if it listens, else web on the minimum if an earlier round saw a port too, else broken if the probe failed, a terminal if the deadline has passed, and otherwise broken only if cancelled; no round before had the hint or a second sighting, failed, was late or cancelled |
| Install.DecisionMeans | internal/builder/builder.go:467-493 | the specification's decision is the one those plain terms give, for every first deciding round |
| Install.WebMeansSettled | internal/builder/builder.go:475-482 | web with port p only if p listens at the last probe and is the hint, or that probe's minimum with the hint absent and an earlier probe non-empty |
| Install.TerminalMeansNothingSettled | internal/builder/builder.go:483-487 | giving up means the hint was never up and at most one probe saw anything |
| Pipeline.MissingTools | internal/builder/builder.go:371-386 | the first command program the sandbox lacks, or nothing exactly when all are present |
| Pipeline.PrepareRepo | internal/builder/builder.go:302-316 | stops for a missing tool or a failed install, otherwise the recipe holds the final list; the list published before is unaltered |
| Pipeline.StartApp | internal/builder/builder.go:325-335 | the result is what the first deciding round of the probe comes to, also in plain terms: a terminal with nothing to start, failed if it cannot be started, else as the ports seen decide |
| Pipeline.Work | internal/builder/builder.go:274-335 | each of the eight ways to end happens exactly under its condition: failed in clone or detect, unsupported without a recipe, unsupported for a missing tool before the install or, asked anew, before the start, failed in the install, and else as the app's start comes to; if it works, the final install list is exactly the commands that exited 0 and a reported port was settled on; every program launched is allow-listed on every path; the published recipe is unaltered |
| BuildMachine.SingleFlight | internal/builder/builder.go:97-131 | over any interleaving: one build per commit, one unfinished run per build, and it is the registered one, every build Ensure returned is settled or running, and no more pipelines past the semaphore than its size |
| BuildMachine.ActionKeepsFlight | internal/builder/builder.go:97-369 | the invariant behind it, step by step |
| BuildMachine.UnregisterRemovesOwnEntry | internal/builder/builder.go:366-368 | a finishing pipeline removes its own table entry and no other |
| BuildMachine.UnregisteredRecordIsStable | internal/builder/builder.go:101-113 | no pipeline step writes the record of an unregistered build, so Ensure's check and act are one step |
| BuildMachine.FinishedStreamIsSettled | internal/builder/builder.go:213-236 | once the run's log is finished, or at once on the stored path, the stored record is ready, failed or unsupported, short of a rebuild of the build |
| BuildMachine.SandboxesConserved | internal/builder/builder.go:246-369 | over any run on an honest platform, rebuilds with any readable copy that is not stale about a living golden included, every created sandbox is held by one pipeline, or deleted, or the golden of one ready build whose snapshot was taken from it, and never two of these |
| BuildMachine.ActionKeepsSandboxes | internal/builder/builder.go:246-369 | the invariant behind it, step by step |
| BuildMachine.WaitConservesIffSameId | internal/sandbox/http.go:92-98 | the wait keeps conservation exactly when it returns the id it was asked for |
| BuildMachine.CleanupConservesIffDeleted | internal/builder/builder.go:261-267 | the deferred delete keeps conservation exactly when it succeeds or there is nothing to delete |
| BuildMachine.RebuildConservesIffCopyIsCurrent | internal/session/session.go:364-376 | a rebuild with whatever readable copy keeps conservation exactly when the record has no living golden of ours, or its delete is of that golden and works |
| BuildMachine.CopyStaysReadable | internal/session/session.go:367-369 | a ready record once read stays what a session may hold, whatever happens after; its golden was published for that build |
| BuildMachine.JoinKeepsFlightIff | internal/session/session.go:371-375 | a rebuild of a build whose run is still registered keeps single flight exactly when that run has yet to store its verdict |
| BuildMachine.JoinConservesIff | internal/session/session.go:367-375 | and keeps conservation under the same condition as any rebuild, which a run that has yet to store its verdict always meets |
| BuildLosses.WaitCanLose | internal/builder/builder.go:268 | from an empty store, a wait failing with an empty record loses the sandbox |
| BuildLosses.CleanupCanLose | internal/builder/builder.go:261-267 | a failed build whose delete fails loses it |
| BuildLosses.RebuildCanLose | internal/session/session.go:368-371 | a rebuild with the record itself whose delete fails loses the golden |
| BuildLosses.StaleRebuildCanLose | internal/session/session.go:367-376 | two rebuilds one after the other, the second with the first record, lose the second golden although every delete works |
| BuildLosses.OverlappingRebuildCanLose | internal/builder/builder.go:364-368 | a rebuild with an old record while another's run has just stored ready breaks both |
| BuildStream.ClosedChannelMeansSettled | internal/session/session.go:338-350 | over any joint run of the builder and a pipeline's log: if the build was registered when the session subscribed and the session's channel has closed uncancelled, or if it was not registered, the stored record is ready, failed or unsupported, short of a rebuild |
| BuildStream.ClosedChannelGaveAll | internal/session/session.go:338-346 | and the session has been given every event the log held at any move before the run finished it |
| BuildStream.StoredTextIsPrintedPrefix | internal/builder/builder.go:223-231 | over any joint run, the text stored with a verdict is the printing of a prefix of the run's events, and what a later visitor is told from it is that prefix exactly when its entries are printable |
| Builder.Builder.Ensure | internal/builder/builder.go:97-124 | exactly the ensure step: the commit's build, with nothing changed if it is settled or running, or queued again with a new pipeline as its run, or a new one if the commit has none; on a store fault nothing changes |
| Builder.Builder.Rebuild | internal/session/session.go:364-376 | exactly the rebuild step: the copy's golden deleted with its snapshots and no others when the delete works, the record overwritten, a new pipeline as the build's run |
| Builder.Builder.FailRun | internal/builder/builder.go:223-236 | stores the verdict, finishes the log and leaves the run table, touching no other build |
| Builder.Builder.Leave | internal/builder/builder.go:207-267 | the deferred calls: an unkept sandbox is deleted with its snapshots, the permit returned |
| Builder.Builder.Begin | internal/builder/builder.go:206-238 | past the semaphore, and the status building stored |
| Builder.Builder.Prepare | internal/builder/builder.go:246-335 | from the sandbox's creation to the app having run; on any failure the pipeline is wound up with the right verdict |
| Builder.Builder.Capture | internal/builder/builder.go:337-369 | from the snapshot to the end, either way |
| Builder.Builder.Deliver | internal/builder/builder.go:350-369 | the success exit: ready and published, nothing deleted |
| Builder.Builder.Execute | internal/builder/builder.go:205-369 | whatever fails, the right verdict is stored for this build alone, its log is finished, run and permit are given back; the sandbox is the golden on success and deleted on failure |
| Builder.VerdictMeans | internal/builder/builder.go:246-369 | that verdict is ready exactly when every call worked, unsupported exactly when the work in a ready sandbox was found to be, and failed otherwise |
| Store.Memory.CreateBuild | internal/store/memory.go:22-35 | the stored record, with id and times filled in |
| Store.Memory.UpdateBuild | internal/store/memory.go:37-50 | the caller's record with the store's own counters; nothing for an unknown id |
| Store.Memory.GetBuildBySHA | internal/store/memory.go:62-71 | a build of the commit, or none exists |
| Store.Memory.LatestBuild | internal/store/memory.go:73-87 | a newest build of the repository, or none exists |
| Store.Memory.RecordVisit | internal/store/memory.go:89-100 | one more visit at that time; nothing for an unknown id |
| Store.Memory.CreateSession | internal/store/memory.go:102-113 | the stored session, with id and time filled in |
| Store.Memory.UpdateSession | internal/store/memory.go:115-123 | replaces the record, if there is one |
| Store.Memory.LiveSessions | internal/store/memory.go:135-152 | the numbers of live sessions of the device, of the IP and in all |
| Store.Memory.LiveSessionsForDevice | internal/store/memory.go:154-164 | exactly the device's live sessions, each once |
| Store.VisitsAreConserved | internal/store/memory.go:37-100 | whatever stale copies are written back, a build's visits are its starting value plus its recorded visits, the last visit is the latest recorded, the creation time never changes |
| Store.LastWriteIsRead | internal/store/memory.go:37-60 | a read gives what the last update of a known build wrote, in every field but the store's own counters, whatever visits and operations on other builds follow |
| Store.OthersLeaveItAlone | internal/store/memory.go:22-60 | creates, updates and visits of other builds do not touch a build, nor make one |
| Store.UsageIsSum | internal/store/memory.go:166-172 | over any increments, every counter is what it was plus the increments under its own key |
| SessionMachine.ActionKeepsInv | internal/session/session.go:194-322 | the session invariant, step by step |
| SessionMachine.RunsEndOnce | internal/session/session.go:195-322 | over any interleaving a run that has returned tried at most two restores and one rebuild and left the session ended; an ended session's history holds exactly one ended event, with the stored reason, followed by at most the three announcements of going live, and no other session's holds any |
| SessionMachine.EndIsLastIffNotCutShort | internal/session/session.go:293-296 | over any interleaving, once the run has told all it has to tell, the ended event is the last exactly when no termination fell between the live store and the last announcement |
| SessionMachine.UndisturbedRunEndsLast | internal/session/session.go:195-322 | on every path through run that returns without a termination the session is ended and the ended event is the last |
| SessionMachine.StatusNeverRegresses | internal/session/session.go:197-293 | over any run in which only live sessions are replaced, stored status only moves forward, an end is final, at most one extension is ever granted |
| SessionMachine.SecondExtendRefused | internal/session/session.go:447-452 | over any run, once a session has been extended every later request changes nothing |
| SessionMachine.ExpiryBound | internal/session/session.go:291-293 | over any run, the expiry is within the hard cap exactly when the session went live in time or has been extended |
| SessionMachine.GrantIsTheSoonerBound | internal/session/session.go:456-460 | over any run, an extension moves the expiry to a window from now or to the cap, whichever is sooner, from the first window's end; the session gains exactly when time has passed since it went live and its first window ends before the cap |
| SessionMachine.ExtendShortensIffLate | internal/session/session.go:456-460 | over any run, an extension is at most a window from now and at most the cap, and moves the expiry earlier exactly when the session had not gone live in time |
| SessionMachine.PollEnforcesExpiry | internal/session/session.go:301-320 | over any run, a poll ends the session exactly when the sandbox is reported gone or stopped or the expiry stored at that moment has passed, and then for that reason |
| SessionMachine.ExtensionSurvivesIffPolledWell | internal/session/session.go:197-206 | over any run: when a granted extension is followed, with no end in between, by a poll that finds the sandbox gone or stopped, the final record has it exactly when some poll in between was good |
| SessionMachine.ReplacedStaysEndedIffLive | internal/session/session.go:228-229 | over any run: a session replaced now stays ended whatever its run goes on to do exactly when it is live |
| SessionMachine.LiveHasItsPreview | internal/session/session.go:282-290 | over any run, from going live on and for good the record has the platform's URL, and the history tells it with the app's port once, exactly when the build is a web app with a port and the platform exposed it; otherwise there is no preview at all |
| SessionMachine.VisitorSandboxIsFreed | internal/session/session.go:239-320 | over any run on an honest platform a session creates at most one sandbox, the one its record names, keeps it until it ends, and then has freed it, unless it ended because the sandbox had stopped |
| SessionMachine.PollFreesExactly | internal/session/session.go:303-319 | over any run: a poll that ends a live session leaves its sandbox gone exactly when it found it gone, or the session had expired and the delete works |
| SessionMachine.TerminationFreesIffDeleted | internal/session/session.go:403-408 | over any run: a termination of a live session leaves its sandbox gone exactly when the delete works |
| SessionMachine.FailedBootFreesIffSameId | internal/session/session.go:274-280 | a sandbox that does not start is freed exactly when the failed wait returns its id and the delete works |
| SessionWitnesses.ExtensionCanBeForgotten | internal/session/session.go:197-206 | a run in which a granted extension is missing from the final record |
| SessionWitnesses.ExtensionCanShorten | internal/session/session.go:456-460 | with the launch limits, a run in which the extension moves the expiry earlier |
| SessionWitnesses.FailedBootCanLeak | internal/session/session.go:274-280 | a run that ends with a failed boot and its sandbox left behind |
| SessionWitnesses.StoppedSandboxCanLeak | internal/session/session.go:308-310 | a run that ends with a stopped sandbox left behind |
| SessionWitnesses.ExpiredSandboxCanLeak | internal/session/session.go:316-319 | a run that ends with an expiry whose delete fails and the sandbox left behind |
| SessionWitnesses.EndCanBeFollowed | internal/session/session.go:293-296 | a run whose session is replaced right after the live store and that announces it all the same |
| SessionWitnesses.PageCanMislead | internal/session/session.go:293-296 | a run in which an extension is told before the window it extends, and a page that has heard everything shows neither the extension nor its expiry |
| Session.Run.FollowBuild | internal/session/session.go:324-362 | exactly the follow step; the visitor proceeds exactly when the build is ready, with the record read last and every streamed line told; otherwise the session is ended for the build's reason, the error told before it |
| Session.Run.RequestExtension | internal/session/session.go:439-471 | exactly the extend step, and which answer it gives; a grant is a window from now or the cap, at most both, and is told if the session is listed; a refusal changes nothing |
| Session.Run.RestoreLoop | internal/session/session.go:236-271 | the loop's outcome, the build it goes on with, the lines it tells of a lost snapshot and the build that replaces it, and on failure the stored reason with its error told, from the platform's and the builder's answers |
| Session.Run.Launch | internal/session/session.go:214-296 | the session goes live and is announced exactly when nothing on the way fails, whatever others do between the steps; it then has told the build's whole story, streamed or stored, and has the preview the build and the platform give it; otherwise it is ended for the first failure, its error told before the end |
| Session.LaunchTroubleMeans | internal/session/session.go:214-280 | which failure that is: each reason holds exactly when that is what happened, at the first build or the one that replaces a lost snapshot, at the first restore or the second |
| Session.Run.OpenWindow | internal/session/session.go:282-293 | the preview stored and told exactly when the build is a web app with a port the platform exposed; the record live, its terminal ready, its expiry a window from now |
| Session.Run.AnnounceLive | internal/session/session.go:294-296 | the three announcements, with others free to act before each, leave the run watching |
| Session.Run.Watch | internal/session/session.go:298-322 | the watcher always returns, whatever polls, extensions and replacements do |
| Session.Run.Drive | internal/session/session.go:194-322 | run returns on every path, whatever others do between its steps: the stored session is ended, the log finished with one ended event of the stored reason, which is the first failure's, its error told before, if there was one, and the event is the last exactly when the run was not cut short among its announcements |
| Session.TellLate | internal/session/session.go:155-190 | a session no longer listed is told its build's log, the build's failure if there was one, and the end with its reason |
| Admission.Manager.Terminate | internal/session/session.go:409-412 | the record is stored as ended for this reason |
| Admission.Manager.ReplaceAll | internal/session/session.go:119-126 | exactly the device's live sessions are ended, and how many they were |
| Admission.Manager.Create | internal/session/session.go:101-153 | the answer and the session table are those of Admit; a visit is counted exactly on admission |
| Admission.AnswerMeans | internal/session/session.go:109-138 | the four answers in counts alone: busy when the service is full; limited when the IP is, less the sessions the device gives up at its limit; unresolved without a build; else admitted |
| Admission.TableMeans | internal/session/session.go:113-145 | session by session: the device's live ones ended as replaced exactly when it is at its limit and the service is not full, the new one there exactly when admitted, every other as it was |
| Admission.AdmittedStartsRun | internal/session/session.go:139-153 | the admitted session is one a run can be started on: fresh, of this device, IP and build, starting exactly when the build is ready |
| Admission.AdmitKeepsCaps | internal/session/session.go:109-145 | whatever Create answers, live sessions stay within the global limit and every device within max(1, per-device limit) |
| Admission.CapsHold | internal/session/session.go:109-145 | with Create atomic and no write reviving a session, both caps hold over every run of creates and session writes |
| Admission.IpCapExactly | internal/session/session.go:123-130 | an admission keeps the IP within its limit exactly when the foreign sessions replaced leave room |
| Admission.IpCapOnOneIp | internal/session/session.go:123-130 | it always does when the sessions replaced share the IP |
| Admission.IpCapCanBreak | internal/session/session.go:123-130 | with the launch limits and all caps kept, an admission can exceed it |
| Admission.RefusalKeepsSessionsIff | internal/session/session.go:113-134 | a visitor who is not let in keeps the device's sessions exactly when the service is full, the device is below its limit or it has none |
| Admission.RefusalCanCost | internal/session/session.go:118-134 | with the launch limits and all caps kept, a refusal that costs the visitor a session |
| Admission.SplitOvershootsByLess | internal/session/session.go:109-145 | with check and insert apart and n creates in flight, live plus in-flight never exceeds global + n - 1 |
| Admission.OvershootIsReached | internal/session/session.go:109-145 | that bound is reached, for every limit and every n |
| Reducer.FoldFromEnded | web/src/sse/reducer.ts:87-106 | once ended, no history changes the status, build or preview |
| Reducer.FoldEnds | web/src/sse/reducer.ts:87-114 | a fold ends exactly when it started ended or an event says so |
| Reducer.FoldWhileOpen | web/src/sse/reducer.ts:87-106 | until it ends, status, build and preview are those of the last event that names a known one |
| Reducer.FoldPlainFields | web/src/sse/reducer.ts:87-114 | the other fields are their last writer's |
| Reducer.AttemptLeavesNoTrace | web/src/sse/reducer.ts:117-121 | a cut-off replay leaves no trace after a full one |
| Reducer.ReconnectIsIdempotent | web/src/sse/reducer.ts:65-122 | from any state, any number of cut-off replays and then a full one equal the full one alone |
| Reducer.LogWindow | web/src/sse/reducer.ts:81-86 | the log window always holds exactly the latest lines, at most 2000 |
| Reducer.ReplayedLogs | web/src/sse/reducer.ts:81-119 | after a reconnect the page shows exactly the last lines of the history |
| Reducer.EndIsSticky | web/src/sse/reducer.ts:61-126 | without a reset or a snapshot with another status, an ended session stays ended through any events |
| Reducer.LateSnapshotRevives | web/src/sse/reducer.ts:67-80 | such a snapshot exists |
| SessionPage.ActionInStep | internal/session/session.go:194-322 | every step of a session, each announcement included, keeps a page that has its events as far in step with the stored record as it has been told |
| SessionPage.LoadedInStep | web/src/sse/useSession.ts:51-123 | a page that loads the record of any moment of a run and then receives the stream is as far in step from that moment on |
| SessionPage.PageTellsTheTruth | web/src/sse/useSession.ts:97-123 | over any run of a session: a page that loaded its record at any earlier moment, lost any number of connections and heard, up to the first ended event, a stream opened while it was listed shows an end exactly when the stored session is ended, with its reason; until then, once the run has announced what it stored, it shows the stored status, expiry, extension and preview exactly when no extension was granted between the live store and the announcement of the window; its log is the latest of the lines the session told |
| SessionPage.BuildNamesAreKnown | web/src/sse/reducer.ts:49-59 | every build status the server writes is read as that status, by the page and by a session that follows the build |
| SessionPage.FollowTellsStatus | internal/session/session.go:331-346 | following an unsettled build tells its record's status and then each its stream reports, the last one last |
| SessionPage.PageShowsTheBuild | web/src/sse/reducer.ts:87-116 | over the same runs and reconnects: the page shows the build in the last status the session told before its end, ready after a preview, or the one it loaded if told none or loaded after the end; its error is the last one told; and it shows a ready build, as it is, while the session is starting, short of a rebuild, and while it is watched |
| SessionPage.LatePageTellsTheTruth | internal/session/session.go:155-190 | a session is unlisted only once ended; a connection opened then makes any page show the end, with the stored reason or else that the server was restarted, the last lines of the build's stored log, and an error exactly when the build was unsupported or failed |

## Left out

- HTTP handlers, server-sent-event framing, metrics, badges and the PTY relay: network input and output.
- `internal/store/postgres.go`: SQL behind a driver; the store is the in-process one.
- The sandbox client `internal/sandbox/http.go`, apart from what a wait may return: the platform is a parameter.
- Pipeline.Work: the inspector script's output, detectors, the prompts and the extraction of JSON from
  model replies: a recipe is any that `Validate` accepts, and a repair is any that `Repair` promises.
- Repository references (`internal/repo/repo.go`, `web/src/lib/repo.ts`): a resolved commit is given.
- React pages, hooks, terminal, styles and deployment.
- Wall-clock time, goroutine fairness and crashes: clocks are arbitrary or monotone, steps interleave arbitrarily.
- Timestamps of log events, and `message` texts of events: opaque to everything modelled.
- A `phase` message that is absent from the JSON: the model's field always holds a string.
- Text that is not valid UTF-8: strings are sequences of characters.
- The pointer inside a stored build's recipe: `cloneBuild` is what makes builds values, and here they are values.
- BuildMachine: the work between the sandbox being ready and the snapshot is one step that succeeds, fails or is
  unsupported; it touches nothing the other steps see, and `Pipeline.Work` says how it ends.
- BuildMachine: pipeline timeouts are failures of the call they interrupt.
- BuildMachine: the wait for a snapshot returns the record of the snapshot it was asked for.
- BuildMachine: a rebuild's delete, store write and Ensure are one step, and its runs have none while a run of the build
  is registered; `JoinKeepsFlightIff` and `JoinConservesIff` say what one such rebuild does.
- Builder.Builder.Rebuild: the same restriction.
- SessionMachine.StatusNeverRegresses: replacements of a session that is not live yet are not part of its runs, because
  the run then writes its own copy back; `ReplacedStaysEndedIffLive` says exactly when that matters. Interleavings
  inside Extend, end or terminate are not covered either.
- Session.Run.Terminate: the same restriction.
- Admission.CapsHold: a session replaced before it is live and revived by its run is not part of its runs; the same
  theorem says when that cannot happen.
- SessionMachine: failures of the store while a session runs; the in-process store has none for an existing session.
- SessionPage.PageTellsTheTruth: the page's own `extended` event after its extension request, and the reset of a restart.
- Admission.Manager.Create: the errors of the store's own calls, which the in-process store never returns here.
- Install.RunInstall: the command's environment, working directory and output are not modelled.
