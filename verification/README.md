# A verified model of AO's durable execution and its evidence

This project models, in Dafny, the parts of the repository whose correctness depends on
reasoning across many steps, and proves what they are for.

- **The durable execution journal** (`Journal`, `JournalGrammar`, `Recorders`,
  `CheckpointJournal`, `JournalHistory`). An append-only directory of event files of twelve
  kinds. One left-to-right pass accepts or rejects it; a declarative grammar says which lists
  those are. The recording methods are a class over a disk on which any step may fail or be cut
  off by a crash, leaving nothing, a torn file or a whole file; each method is proved equal to a
  function of the old disk, and invariants are proved over every history of such calls.
- **The engine that runs on it** (`RunLifecycle`, `EngineTrace`, `Engine`). The nested turn and
  action loops, with the worker, the broker, the verifier, the clock and the disk as oracles and a
  crash possible inside every call to one of them.
- **Mission's own validator of imported journals** (`GoJournal`), written independently in Go with
  another state, and **its canonical JSON post-pass** (`JsonPostPass`).
- **Capture index publication** (`Capture`): two names, link, unlink, sync, and recovery.
- **The correlation chain** (`JsonPointer`, `ParentGraph`, `SurrogateScanner`,
  `CorrelationImport`): paths of string fields, cycle detection, unpaired surrogates, and the
  in-place import of a new role.
- **The timeline index** (`TimelineIndex`) against a scan of all events.
- **Trial evaluation** (`Metrics`, `Corpus`, `Admission`, `TrialGroups`, `Medians`, `Comparison`,
  `Evaluation`).

`Words`, `Wrappers`, `Ordering` and `Distinct` are shared helpers. `dafny verify dfyconfig.toml`
checks everything.

## Assumptions

- Digests are collision-free. A file name carries the digest of the bytes it was meant to hold, so
  a name is modelled by the event it names, and a torn file never matches its name. The identity
  file holds the request itself. An effect and a turn carry their canonical digest as a field.
  Where injectivity is used it is a stated condition (`CorrelationImport.CollisionFree`).
- A file that was created and synced survives a crash. In `Capture`, the bytes of a file that was
  written but not synced may come back as any bytes, and changes of directory entries that were not
  synced are lost only as a suffix.
- One process at a time uses a journal. Within a run its worker uses it too: during a turn it may
  call any recorders, any number of times and with any faults, as the live worker does with its
  provider capture (crates/ao-next-cli/src/commands/live.rs:850-919). It does not publish the
  terminal record.
- A crash happens inside a call to an oracle or to the journal; between two such calls a run
  changes only its own memory, which the crash loses anyway.
- Strings are sequences of Unicode scalar values. The order of such sequences is the order of
  their UTF-8 bytes, which is the order Go and Rust sort by.
- Go's Unicode tables, `utf8.Valid`, white-space tests and digest functions are parameters.

## Results worth knowing first

- `JournalGrammar.ValidatorDecidesGrammar`: the validating pass accepts exactly the grammar.
- `Engine.DirectEngine.SuccessiveRuns`: over any number of runs on one journal, each possibly
  killed anywhere, and with workers that write the same journal during their turns, no effect is
  executed twice, and every reported observation is the durable one.
- `GoJournal.ValidatorsAgree`: the Rust validator accepts exactly the numbered lists that the Go one
  accepts and that hold at most 2^32 - 1 verifier records, and both rebuild the same state.
  `GoJournal.CounterOverflowDiffers` gives the journal on which they part; Mission's import limit of
  4096 events keeps it out of reach.
- `JsonPostPass.PostPassMatchesRust`: backslash parity finds exactly the genuine escapes.
- `JournalHistory.InterruptedHistoryRecovers`: through every history of publications and recoveries,
  each cut off anywhere, a whole terminal file is finished with exactly its bytes; only a torn file
  or a torn event is refused, and then for good. `Capture.AnyInterruptionRecovers` is the
  counterpart for capture indexes.
- `CorrelationImport.ImportSucceedsExactly`: the final re-check of an import fails exactly for a
  moved artifact, a changed chain or a record without identity.
- `JsonPointer.LookupEvaluates`: looking a path up is evaluating a JSON Pointer.
- `Evaluation.ReadyExactly`: what the runs of a comparison must show for the offline decision to say
  that it is ready.

Some statements one might expect are false of the code, and the model says exactly when they hold:
the cheap guards of the recorders that are not capture steps leave a named remainder to the full
validator (`Recorders.GuardsCompletedByValidator`); staging a capture is not yet durable
(`Capture.StagingAloneIsNotDurable`); a capture recovery that finds the final name alone reports a
publication which a crash can still take back (`Capture.SuccessIsDurable`, with
`Capture.PublishedAnswerTakenBack` as a witness), and so can one repair
(`Capture.UnsyncedRepairCanBeLost`); the two notions of an unknown provider outcome differ
(`GoJournal.UnknownOutcomesDiffer`); and the median of an even number of values saturates
(`Medians.EvenMedianBetween`, with `Medians.EvenMedianTooLow` as a witness).

## Model

| member | source | states |
|---|---|---|
| Journal.ValidateJournalLifecycle | crates/ao-next-core/src/recovery.rs:248-400 | the validating loop rebuilds exactly the state of the replay function, or refuses exactly when that does |
| Journal.PrefixAccepted | crates/ao-next-core/src/recovery.rs:248-400 | every prefix of an accepted journal is accepted |
| JournalGrammar.ValidatorDecidesGrammar | crates/ao-next-core/src/recovery.rs:248-400 | a journal is accepted if and only if it is numbered, starts with the first links of the provider chain, has effects with unique ids and answered completions, then alternating verification rounds once all intents are complete, then at most one terminal event |
| JournalGrammar.AcceptedFits | crates/ao-next-core/src/recovery.rs:248-400 | an accepted journal has a layout that fits the grammar and describes the rebuilt state |
| JournalGrammar.FittingAccepted | crates/ao-next-core/src/recovery.rs:248-400 | every list that fits the grammar is accepted |
| JournalGrammar.CompletedIsSettled | crates/ao-next-core/src/recovery.rs:356-366 | the completeness test on the rebuilt effect map is the statement that every intent in the list has a completion |
| Recorders.CaptureGuardsExact | crates/ao-next-core/src/recovery.rs:796-895 | from process start to turn normalisation the local check appends exactly when the full validator accepts the longer journal |
| Recorders.GuardsCompletedByValidator | crates/ao-next-core/src/recovery.rs:777-1072 | when a local check lets an append through, the validator accepts it exactly if a listed remaining condition holds |
| Recorders.GuardsNeverTooStrict | crates/ao-next-core/src/recovery.rs:777-1072 | where the validator would accept an append, the local check lets it through if and only if, for a completion, the recorded effect is the one the intent named and the observation answers it |
| Recorders.CaptureExcludesEverythingElse | crates/ao-next-core/src/recovery.rs:408-413 | in capture steps 1 to 5 only the next capture link can be appended, and every effect and verification operation is refused; the terminal operations are those of JournalHistory.CaptureRefusesTerminals |
| Recorders.ProviderStartedOnce | crates/ao-next-core/src/recovery.rs:274-316 | each link of the provider chain, so also the provider start, occurs at most once in an accepted journal |
| Recorders.AppendableIsStep | crates/ao-next-core/src/recovery.rs:1324-1349 | a revalidated append succeeds exactly if it is one more legal step, and then has that step's state |
| CheckpointJournal.CheckpointJournal.BindRequest | crates/ao-next-core/src/recovery.rs:601-626 | binds a new journal, accepts the same request again, refuses another one, for every fault |
| CheckpointJournal.CheckpointJournal.AppendExecutionEvent | crates/ao-next-core/src/recovery.rs:1324-1349 | reloads, validates the longer list and creates exactly one file, whole, torn or not at all |
| CheckpointJournal.CheckpointJournal.LoadExecutionEvents | crates/ao-next-core/src/recovery.rs:1356-1420 | yields the named events exactly if every file is whole, numbered and matches its name and the list is accepted |
| CheckpointJournal.CheckpointJournal.RecordEffectIntent | crates/ao-next-core/src/recovery.rs:985-1003 | the new disk and the result are those of the operation's function, for every fault |
| CheckpointJournal.CheckpointJournal.RecordEffectCompletion | crates/ao-next-core/src/recovery.rs:1005-1025 | the new disk and the result are those of the operation's function, for every fault |
| CheckpointJournal.CheckpointJournal.RecordProviderRequestIntent | crates/ao-next-core/src/recovery.rs:777-794 | the new disk and the result are those of the operation's function, for every fault |
| CheckpointJournal.CheckpointJournal.RecordProviderProcessStarted | crates/ao-next-core/src/recovery.rs:796-814 | the new disk and the result are those of the operation's function, for every fault |
| CheckpointJournal.CheckpointJournal.RecordProviderOutputRetained | crates/ao-next-core/src/recovery.rs:816-834 | the new disk and the result are those of the operation's function, for every fault |
| CheckpointJournal.CheckpointJournal.RecordProviderCapturePublished | crates/ao-next-core/src/recovery.rs:836-854 | the new disk and the result are those of the operation's function, for every fault |
| CheckpointJournal.CheckpointJournal.RecordProviderCaptureVerified | crates/ao-next-core/src/recovery.rs:856-874 | the new disk and the result are those of the operation's function, for every fault |
| CheckpointJournal.CheckpointJournal.RecordAdapterTurnNormalized | crates/ao-next-core/src/recovery.rs:876-895 | appends the turn, repeats the same turn as a no-op, refuses another one, for every fault |
| CheckpointJournal.CheckpointJournal.BeginVerification | crates/ao-next-core/src/recovery.rs:1027-1047 | starts the next attempt, or leaves an open one open, for every fault |
| CheckpointJournal.CheckpointJournal.RecordVerifier | crates/ao-next-core/src/recovery.rs:1049-1072 | the new disk and the result are those of the operation's function, for every fault |
| CheckpointJournal.CheckpointJournal.EffectStates | crates/ao-next-core/src/recovery.rs:935-983 | reports the durable state of every effect of a turn, and refuses a turn that does not cover the journal |
| CheckpointJournal.CheckpointJournal.PublishTerminalRecord | crates/ao-next-core/src/recovery.rs:1113-1149 | file first, then event; the new disk and the result are those of the publication function, for every fault |
| CheckpointJournal.CheckpointJournal.RetainedTerminalRecord | crates/ao-next-core/src/recovery.rs:1074-1093 | returns the bytes of the one whole terminal file whose digest matches, for every fault |
| CheckpointJournal.CheckpointJournal.RecoverTerminalRecord | crates/ao-next-core/src/recovery.rs:1095-1111 | republishes the retained bytes, for every fault |
| JournalHistory.HistorySound | crates/ao-next-core/src/recovery.rs:1074-1205 | after any history of faulty calls the log is sound, there is at most one terminal file, and a terminal event implies the whole file with the same digest |
| JournalHistory.AfterTerminalSound | crates/ao-next-core/src/recovery.rs:1113-1205 | every call keeps that invariant, and once a terminal file exists no call changes or adds one |
| JournalHistory.PublishedIsFinal | crates/ao-next-core/src/recovery.rs:1113-1149 | after the terminal event the same bytes are a no-op and different bytes are refused |
| JournalHistory.PublishedFileIsFinal | crates/ao-next-core/src/recovery.rs:1113-1149 | with a whole terminal file and no event yet, different bytes are refused and nothing changes |
| JournalHistory.CaptureRefusesTerminals | crates/ao-next-core/src/recovery.rs:1074-1149 | in capture steps 1 to 5 publishing, retrieving and recovering a terminal record all fail, and change no event and no terminal file, under every fault |
| JournalHistory.InterruptedPublishRecovers | crates/ao-next-core/src/recovery.rs:1095-1149 | after one interruption anywhere recovery finishes with exactly the given bytes if a whole file exists, does nothing if none does, and refuses a torn file or event; which of these it is depends on the fault alone |
| JournalHistory.InterruptedHistoryRecovers | crates/ao-next-core/src/recovery.rs:1074-1149 | after any history of publications of these bytes and of recoveries, all of which may be cut off anywhere, a healthy recovery finishes with exactly these bytes if a whole file exists and does nothing if none does; it is refused only if some call of the history left a torn file or event |
| JournalHistory.SpoiledStays | crates/ao-next-core/src/recovery.rs:1074-1149 | with a torn terminal file or an unreadable log every publication, of whatever bytes, and every recovery is refused and changes nothing |
| JournalHistory.CaptureCompletes | crates/ao-next-cli/src/commands/live.rs:850-919 | on a blank journal the five captures of the live worker and the turn normalisation of the engine succeed in this order, and the journal then holds exactly that capture |
| JournalHistory.DamagedIsClosed | crates/ao-next-core/src/recovery.rs:1356-1420 | a torn or otherwise damaged log is never written to again |
| JournalHistory.HistoryGrows | crates/ao-next-core/src/recovery.rs:1324-1349 | what is durable only ever gets longer |
| JournalHistory.ObservationsPermanent | crates/ao-next-core/src/recovery.rs:1005-1019 | no later history changes an effect's digest or its recorded observation |
| RunLifecycle.Lifecycle.Transition | crates/ao-next-core/src/terminal.rs:35-63 | takes exactly the permitted edges and otherwise leaves the state alone |
| RunLifecycle.WalksAreDisciplined | crates/ao-next-core/src/terminal.rs:35-63 | a run passes only directly out of verification, verification comes only out of running, nothing follows a terminal state |
| RunLifecycle.CheckedTotalTokens | crates/ao-next-core/src/adapter.rs:277-282 | the chain of checked additions yields the true total exactly when that fits 64 bits |
| RunLifecycle.TokenUsage.CheckedAccumulate | crates/ao-next-core/src/adapter.rs:284-299 | adds all five counters, or on any overflow none |
| EngineTrace.IntentBecomesDurable | crates/ao-next-core/src/engine.rs:515-529 | a reported intent is durable and was not durable before, and no verification has begun |
| EngineTrace.CompletionBecomesDurable | crates/ao-next-core/src/engine.rs:604-623 | a reported completion is durable exactly as observed |
| EngineTrace.ReportBecomesDurable | crates/ao-next-core/src/engine.rs:671-688 | a reported verifier record is the last durable event, after every durable intent was completed |
| EngineTrace.TurnBecomesDurable | crates/ao-next-core/src/engine.rs:272-292 | a turn that was recorded, now or before, is the one that the durable capture ends with |
| EngineTrace.AdmittedOnce | crates/ao-next-core/src/engine.rs:440-458 | a trace in which no effect is met twice hands distinct effects to the broker |
| EngineTrace.ObservedOnce | crates/ao-next-core/src/engine.rs:440-482 | a trace in which no effect is met twice has observations of distinct effects |
| EngineTrace.RecordedStatesHeld | crates/ao-next-core/src/engine.rs:459-482 | a replayed result is the one the journal holds |
| Engine.DirectEngine.RunInner | crates/ao-next-core/src/engine.rs:145-769 | one terminal event, last, with events numbered from 0; no effect is admitted twice or observed twice, and the broker was handed exactly the admitted effects, in order and each once, even if the run is killed; turns and repairs within limits; the failure code determines the terminal state and what it claims about the trace or the counters is true; a pass has a passed verification with the reported digest, usage equal to the sum of the turns and within limits, every admitted effect observed, no denial and no control mutation; a durable run, whatever its worker records in the journal meanwhile, executes only effects whose intent became durable in it, reports only durable observations, admits no effect after a failed verification, executes nothing on a journal with a begun verification, and with another request does nothing |
| Engine.DirectEngine.SuccessiveRuns | crates/ao-next-core/src/engine.rs:257-623 | over any runs on one journal, for any requests, with a crash anywhere and with workers that make any recorder calls on that journal during their turns, no effect id is executed twice and every observation ever reported is the durable one |
| Engine.Adapter.ExecuteTurn | crates/ao-next-cli/src/commands/live.rs:850-919 | a turn of a worker that makes any recorder calls on the journal, with any faults, keeps the log sound and everything the journal knew |
| Engine.Session.ObtainTurn | crates/ao-next-core/src/engine.rs:257-302 | the worker may write the journal and may be killed while it answers; a run goes on only with a turn that, if the journal belongs to a capture, is the one that capture durably ends with |
| Engine.OnceBetweenRuns | crates/ao-next-core/src/recovery.rs:777-1149 | any recorder calls, publications and recoveries between runs, under any faults, keep every effect executed at most once and every reported observation durable |
| Engine.ReportsAgree | crates/ao-next-core/src/engine.rs:474-482 | any two runs on one journal report the same observation for an effect |
| Engine.OnceExtended | crates/ao-next-core/src/engine.rs:515-536 | executions that are new to the journal and distinct keep at-most-once over the whole life of the journal |
| Engine.Session.Finish | crates/ao-next-core/src/engine.rs:794-825 | the transition to a terminal state is always permitted where it is asked for, so the internal failure is unreachable |
| Engine.Session.Resume | crates/ao-next-core/src/engine.rs:459-497 | an effect the journal knows but cannot read stops the run, an unknown one interrupts it, and a completed one appends the journal's own observation to the trace without an execution |
| Engine.Session.ExecuteEffect | crates/ao-next-core/src/engine.rs:499-631 | continues only with the effect executed once and two more events, its admission and directly after it its observation, and with a journal only if the intent was not durable before and is durable after; an effect with a durable intent stops the run unexecuted |
| Engine.Session.PerformVerify | crates/ao-next-core/src/engine.rs:652-730 | ends the run, or, within the repair limit, goes to the next turn with one more repair attempt and the failed verification at the end of the trace, and keeps what the journal promises |
| Engine.Session.Judge | crates/ao-next-core/src/engine.rs:690-730 | a passed verdict ends the run with a pass; a failed one goes to the next turn exactly if a repair attempt is left, with that attempt and the failed verification recorded, and otherwise ends the run with that failure |
| GoJournal.ValidateAONextJournalLifecycle | mission/internal/mission/ao_next_journal_prefix.go:456-552 | the Go loop, with its merged effects map and previous-event lookups, computes exactly the state of its replay function |
| GoJournal.ValidatorsAgree | mission/internal/mission/ao_next_journal_prefix.go:456-552 | on numbered lists the Rust validator accepts, with well-formed digests, exactly what the Go one accepts with at most 2^32 - 1 verifier records, and the states correspond |
| GoJournal.ImportDecidesGrammar | mission/internal/mission/ao_next_journal_prefix.go:382-552 | within the import limit Mission accepts exactly the lists of the grammar |
| GoJournal.CounterOverflowDiffers | mission/internal/mission/ao_next_journal_prefix.go:535-541 | the journal of 2^32 verification rounds is accepted in Go with its counter wrapped to zero, refused in Rust, and longer than the import limit |
| GoJournal.StatusNeverRegresses | mission/internal/mission/ao_next_journal_prefix.go:685-721 | along every extension of a journal the rank of the projected status never falls |
| GoJournal.StatusMeaning | mission/internal/mission/ao_next_journal_prefix.go:685-721 | with at most 2^32 - 1 verifier records the effect outcome is unknown exactly if nothing was verified and some intent lacks its completion; prepared is exactly the empty journal |
| GoJournal.UnknownOutcomesDiffer | mission/internal/mission/ao_next_journal_prefix.go:685-721 | Mission's and the engine's unknown provider outcome agree exactly outside provider steps 1, 3, 4 and 5 |
| JsonPostPass.RustCompatibleJson | mission/internal/mission/ao_next_journal_prefix.go:780-800 | the loop over bytes computes exactly the pass function |
| JsonPostPass.PostPassMatchesRust | mission/internal/mission/ao_next_journal_prefix.go:770-800 | for every document of strings and integers the pass turns Go's encoding into the one that leaves U+2028 and U+2029 raw |
| JsonPostPass.RewriteSeparator | mission/internal/mission/ao_next_journal_prefix.go:780-800 | a genuine separator escape is rewritten to that separator's bytes |
| JsonPostPass.CopyShort | mission/internal/mission/ao_next_journal_prefix.go:780-800 | an escaped backslash is copied and leaves an even run, so what follows it is never taken for an escape |
| Capture.CaptureIndexStore.StageIncomplete | crates/ao-next-core/src/capture.rs:87-114 | create, write, sync: the directory and the result are those of the staging function, for every cut |
| Capture.CaptureIndexStore.PublishStagedIndex | crates/ao-next-core/src/capture.rs:116-136 | link, sync, remove, sync: the directory and the result are those of the publication function, for every cut |
| Capture.CaptureIndexStore.RecoverIndex | crates/ao-next-core/src/capture.rs:138-167 | the directory and the result are those of the recovery function, for every cut |
| Capture.BytesNeverLost | crates/ao-next-core/src/capture.rs:87-167 | once the bytes are synced under a durable name they stay under at least one name, and no name holds others, through every history of cut-off calls and crashes |
| Capture.RecoveryCompletes | crates/ao-next-core/src/capture.rs:138-167 | recovery ends with the final name alone, and a second recovery changes nothing |
| Capture.AnyInterruptionRecovers | crates/ao-next-core/src/capture.rs:116-167 | after every such history recovery finishes with exactly the staged bytes |
| Capture.SuccessIsDurable | crates/ao-next-core/src/capture.rs:289-314 | a recovery that reports success has the digest's bytes under the final name, and no crash changes that if and only if the file was synced and either a name was repaired, or every state a crash can fall back to already had the final name |
| Capture.PublicationDurable | crates/ao-next-core/src/capture.rs:116-136 | a publication that reports success leaves the final name alone, and no crash undoes it if and only if the staged file was synced |
| Capture.SafeRepairIsDurable | crates/ao-next-core/src/capture.rs:138-167 | a repair of durably staged bytes cannot be undone by a crash |
| Capture.PublishedAnswerTakenBack | crates/ao-next-core/src/capture.rs:138-167 | the case left out of durability: publication cut off after the link, recovery cut off after the removal, and a recovery that then reports a publication without any sync, which a crash takes back to the staged name |
| Capture.UnsyncedRepairCanBeLost | crates/ao-next-core/src/capture.rs:87-167 | a staging cut off between write and sync is repaired with a success that a crash can turn into other bytes |
| Capture.ContradictionUntouched | crates/ao-next-core/src/capture.rs:138-167 | files that contradict the digest or each other are refused and left untouched |
| Capture.StagingAloneIsNotDurable | crates/ao-next-core/src/capture.rs:87-114 | after staging alone a crash keeps the bytes exactly if it keeps the new directory entry |
| Capture.PublishRoundTrip | crates/ao-next-core/src/capture.rs:76-136 | stage and publish put the bytes durably under the final name |
| ParentGraph.ValidateCorrelationParentGraph | mission/internal/mission/correlation_chain.go:1113-1142 | terminates on every finite role map and accepts exactly if following parents never returns to a role, in any iteration order |
| ParentGraph.Search.Visit | mission/internal/mission/correlation_chain.go:1118-1136 | visits a role after its parents, and fails only on a role that returns to itself |
| JsonPointer.Collector.CollectStringFields | mission/internal/mission/correlation_chain.go:1792-1825 | appends exactly the fields of the specification function |
| JsonPointer.ValidPointer | mission/internal/mission/correlation_chain.go:1833-1847 | accepts exactly the pointers of the non-empty routes |
| JsonPointer.DecodeEncode | mission/internal/mission/correlation_chain.go:1827-1831 | splitting and unescaping a pointer, in the order of section 4 of RFC 6901, gives back the route, whatever its keys contain |
| JsonPointer.EncodeDecode | mission/internal/mission/correlation_chain.go:1827-1847 | every valid pointer is the pointer of the route it decodes to |
| JsonPointer.CollectedExactly | mission/internal/mission/correlation_chain.go:1783-1825 | the collected fields are exactly the strings of the document, each under its own pointer and with its nearest key, and no two paths are equal |
| JsonPointer.LookupEvaluates | mission/internal/mission/correlation_chain.go:1849-1856 | for every path text, lookup finds a string exactly if the path is a pointer that evaluates to that string |
| JsonPointer.StringField | mission/internal/mission/correlation_chain.go:1783-1856 | collecting, sorting and searching returns the string at the pointer, or nothing |
| SurrogateScanner.ValidateExactJsonUnicode | mission/internal/mission/correlation_chain.go:1368-1412 | the index loop decides exactly the scan function |
| SurrogateScanner.TokensScan | mission/internal/mission/correlation_chain.go:1368-1412 | a rendered text is accepted exactly if in each of its strings every escaped high surrogate stands directly before a low one and every low one directly after a high one |
| SurrogateScanner.ClosedScan | mission/internal/mission/correlation_chain.go:1368-1412 | so every such byte text is accepted exactly if the surrogates of each of its strings are paired |
| SurrogateScanner.TextIsRendered | mission/internal/mission/correlation_chain.go:1368-1412 | every byte text whose strings close and whose escapes are well formed is the rendering of the token list read from it |
| SurrogateScanner.RenderedCloses | mission/internal/mission/correlation_chain.go:1368-1412 | every rendering of a token list closes its strings and is read back as that list |
| SurrogateScanner.UnitsScan | mission/internal/mission/correlation_chain.go:1373-1402 | the same for one string in front of any remaining text |
| CorrelationImport.Record.RecordCorrelationChainImport | mission/internal/mission/correlation_chain.go:699-746 | refuses a known role unchanged; otherwise edits references and imports in place to exactly the changed record, and succeeds exactly if that is valid |
| CorrelationImport.Record.ValidateState | mission/internal/mission/correlation_chain.go:748-828 | accepts exactly the valid records: distinct valid references, distinct well-formed imports each bound to one, every reference used |
| CorrelationImport.ValidateReference | mission/internal/mission/correlation_chain.go:830-913 | accepts exactly the valid references, among them that roles are distinct, parents are linked by digest and the parent graph is acyclic |
| CorrelationImport.ImportSucceedsExactly | mission/internal/mission/correlation_chain.go:699-828 | importing a new role through a valid reference yields a valid record exactly if the record has an identity, a stored reference to the same chain is the same one, and covered imports keep their path |
| CorrelationImport.LivePathKept | mission/internal/mission/correlation_chain.go:718-728 | for a live entry keeping the path means that its locator digest is the one of the import's own path |
| CorrelationImport.NothingLost | mission/internal/mission/correlation_chain.go:715-745 | every import keeps its place, role, digest and path, uncovered ones are untouched, and a reference is retained exactly if it is the new one or an uncovered import needs it |
| TimelineIndex.TermsForEvent | mission/internal/mission/event_index.go:537-556 | returns in strictly ascending order exactly the maximal words of at least two bytes in the event's text |
| TimelineIndex.BuildQueryIndex | mission/internal/mission/event_index.go:125-186 | refuses exactly a timeline without a valid event index; otherwise lists a match under a term exactly if some event with that mission, kind and sequence has the term, with terms and matches strictly ascending, and carries both digests |
| TimelineIndex.IndexUnique | mission/internal/mission/event_index.go:125-160 | the index depends only on the set of events, not on their order, on repetitions or on map iteration order |
| TimelineIndex.CountsExact | mission/internal/mission/event_index.go:507-535 | one mission's rows are exactly the pairs the scan finds, each once, and no duplicate is counted |
| TimelineIndex.CountMatches | mission/internal/mission/event_index.go:507-517 | the counter is the number of the mission's rows |
| TimelineIndex.CountDuplicates | mission/internal/mission/event_index.go:519-535 | the counter is the number of rows whose key an earlier row has |
| TimelineIndex.KeyInjective | mission/internal/mission/event_index.go:527-531 | two rows of a mission with one key are one row, even if a kind contains NUL |
| Metrics.DeriveMetrics | crates/ao-next-eval/src/metrics.rs:137-218 | fails with the first fault in the order of the checks; otherwise the total is the true sum and both rates are rounded-down basis points of at most 10000 |
| Metrics.AddTokensExact | crates/ao-next-eval/src/metrics.rs:182-192 | the checked sum succeeds exactly if every field is there and the true total fits 64 bits |
| Corpus.Validate | crates/ao-next-eval/src/corpus.rs:122-171 | accepts exactly the valid corpora, in particular distinct tasks with one complete profile for each variant |
| Corpus.ThreeProfiles | crates/ao-next-eval/src/corpus.rs:140-157 | three profiles with all variants among them is the same as one profile for each variant |
| Corpus.ScheduleBalanced | crates/ao-next-eval/src/corpus.rs:255-267 | the schedule has exactly one place for each variant in each trial |
| Corpus.PlacesBalanced | crates/ao-next-eval/src/corpus.rs:255-267 | over the trials a variant takes each of the three places once |
| Admission.AdmitRuns | crates/ao-next-eval/src/comparison.rs:237-278 | succeeds exactly if every run is admitted and no trial, run id, trial id, capture or workspace is used twice, and then holds a true row for each run |
| Admission.CheckCoverage | crates/ao-next-eval/src/comparison.rs:279-295 | finds a missing trial exactly if there is one |
| TrialGroups.TrialExactlyOnce | crates/ao-next-eval/src/comparison.rs:237-295 | in an accepted comparison every task, variant and trial has exactly one run, at its scheduled place |
| TrialGroups.GroupOfThree | crates/ao-next-eval/src/comparison.rs:374-383 | every task and variant has exactly three rows, with trial indices 0, 1 and 2 |
| TrialGroups.NinePerTask | crates/ao-next-eval/src/comparison.rs:237-295 | every task has exactly nine runs and there are no others |
| Medians.Median | crates/ao-next-eval/src/comparison.rs:431-439 | of an odd number of values the true middle by counting both sides; of an even number the halved saturating sum of the two middle ones |
| Medians.MiddleUnique | crates/ao-next-eval/src/comparison.rs:431-439 | at most one value is the middle of an odd number of values |
| Medians.EvenMedianBetween | crates/ao-next-eval/src/comparison.rs:431-439 | the even median lies between the two middle values exactly if the lower one is at most half of the largest 64-bit value |
| Medians.EvenMedianTooLow | crates/ao-next-eval/src/comparison.rs:431-439 | two largest values have a median below both |
| Comparison.SummarizeGroups | crates/ao-next-eval/src/comparison.rs:374-401 | one summary for every group that has rows, in order of task and variant, each with the medians of exactly that group's rows |
| Evaluation.EvaluateRepeated | crates/ao-next-eval/src/comparison.rs:220-311 | succeeds exactly on acceptable requests, then reports true rows and medians with their gates, undecided and with nothing authorised, and never takes a median of an empty list |
| Comparison.GroupMediansAreMiddles | crates/ao-next-eval/src/comparison.rs:374-439 | every group median of an accepted report is the true middle of three values, and the hidden-test median stays a rate |
| Evaluation.HiddenGateExact | crates/ao-next-eval/src/comparison.rs:451-461 | the hidden-test gate passes if and only if for every task the true middle of the N7 rates is at least those of N0 and of N4 |
| Evaluation.EvaluateOffline | crates/ao-next-eval/src/comparison.rs:162-173 | succeeds exactly on acceptable requests, with that report and the decision that all its gates make, and never with a live result |
| Evaluation.BoundaryGatesAlwaysPass | crates/ao-next-eval/src/comparison.rs:441-527 | the gates for unauthorized effects and for the one-worker boundary pass for every admitted comparison |
| Evaluation.ReadyExactly | crates/ao-next-eval/src/comparison.rs:441-527 | all gates pass if and only if every N7 run is good, no task's middle hidden-test rate got worse, the three token and clock bounds hold, and recovery was shown or qualified |

## Left out

- Engine.DirectEngine.RunInner: says nothing about how much a run achieves, because the worker, the broker, the verifier and the clock may answer anything; a worker that never verifies ends at a limit.
- JournalHistory.InterruptedHistoryRecovers: recorder calls for the same request are not part of such a history; a new verification round holds publication back until it is complete.
- JsonPostPass.PostPassMatchesRust: documents hold strings, integers, booleans, null, arrays and objects; other numbers and negative zero are encoded differently by the two languages.
- CorrelationImport.Record.RecordCorrelationChainImport: an entry's six authority flags are one boolean, and a refused import leaves the record as the code does, for the caller to discard.
- File descriptors, symbolic links, reparse points, inode fingerprints, the existing-only mode and Windows handles: create-new, link, remove, sync and read stand for them.
- Process execution, threads, timeouts, git and the verifier's commands: oracles.
- SHA-256, serde, `encoding/json` and regular expressions, except the escape rules and patterns stated above.
- Byte-size limits other than the capture limit, error texts, timestamps and tables of required fields.
- The legacy checkpoint commit and resume, and the read-only prefix queries of the journal.
- The resolution, archiving and restoration of correlation artifacts, and native identifier binding.
- The validation of a recovery qualification, which is a parameter of the gates, and live authorisation.
- The command line, gateways, prompts, readbacks, dashboards, doctor and safety scripts.
- Pause, resume and Mission transactions.
- Two processes writing one journal at once: the design allows one worker.
