# Moonbite state machines

Moonbite's durable components are append-only ledgers that are replayed on every call: take a lock,
replay, validate, append one or two rows, answer from memory. This project models the deepest of
them in Dafny and proves what they promise over every ledger, every run and every crash point.

`dafny verify dfyconfig.toml` checks the whole project.

| files | what they model |
|---|---|
| `effect_model`, `effect_history`, `effect_ledger`, `effect_outcomes` | the seven-state effect protocol, its strict replay, the mutators of `EffectLedger`, and what each call leaves in the replay |
| `effect_readers`, `effect_cache`, `effect_tails` | the locked, lock-free and quarantining readers, the incremental cached projection over bytes that other processes keep appending, and torn tails |
| `session_model`, `session_replay`, `session_attempts`, `session_crash`, `session_runs`, `session_store` | lifecycles sharing one ledger, the six mutators, crashes between appends, retries, and the store with its in-place states |
| `session_history`, `session_outcomes` | lifecycles as facts about their rows, when a row is accepted, and what each mutator records, answers and leaves |
| `panel_model`, `panel_outbox`, `panel_settlement`, `panel_conflicts`, `panel_losses`, `panel_isolation`, `panel_outcomes`, `panel_store` | the outbox from state file to event bus, announcements that conflict or get lost, owner epochs, consume-once, rollover, owners over whole runs, and what each call leaves and shows |
| `autonomy_safety`, `autonomy_search`, `autonomy_answers`, `autonomy_engine`, `admission` | one autonomy tick around one provider call, its answer in every environment, the weighted draw, the history limits are judged by |
| `memory_model`, `memory_graph`, `memory_outcomes`, `memory_store`, `history_chain` | cards, maintenance proposals and receipts, derived views, what each operation does to them, the bounded search |
| `control`, `control_history` | runtime controls, expiry, resolution, the gate, all over the rows of the ledger |
| `seen_window`, `incidents`, `incident_history`, `incident_summary`, `observations`, `observation_history` | replay cursors with a memory of 256 ids, decisions in terms of what was accepted before, and the incident summary |
| `basics`, `orders` | shared vocabulary |

How to read it:

- A ledger is a sequence of decoded rows. Its meaning is a recursive replay; a store is a class whose
  methods work in place, with the source's loops, and are proved to move the rows exactly as a pure
  step function says. Runs, crash points and interleavings are then quantified over the step function.
- What a step function does is then stated without it: the `...Means` and `...Iff` lemmas say when each
  call succeeds and what a reader of the ledger, file or views finds afterwards, and what is unchanged.
- A crash is a failing append: a call may stop after any of its durable steps.
- Clocks and newly drawn ids are arguments; a new id is required not to occur yet, nothing more.
- A raised error is an `Err` or `None` value. Error values keep the branch that raised them, and row
  numbers where the source reports them, not the message text.
- SHA-256 is modelled by what it stands for: the prefix digest by the bytes it covers, evidence digests
  by the evidence, and a projection event id by the four values it is computed from.

## What the proofs found

- **Requeue with a clock behind the expiry time.** `requeue` compares the new expiry with the clock
  (`effects.py:1246`), replay compares it with the expiry being replaced (`effects.py:1414`). When an
  `expire` was given a later `now` than the clock a requeue reads, the writer appends a row that no
  replay accepts again. The exact condition is `MovesExpiryForward`; runs whose clocks agree are safe.
- **Interrupted child stop.** A child stop that dies between its two appends converges on repetition
  exactly when the lifecycle has one turn (`session.py:1232`) and no other lifecycle has come to carry
  the session; otherwise the repeat is refused, and a reachable ledger shows it.
- **Reused source event.** A panel source event announced again after another one took its place, with
  another expiry, is stored but can never be delivered: the bus already holds its projection id. A call
  settles exactly when that is not the case.
- **Lost announcement.** A panel call stopped after its first write leaves a marker that only a call of
  the same source event delivers. Once another event replaces that one, or a rollover resets the field,
  the repeat is turned away (`panel.py:1019-1043`) and the marker stays in the file undelivered, unless
  the source event is announced again as observed later.
- **Unsequenced observations.** An observation without a sequence number can be accepted twice, exactly
  when 256 later ids pushed its id out, nothing later was observed, and the clock checks pass. Incident
  evidence and sequenced observations are never accepted twice.
- **Incident cursor guard.** A caller-built cursor with a recovery time but no observed time passes its
  constructor and still makes `advance` raise; no run from the empty cursor reaches it.
- **Torn tails.** Only the lock-free reader leaves out what follows the last newline; the locked reader
  and the observer decode it, and a crash inside an append leaves such bytes for good. The three agree
  exactly when the complete part is rejected anyway or only blank follows the last newline.
- **First complaint.** The locked reader decodes every line before folding the first row, the lock-free
  one alternates. On rejected lines they complain about the same thing exactly when every line decodes
  or every row before the first undecodable line folds.
- **Repeated diary ids.** A diary id is appended unchecked. Repeating one while a stored proposal cites
  the diary makes every later propose, and every new apply, fail for good; the card graph stays sound.
- **Racing expire.** `expire` reads and appends under separate locks. A control put again in between,
  under the same id and for longer, is removed although it has not lapsed; every other race is harmless.
- **Swallowed rollover.** The panel's shared epoch, raised by one owner's rollover, drops another owner's
  rollover at an earlier clock. Apart from that no owner can tell that there are others.
- **Tied projections.** An incident summary depends on the order of its input exactly for scopes whose
  deciding class holds two different projections that nothing supplied is newer than. Such a pair agrees
  on event id, times and sequence, and differs in reason, severity, state or label.
- **Tie-breaks in `resolve`.** Creation time and control id never decide: priority and the proactive flag
  separate any two candidates.

## Model

| member | source | states |
|---|---|---|
| EffectModel.PrefixAccepted | moonbite_plugin/effects.py:895-905 | Every prefix of an accepted effect ledger is accepted. |
| EffectModel.FailureIsPermanent | moonbite_plugin/effects.py:811-845 | A ledger rejected at some row is rejected with the same row number and error however it grows. |
| EffectHistory.ReplayCoherent | moonbite_plugin/effects.py:811-845 | In every accepted ledger records are well formed and filed under their own id, and the idempotency map is exactly the inverse of the record-to-key map. |
| EffectHistory.ReceiptsAndKeys | moonbite_plugin/effects.py:409-448 | A record carries a receipt exactly when verified, the receipt matches the identity, and no two effects share an idempotency key. |
| EffectHistory.AttemptCountsRequeues | moonbite_plugin/effects.py:1402-1446 | An effect's attempt is one plus the number of its requeue rows. |
| EffectHistory.IdentityFixedExpiryForward | moonbite_plugin/effects.py:764-774 | Between any two moments identity is fixed, and expiry moves exactly when the attempt does, strictly forward. |
| EffectHistory.TerminalIsFinal | moonbite_plugin/effects.py:1402-1446 | A verified or failed record never changes again, whatever rows follow. |
| EffectHistory.PendingOncePerAttempt | moonbite_plugin/effects.py:1402-1446 | Each attempt is marked pending at most once; not at all while intended or requeued, exactly once afterwards. |
| EffectLedgers.DecisionIsFoldable | moonbite_plugin/effects.py:1074-1274 | The row a mutator decides to append is foldable exactly when it moves the expiry forward, and folds to the decided record. |
| EffectLedgers.WriterReplayAgreement | moonbite_plugin/effects.py:811-1274 | A refused call appends nothing; a successful one appends at most one row, the ledger stays readable exactly when a requeue moves the expiry forward, and replay reads back the record the caller was given. |
| EffectLedgers.RepeatAppendsNothing | moonbite_plugin/effects.py:1074-1209 | Repeating a successful begin, pending, accept, verify or fail returns the same record and appends nothing. |
| EffectLedgers.ExpiryDecisions | moonbite_plugin/effects.py:1211-1274 | Only an expire past the expiry produces an expired record, and only an expired record is requeued. |
| EffectLedgers.RunsStayReadable | moonbite_plugin/effects.py:1074-1274 | If no requeue reads a clock earlier than the time given to an earlier expire of the same effect, every run of calls from the empty ledger stays readable. |
| EffectLedgers.BackdatedRequeuePoisons | moonbite_plugin/effects.py:1233-1274 | A requeue that does not move the expiry forward is accepted by the writer, and from then on no replay accepts the ledger and every call is refused. |
| EffectLedgers.BackdatedRequeueHappens | moonbite_plugin/effects.py:1246-1246 | A concrete run reaches such a requeue: expiry 100, expired at 101, requeued at clock 50 to expiry 60. |
| EffectLedgers.EffectLedger.ReplayRows | moonbite_plugin/effects.py:895-905 | The loop over the rows computes the recursive replay, error row number included. |
| EffectLedgers.EffectLedger.FindByKey | moonbite_plugin/effects.py:1284-1297 | The scan over records finds the one the replay's key map names, or none. |
| EffectLedgers.EffectLedger.Require | moonbite_plugin/effects.py:1394-1399 | Looks an effect up in the replayed records, with the unreadable-ledger and missing-effect errors. |
| EffectLedgers.EffectLedger.Begin | moonbite_plugin/effects.py:1074-1129 | New rows and answer are those of the specified step: argument checks, key reuse, duplicate id, else one intent row. |
| EffectLedgers.EffectLedger.MarkPending | moonbite_plugin/effects.py:1131-1140 | New rows and answer are those of the specified step; repeated calls append nothing. |
| EffectLedgers.EffectLedger.MarkQueueAccepted | moonbite_plugin/effects.py:1142-1151 | New rows and answer are those of the specified step. |
| EffectLedgers.EffectLedger.Verify | moonbite_plugin/effects.py:1153-1178 | New rows and answer are those of the specified step: receipt must match, a different receipt later is a conflict. |
| EffectLedgers.EffectLedger.Fail | moonbite_plugin/effects.py:1180-1209 | New rows and answer are those of the specified step; what they mean is FailMeans below. |
| EffectLedgers.EffectLedger.Expire | moonbite_plugin/effects.py:1211-1231 | New rows and answer are those of the specified step: only past the expiry. |
| EffectLedgers.EffectLedger.Requeue | moonbite_plugin/effects.py:1233-1274 | New rows and answer are those of the specified step, comparing the new expiry with the clock as the code does. |
| EffectOutcomes.BeginMeans | moonbite_plugin/effects.py:1074-1129 | Exactly when begin succeeds, the intent it creates under a new key and id, the earlier effect it answers with for the same work, and the error otherwise. |
| EffectOutcomes.PendingMeans | moonbite_plugin/effects.py:1131-1140 | mark_pending succeeds exactly from intent, requeued or pending; then the replay holds the effect as pending, everything else as before. |
| EffectOutcomes.AcceptMeans | moonbite_plugin/effects.py:1142-1151 | mark_queue_accepted succeeds exactly from pending or executed_unverified; then the effect waits for its receipt, everything else as before. |
| EffectOutcomes.VerifyMeans | moonbite_plugin/effects.py:1153-1178 | verify succeeds exactly with a receipt for this effect's source event, content and epoch from pending or executed_unverified, or with the receipt it already has; then the effect is verified with exactly that receipt. |
| EffectOutcomes.FailMeans | moonbite_plugin/effects.py:1180-1209 | fail succeeds exactly on an unfinished effect, or repeated with the same arguments; then the effect is failed with exactly the given reason and retryable flag, with identity, attempt and expiry as before. |
| EffectOutcomes.ExpireMeans | moonbite_plugin/effects.py:1211-1231 | expire succeeds exactly on a pending or unverified effect whose expiry is before the given time; then it is expired, everything else as before. |
| EffectOutcomes.RequeueMeans | moonbite_plugin/effects.py:1233-1274 | requeue succeeds exactly on an expired effect the caller names truthfully, with an expiry after the clock and the creation; then the next attempt runs until it, readable exactly when it is later than the old expiry. |
| EffectOutcomes.UnreadableRefuses | moonbite_plugin/effects.py:811-845 | Over a ledger the replay rejects every call is refused and writes nothing. |
| EffectOutcomes.AcceptedRowIsWritten | moonbite_plugin/effects.py:811-845 | The strict replay accepts no row that some mutator call would not have appended at that point. |
| EffectOutcomes.AcceptedIsReachable | moonbite_plugin/effects.py:811-1274 | Every ledger the replay accepts is, decoded, the ledger some sequence of mutator calls leaves. |
| EffectReaders.ReadLinesResumes | moonbite_plugin/effects.py:965-1029 | Reading may stop after any line and go on from what is known, with the same result or error. |
| EffectReaders.FirstUnreadable | moonbite_plugin/effects.py:895-905 | Finds the first line that is not a readable object. |
| EffectReaders.LineByLineIsReplay | moonbite_plugin/effects.py:927-963 | Without unreadable lines the lock-free reader computes the strict replay and both counters. |
| EffectReaders.LockedAgreesWithLockFree | moonbite_plugin/effects.py:895-963 | On the same decoded lines the locked and the lock-free reader give one verdict and then agree on both maps. |
| EffectReaders.ComplaintsAgreeIff | moonbite_plugin/effects.py:895-963 | On rejected lines the two readers complain about the same thing if and only if every line decodes, or every row before the first undecodable line folds. |
| EffectReaders.ComplaintsCanDiffer | moonbite_plugin/runtime_core.py:267-284 | A bad row followed by a bad line is such a difference. |
| EffectReaders.StopsAt | moonbite_plugin/effects.py:927-963 | What the lock-free reader answers when the n-th line is the first that cannot be decoded. |
| EffectReaders.LenientTracksStrict | moonbite_plugin/effects.py:145-235 | The quarantining reader has no complaint exactly when the strict reader succeeds, and then holds the same maps and the strict record as last row of each effect. |
| EffectReaders.ObserverAgreesWithReplay | moonbite_plugin/effects.py:145-235 | On the same lines the observer reports no integrity code exactly when the locked replay succeeds, and then its last row per effect is the replayed record. |
| EffectReaders.QuarantineIsPermanent | moonbite_plugin/effects.py:181-235 | Once a row of an effect is refused, no later row of that effect is ever taken. |
| EffectReaders.BadRowBreaksItsEffect | moonbite_plugin/effects.py:207-230 | A row that cannot be read or does not follow ends the history of the effect it names: no row of it is taken from there on. |
| EffectReaders.ComplaintIsFirstError | moonbite_plugin/effects.py:181-235 | The code the observer is given stands for the strict reader's first error, whatever follows it. |
| EffectReaders.StoppedIff | moonbite_plugin/effects.py:170-235 | The read goes on over bad lines and bad rows; only undecodable bytes end it. |
| EffectReaders.ReadHistoryLockFree | moonbite_plugin/effects.py:145-235 | The loop over the file computes the specified observer history. |
| EffectTails.ReadersAgreeIff | moonbite_plugin/effects.py:145-963 | Over the bytes of any file, torn tails included, the three readers give one verdict and one record per effect if and only if the complete part is rejected or only blank follows the last newline. |
| EffectTails.OnlyBlankLinesAreSilent | moonbite_plugin/effects.py:1402-1446 | Every accepted row moves its effect strictly forward, so lines leave the fold alone only if all are blank. |
| EffectTails.TornAppendIsInvisible | moonbite_plugin/effects.py:927-963 | An append cut short before its newline does not change what the lock-free reader sees. |
| EffectTails.TornBytesSplitTheReaders | moonbite_plugin/runtime_core.py:243-284 | Behind any accepted ledger, a torn line that does not decode changes nothing for the lock-free reader and makes the other two refuse the whole ledger, with its line number. |
| EffectTails.UnterminatedRowIsSeenByTwo | moonbite_plugin/runtime_core.py:267-284 | Behind any accepted ledger, a whole row that lacks its newline and would fold is the new record of its effect to the locked reader and the observer, while the lock-free reader still answers without it. |
| EffectCache.SplitResumes | moonbite_plugin/effects.py:927-963 | Splitting into lines can resume after any newline. |
| EffectCache.LineEnds | moonbite_plugin/effects.py:927-963 | A newline, a carriage return, or the two in that order end a line, and what follows is split by itself. |
| EffectCache.ProjectResumes | moonbite_plugin/effects.py:965-1029 | Folding the complete lines of the tail onto the projection of a closed prefix is the projection of the whole file. |
| EffectCache.NothingInBetween | moonbite_plugin/effects.py:1031-1072 | Equal signatures at both ends of a stretch of growth mean the bytes did not change in between. |
| EffectCache.CachedReader.FoldLines | moonbite_plugin/effects.py:927-963 | The loop over decoded lines is the recursive line-by-line reader. |
| EffectCache.CachedReader.ReadLockFree | moonbite_plugin/effects.py:927-963 | A full read tells exactly what the file held at one instant of the call. |
| EffectCache.CachedReader.FoldAppendedRows | moonbite_plugin/effects.py:965-1029 | Chunk-by-chunk prefix verification and folding of the tail answers exactly when the cached bytes are a prefix of the file and what follows folds (or fails to decode), and then tells what the file held at that instant; otherwise it falls back. |
| EffectCache.CachedReader.FoldTail | moonbite_plugin/effects.py:995-1029 | With an intact prefix, folding only what follows answers under the same condition, with the projection of the whole file. |
| EffectCache.CachedReader.TailTells | moonbite_plugin/effects.py:995-1029 | What folding the tail onto the cached maps tells about the whole file. |
| EffectCache.CachedReader.Reread | moonbite_plugin/effects.py:1042-1060 | Incremental or full, the re-read tells what the file held at one instant. |
| EffectCache.CachedReader.ReadOnlyRecords | moonbite_plugin/effects.py:1031-1072 | Linearizable: the answer or error is that of a from-scratch fold of the complete-line prefix at some instant during the call; the cache stays sound and changes only to hold the answer given. |
| EffectCache.CachedReader.Store | moonbite_plugin/effects.py:1060-1072 | The cache is set to the signature, maps and bytes just read, which are the fold of exactly the first `size` bytes. |
| SessionModel.PrefixAccepted | moonbite_plugin/session.py:853-889 | Every prefix of an accepted session ledger is accepted. |
| SessionReplay.FinishTurnKeepsPartition | moonbite_plugin/session.py:826-851 | Finishing the open turn keeps the partition of turns. |
| SessionReplay.HookEffectKeepsPartition | moonbite_plugin/session.py:555-653 | No callback of any hook breaks the partition. |
| SessionReplay.ReplayPartitions | moonbite_plugin/session.py:521-673 | In every accepted ledger the turns without outcome are exactly the current one, finished turns are listed once, settled and abandoned lists are its order-preserving parts, terminal evidence exists for exactly the abandoned turns, and a finalized lifecycle has no open turn. |
| SessionReplay.FinalizedIsClosed | moonbite_plugin/session.py:544-553 | No row of a finalized lifecycle is ever accepted again. |
| SessionReplay.ReplayIsLocal | moonbite_plugin/session.py:853-889 | Replaying everything and looking up a lifecycle is replaying only its own rows. |
| SessionReplay.InterleavingsAreAccepted | moonbite_plugin/session.py:853-889 | Rows acceptable lifecycle by lifecycle, with globally distinct event ids, are accepted in any interleaving. |
| SessionReplay.AcceptedIffLocallyAccepted | moonbite_plugin/session.py:853-889 | A shared ledger is accepted if and only if its event ids are distinct and each lifecycle's own rows are accepted. |
| SessionHistory.StateRemembersHistory | moonbite_plugin/session.py:468-889 | Every field of a replayed lifecycle is a fact about its own rows: which turns were opened, settled and given up, which gates fired, which callbacks and private sources it saw, and whether it was finalized. |
| SessionHistory.TimelyIff | moonbite_plugin/session.py:555-653 | When a callback of each hook is in time, in terms of the rows before it. |
| SessionHistory.CallbackAcceptedIff | moonbite_plugin/session.py:521-673 | A callback row is accepted exactly when its history admits it. |
| SessionHistory.TerminalAcceptedIff | moonbite_plugin/session.py:826-851 | A terminal row is accepted exactly when its turn is the open one of an unfinalized lifecycle and its reason fits its successor. |
| SessionHistory.AcceptedIff | moonbite_plugin/session.py:468-889 | The replay accepts one more row if and only if its event id is new and the rows of its lifecycle admit it. |
| SessionCrash.SupersedingPreCannotFail | moonbite_plugin/session.py:962-990 | Once the old turn's terminal is written, applying the superseding callback cannot fail. |
| SessionCrash.HookCrashClosed | moonbite_plugin/session.py:932-995 | record_hook: every crash prefix folds, a refusal appends nothing, the answer is the replayed lifecycle. |
| SessionCrash.AbandonCrashClosed | moonbite_plugin/session.py:1003-1055 | abandon_open_turn: the same three guarantees. |
| SessionCrash.TurnEndCrashClosed | moonbite_plugin/session.py:1057-1157 | record_host_turn_end: the same three guarantees. |
| SessionCrash.ChildStopCrashClosed | moonbite_plugin/session.py:1159-1309 | record_host_child_stop: the same three guarantees. |
| SessionCrash.ShutdownCrashClosed | moonbite_plugin/session.py:1311-1336 | record_host_shutdown: the same three guarantees. |
| SessionCrash.FinalizeCrashClosed | moonbite_plugin/session.py:1338-1397 | record_host_finalize: the same three guarantees. |
| SessionCrash.AttemptCrashClosed | moonbite_plugin/session.py:932-1397 | Every mutator call against every reachable book is crash closed. |
| SessionRuns.CallStaysReadable | moonbite_plugin/session.py:932-1397 | One call, cut off after any append, leaves an accepted ledger. |
| SessionRuns.RunsStayReadable | moonbite_plugin/session.py:932-1397 | Any run of the six mutators, with a crash allowed between any two appends, leaves an accepted ledger in which every lifecycle is partitioned. |
| SessionRuns.CompletedCallMatchesReplay | moonbite_plugin/session.py:891-995 | After a completed call the ledger replays to the lifecycle the caller was shown and leaves every other lifecycle alone; a refused call appends nothing. |
| SessionOutcomes.ShutdownMeans | moonbite_plugin/session.py:1311-1336 | A shutdown answers nothing exactly when no turn is open; otherwise it gives up the open turn with reason host_shutdown at the context's time, and the replayed lifecycle is as before but for that turn. |
| SessionOutcomes.AbandonMeans | moonbite_plugin/session.py:1003-1055 | abandon_open_turn gives up exactly the named open turn as operator repair, answers with the evidence of a turn given up before, and refuses every other turn. |
| SessionOutcomes.HookMeans | moonbite_plugin/session.py:932-995 | A callback seen before is answered again or is a conflict; a new one is recorded if and only if the history admits it, and a new pre_llm_call first gives up the turn still open in favour of its own. |
| SessionOutcomes.FinalizeMeans | moonbite_plugin/session.py:1338-1397 | The same for finalize, which first gives up the open turn as finalized by the host, and leaves the lifecycle finalized with no turn open. |
| SessionOutcomes.TurnEndMeans | moonbite_plugin/session.py:1057-1157 | What a host turn end records and answers: an end seen before again or a conflict, else the open turn given up with its reason, and the session end if the lifecycle supports it. |
| SessionOutcomes.ChildStopMeans | moonbite_plugin/session.py:1159-1309 | A child stop is refused if several lifecycles carry the session, answers nothing if none does, and otherwise gives up the open turn, or stands by the one given up before, and records the stop. |
| SessionOutcomes.StopsAreBacked | moonbite_plugin/session.py:620-640 | Every recorded child stop is about a turn given up for a compatible reason. |
| SessionRuns.HookRetryConverges | moonbite_plugin/session.py:962-990 | An interrupted superseding callback, repeated at any time in a book that still has its lifecycle as it was left, appends the missing row and answers as the whole call would have, but for that time. |
| SessionRuns.TurnEndRetryConverges | moonbite_plugin/session.py:1105-1157 | The same for an interrupted turn end. |
| SessionRuns.FinalizeRetryConverges | moonbite_plugin/session.py:1369-1391 | The same for an interrupted finalize. |
| SessionRuns.ChildStopRetry | moonbite_plugin/session.py:1230-1309 | The same for an interrupted child stop if its lifecycle has one turn and alone carries the session; otherwise the repeat is refused as ambiguous. |
| SessionRuns.RetryConverges | moonbite_plugin/session.py:932-1397 | Repeating an interrupted two-row call, at any time and whatever other lifecycles have become since, converges if and only if it is not a child stop whose lifecycle has several turns or whose session another lifecycle carries by then; that one is refused. |
| SessionRuns.RunsConverge | moonbite_plugin/session.py:932-1397 | The same over whole runs with crashes: between the interruption and the repeat any events may happen that give the lifecycle no row. |
| SessionRuns.TwoTurnChild | moonbite_plugin/session.py:1230-1235 | A reachable child lifecycle with one settled and one open turn. |
| SessionRuns.InterruptedChildStopIsRefused | moonbite_plugin/session.py:1232-1232 | On that lifecycle the interrupted child stop and its refused repeat do happen. |
| SessionStores.LifecycleState.ApplyHook | moonbite_plugin/session.py:555-653 | The in-place update for one hook is the specified transition; an error leaves the state as it was. |
| SessionStores.LifecycleState.AnyOpenTurn | moonbite_plugin/session.py:656-674 | The loop over turns decides whether one has no outcome. |
| SessionStores.LifecycleState.ApplyCallback | moonbite_plugin/session.py:521-653 | _apply in place equals the specified transition, duplicates included. |
| SessionStores.LifecycleState.CloseTurn | moonbite_plugin/session.py:826-851 | _apply_terminal in place equals the specified transition; a refusal changes nothing. |
| SessionStores.SessionLifecycleStore.ReplayUnlocked | moonbite_plugin/session.py:853-889 | The loop that mutates one state per lifecycle mirrors the recursive replay, or fails with its row number and error. |
| SessionStores.SessionLifecycleStore.FoldInto | moonbite_plugin/session.py:853-889 | One row changes exactly its own lifecycle's state, as specified. |
| SessionStores.SessionLifecycleStore.RecordHook | moonbite_plugin/session.py:932-995 | Appends a crash prefix of the specified rows and answers as specified when complete; the ledger stays readable. |
| SessionStores.SessionLifecycleStore.Supersede | moonbite_plugin/session.py:962-990 | Closing the old turn and recording the new callback appends the two specified rows in order. |
| SessionStores.SessionLifecycleStore.AbandonOpenTurn | moonbite_plugin/session.py:1003-1055 | Appends what the specification says, and the ledger stays readable. |
| SessionStores.SessionLifecycleStore.RecordHostTurnEnd | moonbite_plugin/session.py:1057-1157 | Appends a crash prefix of the specified rows, and the ledger stays readable. |
| SessionStores.SessionLifecycleStore.RecordHostChildStop | moonbite_plugin/session.py:1159-1309 | Appends a crash prefix of the specified rows, and the ledger stays readable. |
| SessionStores.SessionLifecycleStore.StopChild | moonbite_plugin/session.py:1215-1309 | The part of a child stop that works on one lifecycle appends what is specified. |
| SessionStores.SessionLifecycleStore.RecordHostShutdown | moonbite_plugin/session.py:1311-1336 | Appends a crash prefix of the specified rows and answers as specified when complete; what they mean is ShutdownMeans above. |
| SessionStores.SessionLifecycleStore.RecordHostFinalize | moonbite_plugin/session.py:1338-1397 | Appends a crash prefix of the specified rows, and the ledger stays readable. |
| PanelModel.StorageKeyInjective | moonbite_plugin/panel.py:306-309 | Owner and field name are recovered from the storage key, because neither may hold the separator. |
| PanelOutbox.OperationKept | moonbite_plugin/panel.py:924-1260 | Every operation, stopped after any durable step, leaves every projection id at most once on the bus and the file consistent with its markers. |
| PanelOutbox.RunsDeliverAtMostOnce | moonbite_plugin/panel.py:680-715 | Over any crashes, retries and interleaved foreign events the bus never holds a projection id twice, and no field is newer than its owner's epoch. |
| PanelSettlement.OperationSettles | moonbite_plugin/panel.py:989-1204 | Every settling call is one optional file write followed by delivery and compaction of its own marker. |
| PanelSettlement.SettledMeansExactlyOnce | moonbite_plugin/panel.py:680-715 | After a call that settles, the bus holds its projection exactly once, announcing the stored field, and no marker is left. |
| PanelOutcomes.EpochMeans | moonbite_plugin/panel.py:510-520 | A panel day begins at its anchor hour, local time, and lasts a day. |
| PanelOutcomes.SetMeans | moonbite_plugin/panel.py:924-1070 | A set of a source event that is not stored settles exactly when its arguments fit, nothing the owner has is newer and the bus carries no other announcement under its id; then the stored field has exactly the given value, source, confidence, policies, observation time and expiry, is not consumed, and nothing else changed. |
| PanelOutcomes.SetAgainMeans | moonbite_plugin/panel.py:989-1018 | A set of the stored source event changes no field: with the stored content it makes sure the field is announced, with other content it is refused. |
| PanelOutcomes.SetIsTurnedAway | moonbite_plugin/panel.py:1019-1053 | Which answer every set gets that neither settles nor conflicts; it writes nothing. |
| PanelOutcomes.ConsumeMeans | moonbite_plugin/panel.py:1116-1204 | A first consume settles exactly when the field is consume-once, of that source event, unexpired and of the owner's day, and its id is not taken; then the field differs only in who consumed it and when. |
| PanelOutcomes.ConsumeAgainMeans | moonbite_plugin/panel.py:1135-1160 | A repeated consume changes no field and makes sure the consumption is announced; another consumer is refused. |
| PanelOutcomes.RolloverMeans | moonbite_plugin/panel.py:1216-1260 | A rollover not behind the panel's or the owner's day opens the day and removes exactly the owner's daily fields of earlier days; one that is behind does nothing. |
| PanelOutcomes.SetIsVisible | moonbite_plugin/panel.py:811-841 | A field that was set is seen by its owner and nobody else, as it was given, until it expires. |
| PanelOutcomes.ConsumedIsNotVisible | moonbite_plugin/panel.py:811-841 | A consumed field is seen by nobody at any time. |
| PanelOutcomes.RolledIsNotVisible | moonbite_plugin/panel.py:811-841 | After a rollover the owner sees no daily field of an earlier day. |
| PanelOutcomes.VisibleIff | moonbite_plugin/panel.py:811-841 | What a reader is shown of a file: the owner's fields that are unexpired, of the owner's day if they reset daily, and not consumed. |
| PanelSettlement.RetryConverges | moonbite_plugin/panel.py:989-1204 | A settling call stopped after any durable step and repeated, even at a later clock, ends in the same file, bus and answer as the uninterrupted call. |
| PanelSettlement.OwnersAreIsolated | moonbite_plugin/panel.py:811-841 | One owner's operation, stopped anywhere, leaves every other owner's visible records unchanged at every time, never moves an epoch back, and leaves consumed fields as consumed. |
| PanelIsolation.OthersDoNotInterfere | moonbite_plugin/panel.py:924-1260 | Over any run with crashes and retries, an owner none of whose rollovers is swallowed by the shared epoch has the same fields, epoch, markers and bus events as if it were alone, and sees the same at every time. |
| PanelIsolation.OwnStepSame | moonbite_plugin/panel.py:924-1260 | In two worlds an owner cannot tell apart, its operation, cut off anywhere, is answered the same and leaves worlds it cannot tell apart. |
| PanelIsolation.OtherStepSame | moonbite_plugin/panel.py:924-1260 | Nothing another owner or component does changes what an owner can tell. |
| PanelIsolation.SwallowedRolloverDiffersIff | moonbite_plugin/panel.py:1230-1260 | A completed rollover leaves the owner as it would be alone if and only if the shared epoch does not swallow it or it would have changed nothing. |
| PanelIsolation.SwallowingHappens | moonbite_plugin/panel.py:1230-1260 | Two rollovers of different owners, the later clock first, swallow the second. |
| PanelConflicts.SettlesUnlessReused | moonbite_plugin/panel.py:680-706 | A call that passes its own checks settles if and only if its projection id is not on the bus with another announcement; otherwise it fails with that conflict. |
| PanelConflicts.AdmittedIff | moonbite_plugin/panel.py:924-1204 | A set or consume gets as far as delivery exactly when the checks stated for it hold. |
| PanelConflicts.ConflictIsPermanent | moonbite_plugin/panel.py:680-706 | After such a conflict every repeat of the set or consume conflicts again. |
| PanelConflicts.TakenForEver | moonbite_plugin/panel.py:680-706 | Once an id is taken by another announcement, no admitted call that makes it ever settles, whatever happens in between. |
| PanelConflicts.ReuseGetsStuck | moonbite_plugin/panel.py:312-323 | Three calls that reuse a source event reach the conflict. |
| PanelLosses.AdmittedSteps | moonbite_plugin/panel.py:680-715 | A call that passes its checks marks and delivers from exactly the stated file; a marker already there is delivered first thing. |
| PanelLosses.DeliveredIff | moonbite_plugin/panel.py:680-715 | From any world on, a projection not yet on the bus gets there if and only if some call of its own source event passes its checks and reaches its delivery. |
| PanelLosses.MarkerFate | moonbite_plugin/panel.py:989-1260 | At every event an undelivered marker whose source event is stored is delivered, or goes on waiting, or is lost because that source event was replaced or reset. |
| PanelLosses.LostForEver | moonbite_plugin/panel.py:1019-1053 | A lost marker is never delivered and never leaves the file, whatever happens, unless its source event is announced again at a later time than it was overtaken at. |
| PanelLosses.RepeatIsTurnedAway | moonbite_plugin/panel.py:1019-1043 | Repeating the call that left a lost marker writes nothing: a set is answered with the field that took its place or refused, a consume is refused. |
| PanelLosses.SightedAgainIff | moonbite_plugin/panel.py:1019-1053 | An announcement of a lost marker's source event delivers it if and only if it is well formed, its epoch is not behind the owner's, and it was observed after the stored field, which is not consume-once. |
| PanelLosses.MarkerIsLost | moonbite_plugin/panel.py:1069-1070 | A set stopped after its first write, followed by a newer source event, loses the marker. |
| PanelLosses.RunsKeepDates | moonbite_plugin/panel.py:924-1260 | Over every run each stored field carries the epoch of its observation time. |
| PanelStores.PanelStore.BusProjectionExists | moonbite_plugin/panel.py:680-694 | The scan of the bus finds the first event with the projection id and compares it. |
| PanelStores.PanelStore.FinishProjection | moonbite_plugin/panel.py:696-715 | Delivers if needed and compacts, carrying out a prefix of the specified steps when a write fails. |
| PanelStores.PanelStore.MarkAndFinish | moonbite_plugin/panel.py:989-1069 | Writes the marked state before delivery, as specified. |
| PanelStores.PanelStore.RedeliverField | moonbite_plugin/panel.py:989-1018 | Recreates a compacted marker for a stored source event and finishes it. |
| PanelStores.PanelStore.Set | moonbite_plugin/panel.py:924-1070 | File and bus move along a prefix of the specified steps, with the specified answer when complete, whose meaning is SetMeans, SetAgainMeans and SetIsTurnedAway above; the outbox invariant is kept. |
| PanelStores.PanelStore.ConsumeField | moonbite_plugin/panel.py:1116-1204 | The same for consume. |
| PanelStores.PanelStore.RollOver | moonbite_plugin/panel.py:1216-1260 | The same for rollover, whose loop deletes exactly the owner's daily fields of earlier epochs. |
| PanelStores.PanelStore.VisibleRecords | moonbite_plugin/panel.py:811-841 | The loop returns exactly the unexpired, unconsumed, current-epoch fields of one owner. |
| AutonomySafety.AtMostOneInvocation | moonbite_plugin/_autonomy/execution.py:614-644 | Every safe state holds at most one provider invocation per effect and attempt. |
| AutonomySafety.AtMostOneInvocationPerOccurrence | moonbite_plugin/_autonomy/recovery.py:339-356 | At most one per occurrence and attempt, since an occurrence owns one autonomy effect. |
| AutonomySafety.StepKeepsSafe | moonbite_plugin/effects.py:1074-1274 | No ledger call by anyone breaks safety, even one that leaves the ledger unreadable. |
| AutonomySafety.HostStepKeeps | moonbite_plugin/effects.py:1074-1274 | Host calls between tick steps cannot start the tick's effect, take its occurrence, or lose it. |
| AutonomySafety.VerifiedStays | moonbite_plugin/effects.py:1402-1446 | A verified record survives any later call unchanged. |
| AutonomySafety.StepKeepsEnded | moonbite_plugin/effects.py:1402-1446 | No call takes an effect out of verified or failed. |
| AutonomySafety.StartIsCharged | moonbite_plugin/_autonomy/execution.py:614-644 | Marking a startable effect pending either fails or appends the row its one invocation is charged to. |
| AutonomyEngines.AutonomyEngine.SettleExpired | moonbite_plugin/_autonomy/outcomes.py:292-348 | When the loop completes, every effect that was overdue and unsettled ends failed, or was verified meanwhile; with nothing overdue it touches nothing; it raises only when the ledger is unreadable or an overdue effect was expired meanwhile. |
| AutonomyEngines.AutonomyEngine.FailOverdue | moonbite_plugin/_autonomy/outcomes.py:312-335 | One effect is failed as expired and unverified if it can still fail; otherwise nothing is written, and it was verified or failed already or the loop raises. |
| AutonomySearch.FindByOccurrence | moonbite_plugin/_autonomy/recovery.py:339-356 | Reports a conflict exactly when two autonomy effects claim the occurrence, and otherwise finds the one that does, if any. |
| AutonomySearch.FindImplicit | moonbite_plugin/_autonomy/recovery.py:439-486 | Reports unproven exactly when the audit leaves an effect of the source open, a conflict exactly when two are proven implicit, and otherwise finds the proven one; none only if the occurrence is free. |
| AutonomyEngines.AutonomyEngine.ExistingTerminal | moonbite_plugin/_autonomy/recovery.py:106-200 | A recorded terminal gives way to a settled effect it agrees with, is replayed only as a skip or failure without any effect, and in every other case is an integrity failure. |
| AutonomyEngines.AutonomyEngine.Locate | moonbite_plugin/_autonomy/execution.py:79-162 | Stops exactly on an unreadable ledger, an ambiguous or unproven search, or a found effect that contradicts the request or lacks its proof; otherwise finds an effect that answers the request, or knows the occurrence is free. |
| AutonomyEngines.AutonomyEngine.RunOnce | moonbite_plugin/_autonomy/execution.py:16-795 | For every environment: which effect the request is about, which answer is given before anything is written, and otherwise, once overdue effects are settled, the exact answer for that effect or for a new one, step by step over the ledger found. A tick keeps safety wherever it stops; completed is reported only with verified, receipt-matched proof in the ledger for what was requested. |
| AutonomyEngines.AutonomyEngine.Ticks | moonbite_plugin/_autonomy/execution.py:16-795 | Over any sequence of ticks, crashes included, with arbitrary host calls on the ledger in between, no effect attempt is handed to a provider twice. |
| AutonomyEngines.AutonomyEngine.RunExisting | moonbite_plugin/_autonomy/execution.py:220-262 | An effect under way is answered from the ledger alone, before any gate, without touching ledger or provider; an intent or requeued effect is executed, or refused with the stated answer. |
| AutonomyEngines.AutonomyEngine.Resume | moonbite_plugin/_autonomy/execution.py:264-530 | An intent or requeued effect is executed exactly when its provider is known, registered and eligible, the gate is open and no chat is active; otherwise it gets the stated answer and nothing is written. |
| AutonomyEngines.AutonomyEngine.RunNew | moonbite_plugin/_autonomy/execution.py:264-575 | A new effect is launched exactly when the gate is open, no chat is active and a registered provider was selected; otherwise the stated refusal, with ledger and provider untouched. |
| AutonomyEngines.AutonomyEngine.Launch | moonbite_plugin/_autonomy/execution.py:530-644 | The intent is recorded exactly when its key and id are unused, and then executed; otherwise the intent error, and nothing is written. |
| AutonomyEngines.AutonomyEngine.BeginNew | moonbite_plugin/_autonomy/execution.py:530-575 | Begin succeeds exactly when key and effect id are unused; then the ledger holds the requested intent, first attempt, due after its time to live, and the occurrence stays single. |
| AutonomyEngines.AutonomyEngine.Execute | moonbite_plugin/_autonomy/execution.py:582-644 | Without its started event the tick fails and nothing happened. With it the effect is marked pending and its provider called exactly once, unless it cannot be started or the process dies, and the outcome is recorded over the ledger found then. |
| AutonomyEngines.AutonomyEngine.Conclude | moonbite_plugin/_autonomy/execution.py:643-740 | For each outcome of the provider, the exact answer and what becomes of the effect: failed with the provider's error, waiting for its receipt, verified with exactly that receipt, or failed as mismatched. |
| AutonomyEngines.AutonomyEngine.Confirm | moonbite_plugin/_autonomy/execution.py:729-792 | A receipt for this effect verifies it, and completed is answered if the control could be consumed; any other receipt fails it. |
| AutonomyEngines.BegunIsRecorded | moonbite_plugin/_autonomy/execution.py:552-575 | What begin returns is in the ledger afterwards. |
| AutonomyEngines.AcceptedIsQueued | moonbite_plugin/_autonomy/execution.py:694-728 | A successful queue acceptance leaves the effect waiting for its receipt. |
| AutonomyEngines.VerifiedIsProven | moonbite_plugin/_autonomy/execution.py:729-740 | A successful verify leaves matching, receipt-backed proof in the ledger. |
| AutonomyAnswers.ExecutedInvokes | moonbite_plugin/_autonomy/execution.py:582-644 | An execution whose started event was emitted calls the provider exactly once, for its own effect, unless that could not be marked pending or the process died before; without the event nothing happens. |
| AutonomyAnswers.OpenTickInvokes | moonbite_plugin/_autonomy/execution.py:264-644 | A tick with no early answer, nothing overdue and nothing in its way calls the provider exactly once and answers for that effect, unless the intent or the pending row was refused. |
| AutonomyAnswers.InvokesOnlyIf | moonbite_plugin/_autonomy/execution.py:264-644 | A tick calls the provider only with an open gate, no active chat, a registered provider and its started event emitted. |
| AutonomyAnswers.RefusalMeans | moonbite_plugin/_autonomy/execution.py:264-530 | Which answer a new effect gets for each thing in its way. |
| AutonomyAnswers.ResumeRefusalMeans | moonbite_plugin/_autonomy/execution.py:240-530 | Which answer an intent or a requeued effect gets for each thing in its way: an intent is skipped under its own id, a requeued effect waits for its provider. |
| AutonomyAnswers.TerminalMeans | moonbite_plugin/_autonomy/recovery.py:106-200 | A recorded terminal lets the tick go on exactly when the one effect of the occurrence ended as it says, is answered again exactly when there is no effect and it names none, and contradicts the ledger otherwise. |
| AutonomyAnswers.SearchMeans | moonbite_plugin/_autonomy/execution.py:79-93 | The search waits exactly when the audit leaves the identity of an effect of the source open, and conflicts exactly when two effects claim what was asked for. |
| AutonomyAnswers.FoundMeans | moonbite_plugin/_autonomy/execution.py:94-131 | A found effect is taken exactly when it is the one the request names and the audit proves it was asked for in the same way. |
| Admission.SortedIsUnique | moonbite_plugin/_autonomy/admission.py:383-388 | A sorted candidate list is determined by its elements. |
| Admission.DrawIsExact | moonbite_plugin/_autonomy/admission.py:398-404 | Of all the slots, a name is picked by exactly as many as its total weight. |
| Admission.PickMeans | moonbite_plugin/_autonomy/admission.py:398-404 | Slots belong to the candidates in order, each to as many as its weight. |
| Admission.OrderedByName | moonbite_plugin/_autonomy/admission.py:383-388 | Candidates are drawn from in the order of their names, then weights. |
| Admission.PickedHasWeight | moonbite_plugin/_autonomy/admission.py:401-404 | Only a candidate with positive weight is ever picked. |
| Admission.ShareIsOwnWeight | moonbite_plugin/_autonomy/admission.py:383-406 | With distinct names a candidate's share of slots is its own weight, whatever the input order. |
| Admission.DrawIgnoresOrder | moonbite_plugin/_autonomy/admission.py:383-406 | Candidate lists with the same elements give the same ordered list and total, so the same draw. |
| Admission.WeightedSelection | moonbite_plugin/_autonomy/admission.py:383-406 | The scan always returns the name owning the slot; the final assertion is unreachable; only a zero total weight is an error. |
| Admission.CollectEvents | moonbite_plugin/_autonomy/admission.py:29-61 | The telemetry loop keeps the counted events and the effects they name. |
| Admission.AuditHistory | moonbite_plugin/_autonomy/admission.py:12-86 | Telemetry rows plus ledger rows for effects telemetry does not name; telemetry alone if the ledger is unreadable, an error only without both. |
| Admission.OneMoreEvent | moonbite_plugin/_autonomy/admission.py:34-55 | What one more audit event adds to the history: a completed, unverified or failed run of a named provider, as reported. |
| Admission.OneMoreRecord | moonbite_plugin/_autonomy/admission.py:63-86 | What one more ledger record adds: an effect telemetry does not speak for, a verified one counted as completed. |
| Admission.ProviderHistory | moonbite_plugin/_autonomy/admission.py:89-118 | Returns every row without an effect, then the latest row of each effect of one provider, effects in the order first met. |
| Admission.TallyMeans | moonbite_plugin/_autonomy/admission.py:104-118 | An effect is tallied exactly when some row of the provider names it, and with the last such row. |
| Admission.TallyInOrder | moonbite_plugin/_autonomy/admission.py:104-118 | Effects are listed in the order in which the rows first name them. |
| Admission.AnonymousMeans | moonbite_plugin/_autonomy/admission.py:104-118 | Every row of the provider without an effect is listed, as often as it occurs and in order. |
| Admission.ListingMeans | moonbite_plugin/_autonomy/admission.py:89-118 | The history lists the rows without an effect first, then one row for each effect. |
| Admission.NoEffectEscapesTheTally | moonbite_plugin/_autonomy/admission.py:12-118 | Every autonomy effect in the ledger is tallied for the provider its audit names or its own, so a failed audit write cannot bypass a limit. |
| MemoryModel.Deduplicated | moonbite_plugin/memory.py:1486-1561 | Keeps each value once and loses none. |
| MemoryModel.DeduplicatedInOrder | moonbite_plugin/memory.py:1486-1561 | The kept values come in the order they first occur. |
| MemoryGraph.MarkCardsMeans | moonbite_plugin/memory.py:723-755 | Marking supersessions over cards grown by references to earlier cards succeeds and records each superseder. |
| MemoryGraph.ArchiveMeans | moonbite_plugin/memory.py:723-755 | Archiving known ids marks exactly those archived. |
| MemoryGraph.ViewsNeverRaise | moonbite_plugin/memory.py:723-755 | On every sound graph the views are computed and describe every card. |
| MemoryGraph.SupersessionIsAcyclic | moonbite_plugin/memory.py:723-755 | No chain of supersessions returns to its start. |
| MemoryGraph.InsertCard | moonbite_plugin/memory.py:704-721 | A card inserted at any replay position, referring to existing unsuperseded cards, keeps the graph grown. |
| MemoryGraph.BuiltCardFits | moonbite_plugin/memory.py:889-977 | A card that passes validation refers only to existing cards and supersedes only unsuperseded ones. |
| MemoryGraph.AddCardKeepsSound | moonbite_plugin/memory.py:851-887 | add_card keeps the graph sound and stored proposals readable. |
| MemoryGraph.ProposalsStayReadable | moonbite_plugin/memory.py:1343-1420 | Evidence of earlier proposals still opens to the same records after any growth. |
| MemoryGraph.ProposeKeepsSound | moonbite_plugin/memory.py:1422-1484 | With distinct diary ids propose_maintenance keeps all ledgers sound and never finds them corrupt. |
| MemoryGraph.RecordEventKeepsSound | moonbite_plugin/memory.py:1563-1657 | Recording a maintenance event keeps the graph sound and proposals readable. |
| MemoryGraph.ApplyKeepsSound | moonbite_plugin/memory.py:1563-1657 | apply_maintenance keeps the graph sound over any diary; while proposals are readable it never finds state corrupt, evidence missing or changed. |
| MemoryGraph.AppendDiaryKeepsReadableIff | moonbite_plugin/memory.py:828-850 | Appending a diary entry keeps stored proposals readable if and only if its id is new or no proposal cites the diary. |
| MemoryGraph.UnreadableProposalsBlock | moonbite_plugin/memory.py:1422-1600 | While a stored proposal is unreadable every well-formed propose, and every apply of what was not applied before, fails as corrupt and writes nothing. |
| MemoryGraph.RepeatedEntryIsForever | moonbite_plugin/memory.py:828-850 | Once a cited diary repeats an id, no later operation makes the proposals readable again. |
| MemoryGraph.RepeatedEntryHappens | moonbite_plugin/memory.py:979-999 | An entry, a proposal citing it, and the entry again reach that state. |
| MemoryGraph.StepKeepsSound | moonbite_plugin/memory.py:851-1657 | Every operation, appending only new diary ids, keeps all four ledgers sound and never finds them corrupt. |
| MemoryGraph.StepKeepsGraph | moonbite_plugin/memory.py:851-1657 | Every operation, repeated diary ids included, keeps the card graph sound. |
| MemoryGraph.RunsKeepViews | moonbite_plugin/memory.py:723-755 | After any run of operations, whatever diary ids it uses, the views can be computed and supersession has no cycle. |
| MemoryGraph.RunsStaySound | moonbite_plugin/memory.py:723-755 | After any run without repeated diary ids all four ledgers are sound. |
| MemoryGraph.AppliedAtMostOnce | moonbite_plugin/memory.py:1563-1657 | After any run no proposal has two history events, and repeating any apply that succeeded in it, however much later and under whatever new ids, changes nothing and answers with the first receipt. |
| MemoryOutcomes.BuildsIff | moonbite_plugin/memory.py:889-977 | A card is built exactly when its id is new and every relation it declares may be declared; then it is the card that was asked for. |
| MemoryOutcomes.AddMeans | moonbite_plugin/memory.py:851-887 | An added card is appended, and in the views exactly the cards it supersedes become historical or corrected and point to it. |
| MemoryOutcomes.ApplyMeans | moonbite_plugin/memory.py:1563-1657 | A first apply succeeds exactly when permitted and applicable. A merge stores a card that supersedes exactly the cited cards, each of which then points to it; a distill stores one that supersedes nothing and is related to them; a retire archives every cited card and touches no other. |
| MemoryOutcomes.ProposeMeans | moonbite_plugin/memory.py:1422-1484 | A proposal under a new request id is recorded exactly when it is well posed and all its evidence opens; then it holds what was asked and the cited records. |
| MemoryOutcomes.ProposeAgainMeans | moonbite_plugin/memory.py:1455-1461 | A known request id is answered with its proposal if everything asked is the same, and refused otherwise. |
| MemoryOutcomes.OpenAllMeans | moonbite_plugin/memory.py:1343-1420 | Evidence opens exactly when every reference names one record of a readable ledger, and then to those records in order. |
| MemoryStores.MemoryStore.CardRows | moonbite_plugin/memory.py:704-721 | The loop returns base then created cards, or fails exactly on an invalid history or a duplicate id. |
| MemoryStores.MemoryStore.MarkSuperseded | moonbite_plugin/memory.py:723-755 | Marks one card's supersessions in order, failing on a missing or already superseded card. |
| MemoryStores.MemoryStore.MarkEveryCard | moonbite_plugin/memory.py:723-755 | The loop over cards is the specified marking, related cards checked. |
| MemoryStores.MemoryStore.ArchiveEvery | moonbite_plugin/memory.py:723-755 | The loop over archived ids is the specified archiving. |
| MemoryStores.MemoryStore.ComputeCardViews | moonbite_plugin/memory.py:723-755 | The three passes compute the specified views or fail exactly when they do. |
| MemoryStores.MemoryStore.Build | moonbite_plugin/memory.py:889-977 | Validation in the code's order gives the specified card or error. |
| MemoryStores.MemoryStore.Add | moonbite_plugin/memory.py:851-887 | New state and answer are those of the specified step. |
| MemoryStores.MemoryStore.AppendDiary | moonbite_plugin/memory.py:979-999 | The entry is appended whatever its id. |
| MemoryStores.MemoryStore.ProposeMaintenance | moonbite_plugin/memory.py:1422-1484 | New state and answer are those of the specified step. |
| MemoryStores.MemoryStore.ApplyMaintenance | moonbite_plugin/memory.py:1563-1657 | New state and answer are those of the specified step; what a first apply means is ApplyMeans above, what a repeat does is AppliedAtMostOnce. |
| HistoryChains.SearchIsExact | moonbite_plugin/memory.py:1238-1249 | A connected set that is closed or fills the limit is as much of the component as the limit allows. |
| HistoryChains.ComponentOfMember | moonbite_plugin/memory.py:1234-1249 | The component is the same from any of its members. |
| HistoryChains.ViewsCloseReferences | moonbite_plugin/memory.py:1232-1240 | Whenever views can be computed every reference names a known card, so no adjacency lookup can miss. |
| HistoryChains.LinkCard | moonbite_plugin/memory.py:1235-1240 | One card's references are entered in both directions and nothing else changes. |
| HistoryChains.BuildAdjacency | moonbite_plugin/memory.py:1234-1240 | The loops build exactly the symmetrised relation. |
| HistoryChains.HistoryChain | moonbite_plugin/memory.py:1225-1253 | Terminates with a connected set around the card: the whole component if it has at most `limit` cards, otherwise exactly `limit` of its cards, none nearer to the start left out; nothing for an unknown card; errors for a bad limit or unreadable state. |
| Controls.OneControlPerFeatureAndSource | moonbite_plugin/control.py:282-354 | In every readable ledger controls are valid, filed under their own id, and one per feature and source. |
| Controls.SelfControlsLapse | moonbite_plugin/control.py:117-137 | A self control is out of force one day after it was made. |
| Controls.ExpiryIsUnobservable | moonbite_plugin/control.py:270-354 | Any choice of expire rows that remove only controls lapsed by `now`, racing ones included, can be erased, whatever rows follow, without changing the active controls or resolve's candidates at any time from `now` on. |
| Controls.ExpireIsSilentIff | moonbite_plugin/control.py:345-354 | Appending an expire row leaves what is in force at `now` alone if and only if every control it still removes has lapsed. |
| Controls.RacingExpireIsErasable | moonbite_plugin/control.py:270-280 | An expire read earlier than it is appended is still erasable if nothing alive was put under its ids in between, also when another expire came first. |
| Controls.RacingPutIsLost | moonbite_plugin/control.py:270-280 | A put of the same control between the read and the append is taken away, observably. |
| Controls.TieBreaksNeverDecide | moonbite_plugin/control.py:412-430 | Priority and the proactive flag alone separate any two candidates. |
| Controls.WinnerIsUnique | moonbite_plugin/control.py:412-430 | The maximum resolve takes is unique. |
| Controls.ProactiveOperatorDecides | moonbite_plugin/control.py:412-451 | An operator's control on proactive work wins for heartbeat, autonomy and proactive, and the gate follows it. |
| Controls.FailClosedBranchUnused | moonbite_plugin/control.py:433-451 | The gate's unknown-mode branch is never taken for a control from a ledger. |
| Controls.GateMeans | moonbite_plugin/control.py:412-451 | In every readable ledger the gate allows work if and only if every blocking control the feature sees is outranked by a one-shot request it also sees. |
| ControlHistories.MakeableIff | moonbite_plugin/control.py:117-137 | Which controls may be made, and for which feature an alias makes them. |
| ControlHistories.ActiveIff | moonbite_plugin/control.py:282-354 | A control is active exactly when some row made it and no later row replaced, cleared, consumed or expired it. |
| ControlHistories.ReadableIff | moonbite_plugin/control.py:282-354 | A control ledger is readable exactly when every row is acceptable by itself and event ids do not repeat. |
| ControlHistories.SayIff | moonbite_plugin/control.py:345-430 | A control is a candidate for a feature exactly when it still stands in the history, has not lapsed, and is about the feature or, for heartbeat and autonomy, about proactive work. |
| ControlHistories.ResolveMeans | moonbite_plugin/control.py:412-430 | resolve answers with the one standing control that outranks every other: operator before static before self before scheduler, and proactive before the feature itself. |
| ControlHistories.GateOverHistory | moonbite_plugin/control.py:412-451 | The gate allows work exactly when every control with a say is a one-shot request or outranked by one, and names the control that decides. |
| Controls.ControlStore.ReplayRows | moonbite_plugin/control.py:282-354 | The loop computes the recursive replay, duplicate event ids included. |
| Controls.ControlStore.PutControl | moonbite_plugin/control.py:234-254 | An invalid control writes nothing; a valid one replaces those of its feature and source and any of its id, and nothing else. |
| Controls.ControlStore.ClearControl | moonbite_plugin/control.py:256-263 | Unknown names write nothing; otherwise no control of the feature and source is left. |
| Controls.ControlStore.ConsumeControl | moonbite_plugin/control.py:265-268 | Removes exactly the named control. |
| Controls.ControlStore.ExpireControls | moonbite_plugin/control.py:270-280 | Names exactly the controls lapsed when it reads, appends one row if there are any after whatever others write in between, removes exactly those ids, and the row is erasable unless one of them was put again for longer. |
| Controls.ControlStore.LapsedControls | moonbite_plugin/control.py:270-277 | Lists each lapsed control once, or reports the unreadable ledger. |
| Controls.ControlStore.Resolve | moonbite_plugin/control.py:412-430 | Returns the greatest candidate for the canonical feature, or the specified error. |
| Controls.Greatest | moonbite_plugin/control.py:420-429 | The loop finds the maximum of the candidates. |
| SeenWindows.RememberKeepsShape | moonbite_plugin/incidents.py:298-302 | The window stays duplicate free and bounded and holds the newest id. |
| SeenWindows.RememberIsRecent | moonbite_plugin/observations.py:233-244 | As long as no remembered id is accepted again, the window is the tail of the whole history. |
| SeenWindows.KeptForAWindow | moonbite_plugin/observations.py:233-244 | An id stays remembered until 256 later ids were accepted. |
| Incidents.WhenAGuardIsRaised | moonbite_plugin/incidents.py:237-328 | On unrefused evidence a guard is raised if and only if the cursor claims a recovery later than the evidence without having observed anything. |
| Incidents.GuardCanBeRaised | moonbite_plugin/incidents.py:259-264 | Such a caller-built cursor exists. |
| Incidents.NoGuardIsRaised | moonbite_plugin/incidents.py:280-328 | On no run from the empty cursor is any constructor or advance guard raised; accepted observation times strictly increase. |
| Incidents.LabelsSpellEpisodes | moonbite_plugin/incidents.py:575-633 | Non-neutral accepted labels always form a prefix of (new current* recovered_history)*. |
| Incidents.NeverAcceptedAgain | moonbite_plugin/incidents.py:529-573 | Evidence accepted once is refused for ever after, at any clock and tolerance. |
| IncidentHistories.RunsRemember | moonbite_plugin/incidents.py:280-328 | On every run the cursor holds nothing but facts about the accepted evidence: its last ids, numbers and times. |
| IncidentHistories.DecisionMeans | moonbite_plugin/incidents.py:497-640 | After any run, whether evidence is accepted, under which label and reason, and with which projection, or refused with which status, in terms of what was accepted before. |
| IncidentSummaries.LatestIsNewest | moonbite_plugin/incidents.py:669-680 | The kept projection of a scope was supplied and nothing supplied is newer; none is kept only if none was supplied. |
| IncidentSummaries.NewerMeans | moonbite_plugin/incidents.py:646-653 | Later observation decides, then later receipt, then the higher sequence number, where none is lowest, and last the event id. |
| IncidentSummaries.WorstIsCounted | moonbite_plugin/incidents.py:685-699 | The worst active severity is the severity of a selected active incident, and none is worse. |
| IncidentSummaries.SelectedIsNewest | moonbite_plugin/incidents.py:664-684 | A scope is selected exactly when supplied, with a projection of its deciding class that nothing supplied is newer than. |
| IncidentSummaries.OrderIsImmaterialIff | moonbite_plugin/incidents.py:655-688 | The selection of a scope is the same for every order of the input if and only if its deciding class has at most one newest projection. |
| IncidentSummaries.SelectionIgnoresOrder | moonbite_plugin/incidents.py:655-688 | Then repetition of the input makes no difference either. |
| IncidentSummaries.TiedIff | moonbite_plugin/incidents.py:646-653 | Projections of one scope and class are tied exactly when they agree on event id, both times and sequence and differ elsewhere, for instance in their reason. |
| IncidentSummaries.TiesKeepTheFirst | moonbite_plugin/incidents.py:676-680 | Of two tied projections alone, the first is kept. |
| IncidentSummaries.Select | moonbite_plugin/incidents.py:664-684 | The two dictionaries give, for exactly the supplied scopes, the newest non-neutral projection or else the newest neutral one. |
| IncidentSummaries.Count | moonbite_plugin/incidents.py:685-699 | The counters count the selected scopes, add up to the total, and name the worst active severity. |
| IncidentSummaries.Aggregate | moonbite_plugin/incidents.py:655-707 | More than 256 projections are refused; otherwise selection and counters are as above. |
| Observations.NoGuardIsRaised | moonbite_plugin/observations.py:231-256 | No guard is raised on a cursor its constructor accepted; evidence is accepted exactly when no refusal applies. |
| Observations.RunsKeep | moonbite_plugin/observations.py:350-430 | On every run the window is the tail of the accepted ids and the cursor's times and sequence bound everything accepted. |
| ObservationHistories.RunsRemember | moonbite_plugin/observations.py:231-256 | On every run the cursor holds nothing but facts about the accepted evidence. |
| ObservationHistories.DecisionMeans | moonbite_plugin/observations.py:350-430 | After any run, whether an observation is accepted, degraded for which shortcoming, or refused with which status, in terms of what was accepted before. |
| Observations.HealthDoesNotSteerReplay | moonbite_plugin/observations.py:350-430 | Two feeds of the same facts that differ only in reported health accept the same facts and end in the same cursor, so degraded evidence counts for replay exactly as healthy evidence does. |
| Observations.SequencedNeverAcceptedAgain | moonbite_plugin/observations.py:395-400 | Sequenced evidence accepted once is refused for ever after. |
| Observations.UnsequencedAcceptedAgainIff | moonbite_plugin/observations.py:375-430 | Evidence without a sequence is accepted again if and only if its id left the window, nothing later was observed, and the clock checks of the second delivery pass. |
| Observations.AcceptedAgainAfterAWindow | moonbite_plugin/observations.py:233-244 | A second acceptance needs at least 256 acceptances in between. |
| Observations.FirstOfABurstIsAcceptedAgain | moonbite_plugin/observations.py:233-244 | After 257 facts of one instant the first of them is accepted again. |

## Left out

- File locks, fsync, atomic rename and permissions: an append or a replace is one atomic step, and a call that holds its lock throughout is one step. `expire` of the controls, which does not, is two. Torn appends are modelled for the effect ledger, whose readers differ on them; for the other ledgers a row is written or it is not.
- JSON, ISO timestamps, UTF-8 limits, regular expressions and field-shape checks: rows are decoded and well typed. Checks that relate one field to another are kept. A row that fails decoding is one `Malformed` value.
- Stat details: an equal signature is assumed to mean equal bytes, and a file is assumed only to grow while one read call is in progress; before the call anything may have happened to it.
- Time zones and daylight saving: a panel day is computed from a fixed offset and an anchor hour.
- Freshness of drawn ids: `new_id` and event ids are assumed new, as arguments with that precondition; an occurrence without a source event uses a run id no effect carries.
- EffectLedgers.EffectLedger.Begin: the key lookup returns the first record holding the key; that there is at most one is proved, so the order of the scan does not matter. Text bounds on identity fields are not modelled.
- EffectReaders.ReadHistoryLockFree: the integrity complaint tells the kinds of undecodable lines and a refused row apart, not which exception was raised.
- EffectTails.ReadersAgreeIff: one decoder stands for both the text and the byte readers. Lines of non-ASCII white space, and the read-ahead that may report an undecodable byte before an earlier complaint in the same buffer, are not modelled.
- AutonomyEngines.AutonomyEngine.RunOnce: the judge, eligibility, provider settings, play-next fallback, audit projections and the control consumption are answers of the environment; the failures they cause before an effect is started are one skip, `gate` stands for the gate's own reason, and the exception names appended to some failure reasons are left out. What a provider does is not modelled, only what it returns. Only the locked tick is assumed to begin autonomy effects or mark them pending; every other ledger call may be made by anyone between its steps.
- AutonomyEngines.AutonomyEngine.ExistingTerminal: the audit lookup itself is an answer of the environment.
- `reconcile` and `canonical_terminal` of the autonomy package, and heartbeat's use of the effect ledger: further callers of the same ledger steps.
- Admission.AuditHistory: how a provider name is recovered from a ledger record is taken as given.
- PanelStores.PanelStore.Set: the alias table that turns a lifecycle name into reset, persistence and consume policies is applied before; the five policies are arguments.
- Panel migration from version 1, snapshots, markdown, sensor and afterglow helpers: they go through the modelled operations.
- Memory text bounds, dates, search, recall, external retrievers and hot-memory proposals.
- HistoryChains.HistoryChain: the result is the set of cards; the order the search visits neighbours in and the sorted order of the list it returns are not modelled.
- Controls.ControlStore.Resolve: control payloads are not modelled; the sorted order of `active` is not, because ids make the sort key total and the result a set.
- Incidents.NoGuardIsRaised: a host that stores the returned cursor after every accepted fact is assumed.
- Observations.RunsKeep: the same host is assumed; confidence is a real number.
- Observer facts, reason-code projections, configuration, scenarios, adapters, plugin wiring and command line: projections and plumbing around the modelled machines.
