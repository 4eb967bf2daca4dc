/** What one autonomy tick answers, and whether it calls the provider, for every environment: stated
    on the ledger as the tick finds it, step by step, and as it leaves it
    (moonbite_plugin/_autonomy/execution.py:88-792, outcomes.py:293-346). */
module AutonomyAnswers {
  import opened Basics
  import opened EffectModel
  import opened EffectHistory
  import opened EffectLedgers
  import Outcomes = EffectOutcomes
  import opened AutonomySafety
  import opened AutonomySearch

  // ---- after the provider was called -----------------------------------------------------

  /** The ledger from one moment to another with nothing but a failure of this effect in between, if
      it could still fail. */
  ghost predicate Failing(rows: seq<Row>, end: seq<Row>, id: string, reason: string, retryable: bool) {
    if Replay(rows).Ok? && Outcomes.InState(RecordsOf(rows), id, {Intent, Requeued, Pending, ExecutedUnverified}) then
      && Replay(end).Ok? && Outcomes.MovesTo(RecordsOf(rows), RecordsOf(end), id, Failed)
      && RecordsOf(end)[id].reason == Some(reason) && RecordsOf(end)[id].retryable == Some(retryable)
    else end == rows
  }

  /** The effect can be verified with this receipt, or was. */
  ghost predicate Verifiable(rows: seq<Row>, id: string, receipt: Receipt) {
    && Replay(rows).Ok? && id in RecordsOf(rows)
    && if RecordsOf(rows)[id].state.Verified? then RecordsOf(rows)[id].receipt == Some(receipt)
       else RecordsOf(rows)[id].state in {Pending, ExecutedUnverified} && Outcomes.ReceiptFor(RecordsOf(rows)[id], receipt)
  }

  /** What is recorded and answered once the provider has returned, over the ledger found then. */
  ghost predicate Concluded(env: Env, id: string, back: seq<Row>, end: seq<Row>, result: TickResult) {
    match env.outcome
    case Raises(name) =>
      result == FailWith("provider_error:" + name, Some(id)) && Failing(back, end, id, "provider_error:" + name, true)
    case BadEvidence(code) => result == FailWith(code, Some(id)) && Failing(back, end, id, code, false)
    case NoReceipt =>
      if Replay(back).Ok? && Outcomes.InState(RecordsOf(back), id, {Pending, ExecutedUnverified}) then
        && result == TickResult(UnverifiedTick, "awaiting_receipt", Some(id))
        && Replay(end).Ok? && Outcomes.MovesTo(RecordsOf(back), RecordsOf(end), id, ExecutedUnverified)
      else result == FailWith("effect_queue_error", Some(id)) && end == back
    case Receipted(receipt) =>
      if Verifiable(back, id, receipt) then
        && result == (if env.consumeOk then TickResult(Completed, "verified", Some(id)) else FailWith("control_consume_error", Some(id)))
        && Replay(end).Ok? && Outcomes.MovesTo(RecordsOf(back), RecordsOf(end), id, Verified)
        && RecordsOf(end)[id].receipt == Some(receipt)
      else result == FailWith("receipt_mismatch", Some(id)) && Failing(back, end, id, "receipt_mismatch", false)
  }

  // ---- the execution of an effect --------------------------------------------------------

  /** The effect may be started: it is an intent or requeued. */
  ghost predicate Ready(rows: seq<Row>, id: string) { Replay(rows).Ok? && Outcomes.InState(RecordsOf(rows), id, {Intent, Requeued}) }

  /** An execution that found the ledger like this when it marked the effect pending. */
  ghost predicate ExecutedFrom(env: Env, id: string, found: seq<Row>, before: seq<Invocation>, end: seq<Row>, after: seq<Invocation>, result: TickResult) {
    if !Ready(found, id) then
      result == FailWith("effect_pending_error", Some(id)) && after == before && Failing(found, end, id, "effect_pending_error", false)
    else if env.crash.BeforeProvider? then result == CRASHED && after == before
    else
      && after == before + [(id, RecordsOf(found)[id].attempt)]
      && if env.crash.AfterProvider? then result == CRASHED
         else exists back :: found <= back && Concluded(env, id, back, end, result)
  }

  /** A whole execution: without its started event nothing happens; otherwise the effect is started, the
      provider called once, and the outcome recorded. */
  ghost predicate Executed(env: Env, id: string, start: seq<Row>, before: seq<Invocation>, end: seq<Row>, after: seq<Invocation>, result: TickResult) {
    if !env.startedEventOk then result == FailWith("started_event_error", Some(id)) && end == start && after == before
    else exists found :: start <= found && ExecutedFrom(env, id, found, before, end, after, result)
  }

  /** With its started event emitted, and no crash before the call, an execution calls the provider
      exactly once for its effect, unless the effect could not be started. */
  lemma ExecutedInvokes(env: Env, id: string, start: seq<Row>, before: seq<Invocation>, end: seq<Row>, after: seq<Invocation>, result: TickResult)
    requires Executed(env, id, start, before, end, after, result)
    ensures env.startedEventOk && !env.crash.BeforeProvider? && result != FailWith("effect_pending_error", Some(id)) ==>
              |after| == |before| + 1 && Front(after) == before && Last(after).0 == id
    ensures !env.startedEventOk || (env.crash.BeforeProvider? && result == CRASHED) ==> after == before
    ensures env.startedEventOk && env.crash.NoCrash? ==> !result.status.Crashed?
  {
    if env.startedEventOk {
      var found :| start <= found && ExecutedFrom(env, id, found, before, end, after, result);
      if Ready(found, id) && !env.crash.BeforeProvider? {
        FrontOfAppend(before, (id, RecordsOf(found)[id].attempt));
      }
    }
  }

  // ---- an occurrence without an effect ---------------------------------------------------

  function IntentOf(env: Env, source: string, epoch: string, key: string): Identity {
    Identity(env.newEffectId, AUTONOMY, source, key, epoch, env.now, env.digest, env.length)
  }

  /** The intent can be recorded. */
  ghost predicate Beginnable(rows: seq<Row>, env: Env, identity: Identity) {
    && 0 < env.ttl && 0 < env.length
    && Replay(rows).Ok? && Outcomes.Fresh(RecordsOf(rows), identity)
  }

  predicate Selected(env: Env) { env.gateAllowed && !env.activeChat && env.selection.Some? && env.registered }

  /** What stands in the way of a new effect. */
  function NewRefusal(env: Env): TickResult
    requires !Selected(env)
  {
    if !env.gateAllowed then Skip("gate")
    else if env.activeChat then Skip("active_chat")
    else if env.selection.None? then Skip("no_eligible_provider")
    else FailWith("provider_not_registered", None)
  }

  ghost predicate NewAnswer(env: Env, source: string, epoch: string, start: seq<Row>, before: seq<Invocation>, end: seq<Row>, after: seq<Invocation>, result: TickResult) {
    if !Selected(env) then result == NewRefusal(env) && end == start && after == before
    else
      exists found, identity :: start <= found
        && identity == IntentOf(env, source, epoch, if env.key.Some? then env.key.value else "autonomy:" + env.selection.value + ":" + source + ":" + epoch)
        && LaunchedFrom(env, identity, found, before, end, after, result)
  }

  /** A launch that found the ledger like this when it recorded its intent. */
  ghost predicate LaunchedFrom(env: Env, identity: Identity, found: seq<Row>, before: seq<Invocation>, end: seq<Row>, after: seq<Invocation>, result: TickResult) {
    if !Beginnable(found, env, identity) then result == FailWith("effect_intent_error", None) && end == found && after == before
    else
      exists begun :: found <= begun && Replay(begun).Ok?
        && identity.effectId in RecordsOf(begun) && IsIntent(RecordsOf(begun)[identity.effectId], identity, env.now + env.ttl)
        && Executed(env, identity.effectId, begun, before, end, after, result)
  }

  predicate IsIntent(r: Record, identity: Identity, expiresAt: int) {
    r.identity == identity && r.state.Intent? && r.attempt == 1 && r.expiresAt == expiresAt
  }

  // ---- an occurrence with an effect ------------------------------------------------------

  /** The answer for an effect that already went somewhere, from its record alone. */
  predicate AnsweredFrom(r: Record, consumeOk: bool, result: TickResult) {
    && result.effect == Some(r.Id())
    && match r.state
       case Verified =>
         if consumeOk then result.status.Completed? && result.reason == "already_verified"
         else result.status.FailedTick? && result.reason == "control_consume_error"
       case Pending => result.status.AwaitingReconciliation? && result.reason == "awaiting_reconciliation"
       case ExecutedUnverified => result.status.AwaitingReconciliation? && result.reason == "awaiting_reconciliation"
       case Expired => result.status.AwaitingReconciliation? && result.reason == "expired_requeue_required"
       case Failed => result.status.FailedTick? && (r.reason.Some? ==> result.reason == r.reason.value)
       case _ => false
  }

  /** An effect that is not under way may go on. */
  predicate Resumable(env: Env, r: Record) {
    && env.providerOf(r.Id()).Some? && env.gateAllowed && !env.activeChat && env.registered
    && (r.state.Intent? ==> env.intentEligible)
  }

  /** What stands in its way. */
  function ResumeRefusal(env: Env, r: Record): TickResult
    requires !Resumable(env, r)
  {
    var effect := if r.state.Intent? then Some(r.Id()) else None;
    if r.state.Requeued? && env.providerOf(r.Id()).None? then Await("selection_provider_unavailable", Some(r.Id()))
    else if !env.gateAllowed then TickResult(Skipped, "gate", effect)
    else if env.activeChat then TickResult(Skipped, "active_chat", effect)
    else if r.state.Intent? then TickResult(Skipped, "no_eligible_provider", effect)
    else Await("selected_provider_unavailable", Some(r.Id()))
  }

  ghost predicate KnownAnswer(env: Env, id: string, start: seq<Row>, before: seq<Invocation>, end: seq<Row>, after: seq<Invocation>, result: TickResult) {
    if Replay(start).Err? || id !in RecordsOf(start) then result == CRASHED && end == start && after == before
    else
      var r := RecordsOf(start)[id];
      if r.state !in {Intent, Requeued} then AnsweredFrom(r, env.consumeOk, result) && end == start && after == before
      else if !Resumable(env, r) then result == ResumeRefusal(env, r) && end == start && after == before
      else Executed(env, id, start, before, end, after, result)
  }

  // ---- the whole tick --------------------------------------------------------------------

  /** The effect the request is about, as its key or its occurrence finds it. */
  predicate Located(records: Records, env: Env, r: Record) {
    && r.Id() in records && records[r.Id()] == r
    && if env.key.Some? && exists id :: id in records && records[id].Key() == env.key.value then r.Key() == env.key.value
       else
         && env.source.Some?
         && if env.epoch.Some? then SameOccurrence(r, env.source.value, env.epoch.value)
            else ProvenImplicit(records, r.Id(), env.source.value, env.auditIdentity)
  }

  ghost predicate Target(rows: seq<Row>, env: Env, target: Option<Record>) {
    if (env.key.None? && env.source.None?) || Replay(rows).Err? then target.None?
    else if target.Some? then Located(RecordsOf(rows), env, target.value)
    else SearchStop(RecordsOf(rows), env).Some? || forall r :: !Located(RecordsOf(rows), env, r)
  }

  /** Nothing is overdue, so nothing has to be settled before the tick goes on. */
  ghost predicate Tranquil(rows: seq<Row>, now: int) {
    && Replay(rows).Ok?
    && forall id <- RecordsOf(rows) ::
         RecordsOf(rows)[id].identity.kind == AUTONOMY && RecordsOf(rows)[id].state in {Pending, ExecutedUnverified} ==>
           now <= RecordsOf(rows)[id].expiresAt
  }

  /** The answers given before anything is settled or run. */
  ghost function EarlyAnswer(rows: seq<Row>, env: Env, target: Option<Record>): Option<TickResult> {
    var asked := env.key.Some? || env.source.Some?;
    if asked && Replay(rows).Err? then Some(FailWith("effect_lookup_error", None))
    else if asked && SearchStop(RecordsOf(rows), env).Some? then SearchStop(RecordsOf(rows), env)
    else if target.Some? && RecordStop(target.value, env).Some? then RecordStop(target.value, env)
    else TerminalAnswer(env.terminalAudit, Replay(rows), SourceOf(env, target), EpochFor(env, target))
  }

  function SourceOf(env: Env, target: Option<Record>): string {
    if target.Some? then target.value.identity.sourceEventId else if env.source.Some? then env.source.value else env.runId
  }

  function EpochFor(env: Env, target: Option<Record>): string {
    if target.Some? then target.value.identity.epochId else if env.epoch.Some? then env.epoch.value else env.day
  }

  /** A tick: an early answer, or, after overdue effects are settled, the answer for the effect the
      request is about, or for a new one. */
  ghost predicate Ticked(env: Env, target: Option<Record>, start: seq<Row>, before: seq<Invocation>, end: seq<Row>, after: seq<Invocation>, result: TickResult) {
    if EarlyAnswer(start, env, target).Some? then Some(result) == EarlyAnswer(start, env, target) && end == start && after == before
    else exists settled :: SettledTick(env, target, start, settled, before, end, after, result)
  }

  ghost predicate SettledTick(env: Env, target: Option<Record>, start: seq<Row>, settled: seq<Row>, before: seq<Invocation>,
                              end: seq<Row>, after: seq<Invocation>, result: TickResult) {
    && start <= settled && (Tranquil(start, env.now) ==> settled == start)
    && ((result == CRASHED && after == before && NotSettled(start, env.now))
        || if target.Some? then KnownAnswer(env, target.value.Id(), settled, before, end, after, result)
           else NewAnswer(env, SourceOf(env, target), EpochFor(env, target), settled, before, end, after, result))
  }

  /** Settling can fail: something is overdue or unreadable, and the ledger is or becomes unreadable, or
      an overdue effect is found expired by then. */
  ghost predicate NotSettled(start: seq<Row>, now: int) {
    !Tranquil(start, now) && exists at :: start <= at && Unsettled(start, at, now)
  }

  ghost predicate Unsettled(start: seq<Row>, at: seq<Row>, now: int) {
    || Replay(at).Err?
    || (Replay(start).Ok? && exists x :: x in RecordsOf(start) && Overdue(RecordsOf(start)[x], now) && Outcomes.InState(RecordsOf(at), x, {Expired}))
  }

  // ---- which answer, and when ------------------------------------------------------------

  /** The refusal of a new effect names the first thing in its way. */
  lemma RefusalMeans(env: Env)
    requires !Selected(env)
    ensures var r := NewRefusal(env);
            && r.effect.None?
            && (r.reason == "gate" <==> !env.gateAllowed)
            && (r.reason == "active_chat" <==> env.gateAllowed && env.activeChat)
            && (r.reason == "no_eligible_provider" <==> env.gateAllowed && !env.activeChat && env.selection.None?)
            && (r.reason == "provider_not_registered" <==> env.gateAllowed && !env.activeChat && env.selection.Some?)
            && (r.status == if r.reason == "provider_not_registered" then FailedTick else Skipped)
  {
  }

  /** An effect that may not go on: an intent is skipped under its own id, a requeued effect waits for
      its provider unless the gate or a chat comes first. */
  lemma ResumeRefusalMeans(env: Env, r: Record)
    requires r.state in {Intent, Requeued} && !Resumable(env, r)
    ensures var answer := ResumeRefusal(env, r);
            var unassigned := r.state.Requeued? && env.providerOf(r.identity.effectId).None?;
            && (answer.reason == "gate" <==> !unassigned && !env.gateAllowed)
            && (answer.reason == "active_chat" <==> !unassigned && env.gateAllowed && env.activeChat)
            && (answer.reason == "no_eligible_provider" <==> r.state.Intent? && env.gateAllowed && !env.activeChat)
            && (answer.reason == "selection_provider_unavailable" <==> unassigned)
            && (answer.reason == "selected_provider_unavailable" <==>
                  r.state.Requeued? && !unassigned && env.gateAllowed && !env.activeChat && !env.registered)
            && (answer.status == if answer.reason in {"gate", "active_chat", "no_eligible_provider"} then Skipped else AwaitingReconciliation)
            && (answer.effect == if r.state.Requeued? && answer.status.Skipped? then None else Some(r.identity.effectId))
  {
  }

  /** No effect belongs to the occurrence. */
  predicate Vacant(records: Records, source: string, epoch: string) {
    forall id <- records :: !SameOccurrence(records[id], source, epoch)
  }

  /** One effect alone belongs to the occurrence, and it ended like this. */
  ghost predicate EndedSo(records: Records, source: string, epoch: string, terminal: string) {
    exists id :: OnlyEffectOf(records, id, source, epoch) && EndedAs(records[id], terminal)
  }

  ghost predicate OnlyEffectOf(records: Records, id: string, source: string, epoch: string) {
    && id in records && SameOccurrence(records[id], source, epoch)
    && forall x <- records :: SameOccurrence(records[x], source, epoch) ==> x == id
  }

  /** A recorded terminal: the tick goes on exactly when there is none, or when the one effect of the
      occurrence ended as it says; a recorded skip or failure is answered again exactly when the
      occurrence has no effect and the audit names none; otherwise the two records contradict each
      other. */
  lemma TerminalMeans(rows: seq<Row>, audit: TerminalAudit, source: string, epoch: string)
    ensures var answer := TerminalAnswer(audit, Replay(rows), source, epoch);
            var readable := Replay(rows).Ok? && audit.Audited?;
            var again := readable && !audit.hasEffect && audit.status in {Skipped, FailedTick} && Vacant(RecordsOf(rows), source, epoch);
            && (answer.None? <==> audit.NoAudit? || (readable && EndedSo(RecordsOf(rows), source, epoch, audit.terminal)))
            && (again ==> answer == Some(TickResult(audit.status, audit.terminal, None)))
            && (answer.Some? && !again ==> answer == Some(TERMINAL_INTEGRITY))
  {
    hide Replay, SameOccurrence, EndedAs;
    if Replay(rows).Ok? {
      OccupiedIsNotVacant(rows, source, epoch);
      if audit.Audited? && Occupied(RecordsOf(rows), source, epoch) && !Ambiguous(RecordsOf(rows), source, epoch) {
        OneEffectDecides(RecordsOf(rows), source, epoch, audit.terminal);
      }
    }
  }

  lemma OccupiedIsNotVacant(rows: seq<Row>, source: string, epoch: string)
    requires Replay(rows).Ok?
    ensures Occupied(RecordsOf(rows), source, epoch) <==> !Vacant(RecordsOf(rows), source, epoch)
    ensures Ambiguous(RecordsOf(rows), source, epoch) ==> forall id :: !OnlyEffectOf(RecordsOf(rows), id, source, epoch)
  {
  }

  lemma OneEffectDecides(records: Records, source: string, epoch: string, terminal: string)
    requires Occupied(records, source, epoch) && !Ambiguous(records, source, epoch)
    ensures SettledAs(records, source, epoch, terminal) <==> EndedSo(records, source, epoch, terminal)
  {
    hide EndedAs;
    if SettledAs(records, source, epoch, terminal) {
      var id :| id in records && SameOccurrence(records[id], source, epoch) && EndedAs(records[id], terminal);
      assert OnlyEffectOf(records, id, source, epoch);
    }
  }

  /** The search gives up with a wait exactly when the audit leaves the identity of an effect of the
      source open, and with a conflict exactly when two effects claim what was asked for; never
      when the key is in use. */
  lemma SearchMeans(records: Records, env: Env)
    ensures var stop := SearchStop(records, env);
            var searched := env.source.Some? && (env.key.None? || forall id <- records :: records[id].identity.idempotencyKey != env.key.value);
            var open := searched && env.epoch.None? && exists id :: LeftOpen(records, id, env.source.value, env.day, env.auditIdentity);
            && (stop.Some? ==> stop.value in {FailWith("occurrence_conflict", None), Await("implicit_identity_unavailable", None)})
            && (stop == Some(Await("implicit_identity_unavailable", None)) <==> open)
            && (stop == Some(FailWith("occurrence_conflict", None)) <==> searched && !open && Rivals(records, env))
  {
    if env.source.Some? { RivalsIff(records, env); }
  }

  lemma RivalsIff(records: Records, env: Env)
    requires env.source.Some?
    ensures env.epoch.Some? ==> (Rivals(records, env) <==> Ambiguous(records, env.source.value, env.epoch.value))
    ensures env.epoch.None? ==> (Rivals(records, env) <==> ManyImplicit(records, env.source.value, env.auditIdentity))
  {
    forall id ensures env.epoch.Some? ==> (Claims(records, env, id) <==> id in records && SameOccurrence(records[id], env.source.value, env.epoch.value))
    {}
    forall id ensures env.epoch.None? ==> (Claims(records, env, id) <==> ProvenImplicit(records, id, env.source.value, env.auditIdentity))
    {}
    hide Claims, SameOccurrence, ProvenImplicit;
  }

  /** Two effects of the occurrence asked for, or, without an epoch, two proven implicit ones. */
  ghost predicate Rivals(records: Records, env: Env)
    requires env.source.Some?
  {
    exists a, b :: a != b && Claims(records, env, a) && Claims(records, env, b)
  }

  predicate Claims(records: Records, env: Env, id: string)
    requires env.source.Some?
  {
    && id in records && records[id].identity.kind == AUTONOMY && records[id].identity.sourceEventId == env.source.value
    && (if env.epoch.Some? then records[id].identity.epochId == env.epoch.value else env.auditIdentity(id).Implicit?)
  }

  /** A found effect is taken exactly when it is the one the request names and the audit proves that
      it was asked for in the same way: without a public epoch if only its key is given, with one
      if its epoch could be a plain date. */
  lemma FoundMeans(r: Record, env: Env)
    ensures var stop := RecordStop(r, env);
            var named := r.identity.kind == AUTONOMY && (env.source.Some? ==> r.identity.sourceEventId == env.source.value)
                         && (env.epoch.Some? ==> r.identity.epochId == env.epoch.value);
            var asked := env.auditIdentity(r.identity.effectId);
            && (stop.None? <==>
                  && named && (env.key.Some? && env.epoch.None? ==> asked.Implicit?)
                  && (env.epoch.Some? && env.dateEpoch(r.identity.createdAt) == r.identity.epochId ==> asked.Explicit?))
            && (stop == Some(FailWith("occurrence_conflict", None)) <==> !named)
            && (stop.Some? && named ==> stop == Some(Await("implicit_identity_unavailable", None)))
  {
  }

  /** A tick that is not answered early, has nothing overdue and nothing in its way calls the provider
      exactly once, unless its effect could not be recorded or started. */
  lemma OpenTickInvokes(env: Env, target: Option<Record>, start: seq<Row>, before: seq<Invocation>, end: seq<Row>, after: seq<Invocation>, result: TickResult)
    requires Target(start, env, target) && Ticked(env, target, start, before, end, after, result)
    requires EarlyAnswer(start, env, target).None? && Tranquil(start, env.now) && env.startedEventOk && env.crash.NoCrash?
    requires if target.Some? then target.value.state in {Intent, Requeued} && Resumable(env, target.value) else Selected(env)
    ensures || (result.reason in {"effect_intent_error", "effect_pending_error"} && result.status.FailedTick? && after == before)
            || (|after| == |before| + 1 && Front(after) == before && result.effect == Some(Last(after).0))
  {
    hide Executed, SearchStop, RecordStop, TerminalAnswer, Beginnable;
    var settled :| SettledTick(env, target, start, settled, before, end, after, result);
    if target.Some? {
      InvokedFor(env, target.value.Id(), start, before, end, after, result);
    } else {
      var found, identity :| start <= found
        && identity == IntentOf(env, SourceOf(env, target), EpochFor(env, target),
                                if env.key.Some? then env.key.value
                                else "autonomy:" + env.selection.value + ":" + SourceOf(env, target) + ":" + EpochFor(env, target))
        && LaunchedFrom(env, identity, found, before, end, after, result);
      if Beginnable(found, env, identity) {
        var begun :| found <= begun && Executed(env, identity.effectId, begun, before, end, after, result);
        InvokedFor(env, identity.effectId, begun, before, end, after, result);
      }
    }
  }

  lemma InvokedFor(env: Env, id: string, start: seq<Row>, before: seq<Invocation>, end: seq<Row>, after: seq<Invocation>, result: TickResult)
    requires Executed(env, id, start, before, end, after, result) && env.startedEventOk && env.crash.NoCrash?
    ensures || (result == FailWith("effect_pending_error", Some(id)) && after == before)
            || (|after| == |before| + 1 && Front(after) == before && Last(after).0 == id && result.effect == Some(id))
  {
    var found :| start <= found && ExecutedFrom(env, id, found, before, end, after, result);
    if Ready(found, id) {
      FrontOfAppend(before, (id, RecordsOf(found)[id].attempt));
      var back :| found <= back && Concluded(env, id, back, end, result);
    }
  }

  /** And a tick calls the provider only with its gate open, no chat under way, the provider registered
      and the started event emitted. */
  lemma InvokesOnlyIf(env: Env, target: Option<Record>, start: seq<Row>, before: seq<Invocation>, end: seq<Row>, after: seq<Invocation>, result: TickResult)
    requires Ticked(env, target, start, before, end, after, result) && after != before
    ensures EarlyAnswer(start, env, target).None?
    ensures env.gateAllowed && !env.activeChat && env.registered && env.startedEventOk && !env.crash.BeforeProvider?
  {
    hide SearchStop, RecordStop, TerminalAnswer, Beginnable, Concluded, EarlyAnswer;
  }

  predicate Overdue(r: Record, now: int) {
    r.identity.kind == AUTONOMY && (r.state.Pending? || r.state.ExecutedUnverified?) && r.expiresAt < now
  }

  const CRASHED := TickResult(Crashed, "", None)
}
