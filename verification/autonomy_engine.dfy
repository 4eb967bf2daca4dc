/** One locked autonomy tick as a sequence of ledger steps around one provider call, with
    the host acting on the same ledger in between and a crash possible anywhere
    (moonbite_plugin/_autonomy/execution.py:88-792, outcomes.py:293-346, recovery.py:489-612). */
module AutonomyEngines {
  import opened Basics
  import opened EffectModel
  import opened EffectHistory
  import opened EffectLedgers
  import opened AutonomySafety
  import opened AutonomySearch
  import Outcomes = EffectOutcomes
  import opened AutonomyAnswers

  /** The ledger holds verified, receipt-backed proof of delivery for an autonomy effect of
      the requested occurrence. */
  ghost predicate Proven(rows: seq<Row>, env: Env, effect: Option<string>) {
    && effect.Some? && Replay(rows).Ok? && effect.value in RecordsOf(rows)
    && var r := RecordsOf(rows)[effect.value];
       && Answers(env, r.identity) && r.state.Verified?
       && r.receipt.Some? && ReceiptMatches(r.identity, r.receipt.value)
  }

  /** The ledger holds the requested occurrence's effect as executed and waiting for its receipt. */
  ghost predicate Queued(rows: seq<Row>, env: Env, effect: Option<string>) {
    && effect.Some? && Replay(rows).Ok? && effect.value in RecordsOf(rows)
    && Answers(env, RecordsOf(rows)[effect.value].identity)
    && RecordsOf(rows)[effect.value].state.ExecutedUnverified?
  }

  /** What an answer claims about the effect is what the ledger holds. */
  ghost predicate Honest(rows: seq<Row>, env: Env, result: TickResult) {
    && (result.status.Completed? ==> Proven(rows, env, result.effect))
    && (result.status.UnverifiedTick? ==> Queued(rows, env, result.effect))
  }

  predicate InvokedOnce(before: seq<Invocation>, after: seq<Invocation>, effect: Option<string>) {
    |after| == |before| + 1 && Front(after) == before && effect == Some(Last(after).0)
  }

  /** How an answer accounts for provider invocations: a skip, a wait and a replayed completion
      invoked nothing, a new completion and an unverified execution invoked their own effect. */
  predicate Accounted(before: seq<Invocation>, after: seq<Invocation>, result: TickResult) {
    match result.status
    case Skipped => after == before
    case AwaitingReconciliation => after == before
    case Completed => if result.reason == "verified" then InvokedOnce(before, after, result.effect) else after == before
    case UnverifiedTick => InvokedOnce(before, after, result.effect)
    case FailedTick => after == before || InvokedOnce(before, after, result.effect)
    case Crashed => before <= after && |after| <= |before| + 1
  }

  /** The effect went somewhere already: neither a fresh intent nor requeued. */
  ghost predicate UnderWay(rows: seq<Row>, id: string) {
    Replay(rows).Ok? && id in RecordsOf(rows) && RecordsOf(rows)[id].state !in {Intent, Requeued}
  }

  /** existing_result: what a tick answers for an effect that already went somewhere. None
      for an intent or a requeued effect, which may still be run. */
  function ExistingResult(r: Record, consumeOk: bool): Option<TickResult> {
    match r.state
    case Verified =>
      if consumeOk then Some(TickResult(Completed, "already_verified", Some(r.Id())))
      else Some(FailWith("control_consume_error", Some(r.Id())))
    case Pending => Some(Await("awaiting_reconciliation", Some(r.Id())))
    case ExecutedUnverified => Some(Await("awaiting_reconciliation", Some(r.Id())))
    case Expired => Some(Await("expired_requeue_required", Some(r.Id())))
    case Failed => Some(FailWith(if r.reason.Some? then r.reason.value else "already_failed", Some(r.Id())))
    case Intent => None
    case Requeued => None
  }

  class AutonomyEngine {
    const ledger: EffectLedger
    var invoked: seq<Invocation>

    constructor (ledger: EffectLedger)
      requires Replay(ledger.rows).Ok? && OneEffectPerOccurrence(RecordsOf(ledger.rows))
      ensures this.ledger == ledger && invoked == [] && Valid()
    {
      this.ledger := ledger;
      invoked := [];
    }

    ghost predicate Valid()
      reads this, ledger
    {
      Safe(ledger.rows, invoked)
    }

    /** Any number of calls by the host and other components, in any order. */
    method Host(ghost identity: Identity, ghost source: string, ghost epoch: string)
      requires Valid()
      modifies ledger
      ensures Valid()
      ensures old(Startable(ledger.rows, identity)) ==> Startable(ledger.rows, identity)
      ensures old(Ours(ledger.rows, identity)) ==> Ours(ledger.rows, identity)
      ensures old(Free(ledger.rows, source, epoch)) ==> Free(ledger.rows, source, epoch)
      ensures forall x :: old(Ended(ledger.rows, x)) ==> Ended(ledger.rows, x)
      ensures old(ledger.rows) <= ledger.rows
    {
      hide Step, Startable, Ours, Free, Safe, Ended;
      var n: nat :| true;
      for i := 0 to n
        invariant Valid()
        invariant old(ledger.rows) <= ledger.rows
        invariant old(Startable(ledger.rows, identity)) ==> Startable(ledger.rows, identity)
        invariant old(Ours(ledger.rows, identity)) ==> Ours(ledger.rows, identity)
        invariant old(Free(ledger.rows, source, epoch)) ==> Free(ledger.rows, source, epoch)
        invariant forall x :: old(Ended(ledger.rows, x)) ==> Ended(ledger.rows, x)
      {
        var call: Call := *;
        var replay := ledger.ReplayRows();
        if replay.Err? || HostMay(replay.value, call) {
          StepKeepsSafe(ledger.rows, invoked, call);
          HostStepKeeps(ledger.rows, call, identity, source, epoch);
          StepAppends(ledger.rows, call);
          forall x | Ended(ledger.rows, x) ensures Ended(Step(ledger.rows, call).1, x) { StepKeepsEnded(ledger.rows, call, x); }
          Perform(call);
        }
      }
    }

    method Perform(call: Call)
      modifies ledger
      ensures ledger.rows == Step(old(ledger.rows), call).1
    {
      hide Step;
      var r: Outcome;
      match call
      case BeginCall(identity, expiresAt, attempt) => r := ledger.Begin(identity, expiresAt, attempt);
      case PendingCall(id) => r := ledger.MarkPending(id);
      case AcceptCall(id) => r := ledger.MarkQueueAccepted(id);
      case VerifyCall(id, receipt) => r := ledger.Verify(id, receipt);
      case FailCall(id, reason, retryable) => r := ledger.Fail(id, reason, retryable);
      case ExpireCall(id, now) => r := ledger.Expire(id, now);
      case RequeueCall(id, clock, newExpiry, key, source, epoch) =>
        r := ledger.Requeue(id, clock, newExpiry, key, source, epoch);
    }

    /** ledger.fail with its error ignored. */
    method FailQuietly(id: string, reason: string, retryable: bool)
      requires Valid()
      modifies ledger
      ensures Valid()
      ensures Failing(old(ledger.rows), ledger.rows, id, reason, retryable)
    {
      hide Step;
      FailIsFailing(ledger.rows, id, reason, retryable);
      StepKeepsSafe(ledger.rows, invoked, FailCall(id, reason, retryable));
      var r := ledger.Fail(id, reason, retryable);
    }

    /** settle_expired_unverified: every overdue effect that is pending or unverified ends failed,
        or was verified in the meantime. False when the ledger cannot be read or a failure cannot
        be explained; the tick then raises. */
    method SettleExpired(now: int, ghost identity: Identity, ghost source: string, ghost epoch: string) returns (ok: bool)
      requires Valid()
      modifies ledger
      ensures Valid()
      ensures old(Startable(ledger.rows, identity)) ==> Startable(ledger.rows, identity)
      ensures old(Ours(ledger.rows, identity)) ==> Ours(ledger.rows, identity)
      ensures old(Free(ledger.rows, source, epoch)) ==> Free(ledger.rows, source, epoch)
      ensures old(ledger.rows) <= ledger.rows
      ensures old(Tranquil(ledger.rows, now)) ==> ok && ledger.rows == old(ledger.rows)
      ensures !ok ==> NotSettled(old(ledger.rows), now)
      ensures ok ==> old(Replay(ledger.rows).Ok?)
      ensures ok ==> forall x | x in old(RecordsOf(ledger.rows)) ::
                var r := old(RecordsOf(ledger.rows))[x];
                r.identity.kind == AUTONOMY && r.state in {Pending, ExecutedUnverified} && r.expiresAt < now ==> Ended(ledger.rows, x)
    {
      hide Step, Startable, Ours, Free, Safe, Ended;
      ghost var start := ledger.rows;
      var replay := ledger.ReplayRows();
      if replay.Err? {
        assert Unsettled(start, start, now);
        return false;
      }
      var records := replay.value.records;
      var todo := records.Keys;
      while todo != {}
        invariant todo <= records.Keys
        invariant Valid()
        invariant start <= ledger.rows
        invariant Tranquil(start, now) ==> ledger.rows == start
        invariant old(Startable(ledger.rows, identity)) ==> Startable(ledger.rows, identity)
        invariant old(Ours(ledger.rows, identity)) ==> Ours(ledger.rows, identity)
        invariant old(Free(ledger.rows, source, epoch)) ==> Free(ledger.rows, source, epoch)
        invariant forall x <- records.Keys - todo :: Overdue(records[x], now) ==> Ended(ledger.rows, x)
      {
        var effect :| effect in todo;
        todo := todo - {effect};
        if !Overdue(records[effect], now) { continue; }
        ghost var at := ledger.rows;
        var settled := FailOverdue(effect, identity, source, epoch);
        if !settled {
          UnsettledEffect(start, at, effect, now);
          return false;
        }
        Host(identity, source, epoch);
      }
      return true;
    }

    /** One overdue effect: failed now, or found settled already. */
    method FailOverdue(effect: string, ghost identity: Identity, ghost source: string, ghost epoch: string) returns (ok: bool)
      requires Valid()
      modifies ledger
      ensures Valid()
      ensures old(Startable(ledger.rows, identity)) ==> Startable(ledger.rows, identity)
      ensures old(Ours(ledger.rows, identity)) ==> Ours(ledger.rows, identity)
      ensures old(Free(ledger.rows, source, epoch)) ==> Free(ledger.rows, source, epoch)
      ensures forall x :: old(Ended(ledger.rows, x)) ==> Ended(ledger.rows, x)
      ensures Failing(old(ledger.rows), ledger.rows, effect, "effect_expired_unverified", false)
      ensures ok ==> Ended(ledger.rows, effect)
      ensures old(ledger.rows) <= ledger.rows
      ensures !ok ==> !old(Settleable(ledger.rows, effect))
    {
      hide Step, Startable, Ours, Free, Safe;
      if Settleable(ledger.rows, effect) { OverdueFails(ledger.rows, effect); }
      var call := FailCall(effect, "effect_expired_unverified", false);
      StepKeepsSafe(ledger.rows, invoked, call);
      HostStepKeeps(ledger.rows, call, identity, source, epoch);
      forall x | Ended(ledger.rows, x) ensures Ended(Step(ledger.rows, call).1, x) { StepKeepsEnded(ledger.rows, call, x); }
      FailedIsEnded(ledger.rows, effect);
      FailIsFailing(ledger.rows, effect, "effect_expired_unverified", false);
      StepAppends(ledger.rows, call);
      var failed := ledger.Fail(effect, "effect_expired_unverified", false);
      if failed.Err? {
        var current := ledger.Require(effect);
        return current.Ok? && (current.value.state.Verified? || current.value.state.Failed?);
      }
      return true;
    }

    /** The canonical terminal of the occurrence is replayed, superseded by the ledger, or refused,
        exactly as specified. */
    method ExistingTerminal(env: Env, source: string, ledgerEpoch: string) returns (r: Option<TickResult>)
      ensures r == TerminalAnswer(env.terminalAudit, Replay(ledger.rows), source, ledgerEpoch)
      ensures r.Some? ==> r.value.status.Skipped? || r.value.status.FailedTick?
    {
      match env.terminalAudit
      case NoAudit => return None;
      case AuditConflict => return Some(TERMINAL_INTEGRITY);
      case Audited(terminal, status, hasEffect) =>
        var replay := ledger.ReplayRows();
        if replay.Err? { return Some(TERMINAL_INTEGRITY); }
        ReplayCoherent(ledger.rows);
        var matching, conflict := FindByOccurrence(replay.value.records, source, ledgerEpoch);
        if conflict { return Some(TERMINAL_INTEGRITY); }
        if matching.Some? {
          if EffectTerminal(matching.value) == Some(terminal) { return None; }
          OnlyEffect(replay.value.records, source, ledgerEpoch, matching.value.Id());
          return Some(TERMINAL_INTEGRITY);
        }
        if hasEffect || !(status.Skipped? || status.FailedTick?) { return Some(TERMINAL_INTEGRITY); }
        return Some(TickResult(status, terminal, None));
    }

    /** The part of a tick that looks for an effect this occurrence already has. It stops exactly
        when the search or the effect it finds says so. */
    method Locate(env: Env) returns (stop: Option<TickResult>, existing: Option<Record>, source: string, epoch: string)
      requires Valid()
      requires Replay(ledger.rows).Ok? ==> forall r <- RecordsOf(ledger.rows).Values :: r.identity.sourceEventId != env.runId
      ensures stop.Some? ==> stop.value.status.FailedTick? || stop.value.status.AwaitingReconciliation?
      ensures env.key.None? && env.source.None? ==> stop.None? && existing.None?
      ensures (env.key.Some? || env.source.Some?) && Replay(ledger.rows).Err? ==>
                stop == Some(FailWith("effect_lookup_error", None)) && existing.None?
      ensures (env.key.Some? || env.source.Some?) && Replay(ledger.rows).Ok? ==>
                stop == if SearchStop(RecordsOf(ledger.rows), env).Some? then SearchStop(RecordsOf(ledger.rows), env)
                        else if existing.Some? then RecordStop(existing.value, env) else None
      ensures (env.key.Some? || env.source.Some?) && Replay(ledger.rows).Ok? && SearchStop(RecordsOf(ledger.rows), env).None? ==>
                Target(ledger.rows, env, existing)
      ensures stop.None? && existing.Some? ==>
                && Ours(ledger.rows, existing.value.identity) && Answers(env, existing.value.identity)
                && source == existing.value.identity.sourceEventId && epoch == existing.value.identity.epochId
      ensures stop.None? && existing.None? ==>
                && Free(ledger.rows, source, epoch)
                && source == (if env.source.Some? then env.source.value else env.runId)
                && epoch == (if env.epoch.Some? then env.epoch.value else env.day)
    {
      hide Safe, Ambiguous, Unproven, ManyImplicit;
      source := if env.source.Some? then env.source.value else env.runId;
      epoch := if env.epoch.Some? then env.epoch.value else env.day;
      existing, stop := None, None;
      if env.key.None? && env.source.None? { return; }
      var replay := ledger.ReplayRows();
      if replay.Err? { stop := Some(FailWith("effect_lookup_error", None)); return; }
      ReplayCoherent(ledger.rows);
      var records := replay.value.records;
      if env.key.Some? {
        existing := ledger.FindByKey(replay.value, env.key.value);
        if existing.Some? { assert records[existing.value.Id()] == existing.value; }
      }
      if existing.None? && env.source.Some? {
        if env.epoch.Some? {
          var conflict;
          existing, conflict := FindByOccurrence(records, source, epoch);
          if conflict { stop := Some(FailWith("occurrence_conflict", None)); return; }
        } else {
          var unproven, conflict;
          existing, unproven, conflict := FindImplicit(records, source, epoch, env.auditIdentity);
          if unproven { stop := Some(Await("implicit_identity_unavailable", None)); return; }
          if conflict { stop := Some(FailWith("occurrence_conflict", None)); return; }
        }
      }
      if existing.None? { return; }
      stop := CheckFound(existing.value, env);
      source, epoch := existing.value.identity.sourceEventId, existing.value.identity.epochId;
    }

    /** A found effect must be the one the request names, and the audit must not leave open whether it
        was requested with a public epoch. */
    method CheckFound(r: Record, env: Env) returns (stop: Option<TickResult>)
      ensures stop == RecordStop(r, env)
    {
      if r.identity.kind != AUTONOMY { return Some(FailWith("occurrence_conflict", None)); }
      if env.source.Some? && env.source.value != r.identity.sourceEventId { return Some(FailWith("occurrence_conflict", None)); }
      if env.epoch.Some? && env.epoch.value != r.identity.epochId { return Some(FailWith("occurrence_conflict", None)); }
      if env.key.Some? && env.epoch.None? && !env.auditIdentity(r.Id()).Implicit? {
        return Some(Await("implicit_identity_unavailable", None));
      }
      if env.epoch.Some? && env.dateEpoch(r.identity.createdAt) == r.identity.epochId && !env.auditIdentity(r.Id()).Explicit? {
        return Some(Await("implicit_identity_unavailable", None));
      }
      return None;
    }

    /** run_once_locked. At every point where it can stop, for whatever reason, the engine is
        valid; and it reports completion only with proof in the ledger for the occurrence that was
        asked for. */
    method RunOnce(env: Env) returns (result: TickResult)
      requires Valid()
      requires Replay(ledger.rows).Ok? ==> forall r <- RecordsOf(ledger.rows).Values :: r.identity.sourceEventId != env.runId
      modifies this, ledger
      ensures exists target :: Target(old(ledger.rows), env, target)
                               && Ticked(env, target, old(ledger.rows), old(invoked), ledger.rows, invoked, result)
      ensures Valid()
      ensures Honest(ledger.rows, env, result)
      ensures Accounted(old(invoked), invoked, result)
    {
      hide Step, Safe, Startable, Ours, Free, SearchStop, RecordStop, TerminalAnswer, KnownAnswer, NewAnswer, NotSettled, Tranquil, Located, Answers, Proven, Queued;
      ghost var start := ledger.rows;
      var stop, existing, source, epoch := Locate(env);
      ghost var target := if (env.key.Some? || env.source.Some?) && Replay(start).Ok? && SearchStop(RecordsOf(start), env).Some? then None else existing;
      assert Target(start, env, target);
      if stop.Some? { return stop.value; }
      var terminal := ExistingTerminal(env, source, epoch);
      if terminal.Some? { return terminal.value; }
      ghost var identity := if existing.Some? then existing.value.identity else NOBODY;
      var settled := SettleExpired(env.now, identity, source, epoch);
      ghost var from := ledger.rows;
      if !settled {
        assert SettledTick(env, target, start, if Tranquil(start, env.now) then start else from, old(invoked), from, invoked, CRASHED);
        return CRASHED;
      }
      if existing.Some? {
        result := RunExisting(env, existing.value.identity);
      } else {
        result := RunNew(env, source, epoch);
      }
      assert SettledTick(env, target, start, from, old(invoked), ledger.rows, invoked, result);
    }

    /** Any number of ticks, one after the other, with host calls in between: over the whole life
        of the ledger no attempt of an effect is handed to a provider twice. A drawn run id that
        some effect already carries is drawn again. */
    method Ticks(envs: seq<Env>)
      requires Valid()
      modifies this, ledger
      ensures Valid()
      ensures forall id, attempt :: CountInvoked(invoked, id, attempt) <= 1
    {
      hide Safe;
      for i := 0 to |envs|
        invariant Valid()
      {
        Host(NOBODY, "", "");
        var replay := ledger.ReplayRows();
        if replay.Ok? && exists r :: r in replay.value.records.Values && r.identity.sourceEventId == envs[i].runId { continue; }
        var _ := RunOnce(envs[i]);
      }
      forall id, attempt ensures CountInvoked(invoked, id, attempt) <= 1 {
        AtMostOneInvocation(ledger.rows, invoked, id, attempt);
      }
    }

    /** An occurrence that already has an effect: one under way is answered from the ledger
        alone, before any gate; an intent or a requeued effect may be resumed. */
    method RunExisting(env: Env, identity: Identity) returns (result: TickResult)
      requires Valid() && Ours(ledger.rows, identity) && Answers(env, identity)
      modifies this, ledger
      ensures KnownAnswer(env, identity.effectId, old(ledger.rows), old(invoked), ledger.rows, invoked, result)
      ensures old(UnderWay(ledger.rows, identity.effectId)) ==>
                && ledger.rows == old(ledger.rows) && invoked == old(invoked)
                && Some(result) == ExistingResult(RecordsOf(ledger.rows)[identity.effectId], env.consumeOk)
      ensures !old(UnderWay(ledger.rows, identity.effectId)) && (!env.gateAllowed || env.activeChat || !env.registered) ==>
                ledger.rows == old(ledger.rows) && invoked == old(invoked)
      ensures Valid()
      ensures Honest(ledger.rows, env, result)
      ensures Accounted(old(invoked), invoked, result)
    {
      hide Step, Safe, Answers, Proven, Queued, Executed, Resumable, ResumeRefusal, AnsweredFrom;
      var refreshed := ledger.Require(identity.effectId);
      if refreshed.Err? { return CRASHED; }
      var r := refreshed.value;
      FiledUnderId(ledger.rows, identity.effectId);
      ExistingIsAnswered(r, env.consumeOk);
      if !r.state.Intent? {
        var reconciled := ExistingResult(r, env.consumeOk);
        if reconciled.Some? {
          KnownIsHonest(ledger.rows, env, r);
          return reconciled.value;
        }
      }
      result := Resume(env, r);
    }

    /** An intent, or a requeued effect: gates, then execution. */
    method Resume(env: Env, r: Record) returns (result: TickResult)
      requires Valid() && Startable(ledger.rows, r.identity) && Answers(env, r.identity) && r.state in {Intent, Requeued}
      modifies this, ledger
      ensures if Resumable(env, r) then Executed(env, r.Id(), old(ledger.rows), old(invoked), ledger.rows, invoked, result)
              else result == ResumeRefusal(env, r) && ledger.rows == old(ledger.rows) && invoked == old(invoked)
      ensures !env.gateAllowed || env.activeChat || !env.registered ==> ledger.rows == old(ledger.rows) && invoked == old(invoked)
      ensures Valid()
      ensures Honest(ledger.rows, env, result)
      ensures Accounted(old(invoked), invoked, result)
    {
      hide Step, Safe, Startable, Answers, Proven, Queued, Executed;
      var id := r.Id();
      if !r.state.Intent? && env.providerOf(id).None? { return Await("selection_provider_unavailable", Some(id)); }
      var effect := if r.state.Intent? then Some(id) else None;
      if !env.gateAllowed { return TickResult(Skipped, "gate", effect); }
      if env.activeChat { return TickResult(Skipped, "active_chat", effect); }
      if r.state.Intent? && (env.providerOf(id).None? || !env.registered || !env.intentEligible) {
        return TickResult(Skipped, "no_eligible_provider", effect);
      }
      if !env.registered { return Await("selected_provider_unavailable", Some(id)); }
      result := Execute(env, r.identity);
    }

    /** An occurrence without an effect: gates, selection, intent, execution. A closed gate, an
        active chat or a missing provider leaves no trace in the ledger. */
    method RunNew(env: Env, source: string, epoch: string) returns (result: TickResult)
      requires Valid() && Free(ledger.rows, source, epoch)
      requires source == (if env.source.Some? then env.source.value else env.runId)
      requires epoch == (if env.epoch.Some? then env.epoch.value else env.day)
      modifies this, ledger
      ensures NewAnswer(env, source, epoch, old(ledger.rows), old(invoked), ledger.rows, invoked, result)
      ensures !env.gateAllowed || env.activeChat || env.selection.None? || !env.registered ==>
                ledger.rows == old(ledger.rows) && invoked == old(invoked) && !result.status.Completed?
      ensures !env.gateAllowed ==> result == Skip("gate")
      ensures Valid()
      ensures Honest(ledger.rows, env, result)
      ensures Accounted(old(invoked), invoked, result)
    {
      hide Step, Safe, Free, Answers, Proven, Queued, LaunchedFrom;
      if !env.gateAllowed { return Skip("gate"); }
      if env.activeChat { return Skip("active_chat"); }
      if env.selection.None? { return Skip("no_eligible_provider"); }
      if !env.registered { return FailWith("provider_not_registered", None); }
      var key := if env.key.Some? then env.key.value
                 else "autonomy:" + env.selection.value + ":" + source + ":" + epoch;
      result := Launch(env, source, epoch, key);
    }

    /** The intent of a new occurrence, and its execution. */
    method Launch(env: Env, source: string, epoch: string, key: string) returns (result: TickResult)
      requires Valid() && Free(ledger.rows, source, epoch)
      requires source == (if env.source.Some? then env.source.value else env.runId)
      requires epoch == (if env.epoch.Some? then env.epoch.value else env.day)
      requires env.key.Some? ==> key == env.key.value
      modifies this, ledger
      ensures exists found :: old(ledger.rows) <= found
                && LaunchedFrom(env, IntentOf(env, source, epoch, key), found, old(invoked), ledger.rows, invoked, result)
      ensures Valid()
      ensures Honest(ledger.rows, env, result)
      ensures Accounted(old(invoked), invoked, result)
    {
      hide Step, Safe, Free, Proven, Queued, Honest, ExistingResult, Replay, RecordsOf, Executed, Beginnable;
      Host(NOBODY, source, epoch);
      ghost var found := ledger.rows;
      var begun := BeginNew(env, source, epoch, key);
      if begun.Err? {
        NothingClaimed(ledger.rows, env, FailWith("effect_intent_error", None));
        assert LaunchedFrom(env, IntentOf(env, source, epoch, key), found, old(invoked), ledger.rows, invoked, FailWith("effect_intent_error", None));
        return FailWith("effect_intent_error", None);
      }
      var reconciled := ExistingResult(begun.value, env.consumeOk);
      IntentIsNotUnderWay(begun.value, env.consumeOk);
      if reconciled.Some? { assert false; }
      NotUnderWay(ledger.rows, begun.value, env.consumeOk);
      ghost var after := ledger.rows;
      result := Execute(env, begun.value.identity);
      assert found <= after && Executed(env, env.newEffectId, after, old(invoked), ledger.rows, invoked, result);
      assert LaunchedFrom(env, IntentOf(env, source, epoch, key), found, old(invoked), ledger.rows, invoked, result);
    }

    /** begin_intent for a free occurrence: it succeeds exactly when the key and the effect id are
        unused and the arguments valid, and then the intent is the one asked for. */
    method BeginNew(env: Env, source: string, epoch: string, key: string) returns (r: Outcome)
      requires Valid() && Free(ledger.rows, source, epoch)
      modifies ledger
      ensures Valid()
      ensures old(ledger.rows) <= ledger.rows
      ensures r.Ok? <==> Beginnable(old(ledger.rows), env, IntentOf(env, source, epoch, key))
      ensures r.Err? ==> ledger.rows == old(ledger.rows)
      ensures r.Ok? ==>
                && Replay(ledger.rows).Ok? && r.value.Id() in RecordsOf(ledger.rows)
                && RecordsOf(ledger.rows)[r.value.Id()] == r.value && SameOccurrence(r.value, source, epoch) && r.value.Key() == key
                && IsIntent(r.value, IntentOf(env, source, epoch, key), env.now + env.ttl)
    {
      hide Step, Safe, Decide, FoldRow, Replay, Occupied, Beginnable, Free;
      var identity := Identity(env.newEffectId, AUTONOMY, source, key, epoch, env.now, env.digest, env.length);
      FreeIsRespectful(ledger.rows, identity, env.now + env.ttl);
      StepKeepsSafe(ledger.rows, invoked, BeginCall(identity, env.now + env.ttl, 1));
      BegunIsRecorded(ledger.rows, identity, env.now + env.ttl);
      BeginsWhenFree(ledger.rows, env, identity);
      StepAppends(ledger.rows, BeginCall(identity, env.now + env.ttl, 1));
      r := ledger.Begin(identity, env.now + env.ttl, 1);
    }

    /** Mark pending, invoke the provider once, and record what came of it. */
    method Execute(env: Env, identity: Identity) returns (result: TickResult)
      requires Valid() && Startable(ledger.rows, identity) && Answers(env, identity)
      modifies this, ledger
      ensures Executed(env, identity.effectId, old(ledger.rows), old(invoked), ledger.rows, invoked, result)
      ensures Valid()
      ensures Honest(ledger.rows, env, result)
      ensures Accounted(old(invoked), invoked, result)
    {
      hide Step, Safe, Startable, Ours, Proven, Queued, Answers, Ready, Concluded;
      var id := identity.effectId;
      if !env.startedEventOk { return FailWith("started_event_error", Some(id)); }
      Host(identity, "", "");
      ghost var found := ledger.rows;
      StartIsCharged(ledger.rows, invoked, identity);
      StepKeepsSafe(ledger.rows, invoked, PendingCall(id));
      StartIsReady(ledger.rows, identity);
      StepAppends(found, PendingCall(id));
      var pending := ledger.MarkPending(id);
      if pending.Err? {
        FailQuietly(id, "effect_pending_error", false);
        assert ExecutedFrom(env, id, found, old(invoked), ledger.rows, invoked, FailWith("effect_pending_error", Some(id)));
        return FailWith("effect_pending_error", Some(id));
      }
      if env.crash.BeforeProvider? {
        assert ExecutedFrom(env, id, found, old(invoked), ledger.rows, invoked, CRASHED);
        return CRASHED;
      }
      invoked := invoked + [(id, pending.value.attempt)];
      if env.crash.AfterProvider? {
        assert ExecutedFrom(env, id, found, old(invoked), ledger.rows, invoked, CRASHED);
        return CRASHED;
      }
      Host(identity, "", "");
      ghost var back := ledger.rows;
      result := Conclude(env, identity);
      assert found <= back && Concluded(env, id, back, ledger.rows, result);
      assert ExecutedFrom(env, id, found, old(invoked), ledger.rows, invoked, result);
    }

    /** Record what came of the invocation. */
    method Conclude(env: Env, identity: Identity) returns (result: TickResult)
      requires Valid() && Ours(ledger.rows, identity) && Answers(env, identity)
      modifies ledger
      ensures Concluded(env, identity.effectId, old(ledger.rows), ledger.rows, result)
      ensures Valid()
      ensures Honest(ledger.rows, env, result)
      ensures result.effect == Some(identity.effectId)
      ensures match result.status
              case Completed => result.reason == "verified" && env.outcome.Receipted? && env.consumeOk
              case UnverifiedTick => env.outcome.NoReceipt?
              case FailedTick => true
              case _ => false
    {
      hide Step, Safe, Proven, Queued, Ours, Answers, Failing, Verifiable;
      var id := identity.effectId;
      match env.outcome {
        case Raises(name) =>
          FailQuietly(id, "provider_error:" + name, true);
          return FailWith("provider_error:" + name, Some(id));
        case BadEvidence(code) =>
          FailQuietly(id, code, false);
          return FailWith(code, Some(id));
        case NoReceipt =>
          StepKeepsSafe(ledger.rows, invoked, AcceptCall(id));
          AcceptedIsQueued(ledger.rows, env, identity);
          AcceptMoves(ledger.rows, id);
          var accepted := ledger.MarkQueueAccepted(id);
          if accepted.Err? { return FailWith("effect_queue_error", Some(id)); }
          return TickResult(UnverifiedTick, "awaiting_receipt", Some(id));
        case Receipted(receipt) =>
          result := Confirm(env, identity, receipt);
      }
    }

    /** Verify the delivery receipt; completion is claimed only afterwards. */
    method Confirm(env: Env, identity: Identity, receipt: Receipt) returns (result: TickResult)
      requires Valid() && Ours(ledger.rows, identity) && Answers(env, identity) && env.outcome == Receipted(receipt)
      modifies ledger
      ensures Concluded(env, identity.effectId, old(ledger.rows), ledger.rows, result)
      ensures Valid()
      ensures Honest(ledger.rows, env, result)
      ensures result.effect == Some(identity.effectId)
      ensures if result.status.Completed? then result.reason == "verified" && env.consumeOk else result.status.FailedTick?
    {
      hide Step, Safe, Proven, Queued, Ours, Answers, Failing, Verifiable;
      var id := identity.effectId;
      StepKeepsSafe(ledger.rows, invoked, VerifyCall(id, receipt));
      VerifiedIsProven(ledger.rows, env, identity, receipt);
      VerifyMoves(ledger.rows, id, receipt);
      var verified := ledger.Verify(id, receipt);
      if verified.Err? {
        FailQuietly(id, "receipt_mismatch", false);
        return FailWith("receipt_mismatch", Some(id));
      }
      if !env.consumeOk { return FailWith("control_consume_error", Some(id)); }
      return TickResult(Completed, "verified", Some(id));
    }
  }

  lemma FreeIsRespectful(rows: seq<Row>, identity: Identity, expiresAt: int)
    requires Free(rows, identity.sourceEventId, identity.epochId)
    ensures Replay(rows).Ok? ==> Respectful(Replay(rows).value, BeginCall(identity, expiresAt, 1))
  {
  }

  /** For a free occurrence a begin creates the intent or is refused; it never answers with an earlier
      effect. */
  lemma BeginsWhenFree(rows: seq<Row>, env: Env, identity: Identity)
    requires Free(rows, identity.sourceEventId, identity.epochId) && identity.kind == AUTONOMY
    requires identity.createdAt == env.now && identity.contentLength == env.length
    ensures var (r, after) := Step(rows, BeginCall(identity, env.now + env.ttl, 1));
            && (r.Ok? <==> Beginnable(rows, env, identity))
            && (r.Err? ==> after == rows)
            && (r.Ok? ==> IsIntent(r.value, identity, env.now + env.ttl))
  {
    hide Step;
    if Replay(rows).Ok? {
      Outcomes.BeginMeans(rows, identity, env.now + env.ttl, 1);
      assert forall id :: id in RecordsOf(rows) ==> !Outcomes.SameWork(RecordsOf(rows)[id], identity);
    } else {
      Outcomes.UnreadableRefuses(rows, BeginCall(identity, env.now + env.ttl, 1));
    }
  }

  lemma IntentIsNotUnderWay(r: Record, consumeOk: bool)
    requires r.state.Intent?
    ensures ExistingResult(r, consumeOk).None?
  {
  }

  lemma ExistingIsAnswered(r: Record, consumeOk: bool)
    ensures ExistingResult(r, consumeOk).None? <==> r.state in {Intent, Requeued}
    ensures ExistingResult(r, consumeOk).Some? ==> AnsweredFrom(r, consumeOk, ExistingResult(r, consumeOk).value)
  {
  }

  lemma FiledUnderId(rows: seq<Row>, id: string)
    requires Replay(rows).Ok? && id in RecordsOf(rows)
    ensures RecordsOf(rows)[id].Id() == id
  {
    ReplayCoherent(rows);
  }

  /** An overdue effect can be failed, or has ended. */
  ghost predicate Settleable(rows: seq<Row>, id: string) {
    Replay(rows).Ok? && id in RecordsOf(rows) && !RecordsOf(rows)[id].state.Expired?
  }

  lemma OverdueFails(rows: seq<Row>, id: string)
    requires Settleable(rows, id)
    ensures var (r, after) := Step(rows, FailCall(id, "effect_expired_unverified", false));
            r.Err? ==> after == rows && RecordsOf(rows)[id].state in {Verified, Failed}
  {
    hide Step;
    Outcomes.FailMeans(rows, id, "effect_expired_unverified", false);
  }

  /** What could not be settled is unreadable or expired by then. */
  lemma UnsettledEffect(start: seq<Row>, at: seq<Row>, id: string, now: int)
    requires Replay(start).Ok? && id in RecordsOf(start) && Overdue(RecordsOf(start)[id], now) && start <= at && !Settleable(at, id)
    ensures NotSettled(start, now)
  {
    if Replay(at).Ok? {
      assert at[..|start|] == start;
      IdentityFixedExpiryForward(at, |start|, id);
      assert Outcomes.InState(RecordsOf(at), id, {Expired});
    }
    assert Unsettled(start, at, now);
  }

  lemma StepAppends(rows: seq<Row>, call: Call)
    ensures rows <= Step(rows, call).1
    ensures Step(rows, call).0.Err? ==> Step(rows, call).1 == rows
  {
    hide Decide, Precheck, Replay;
  }

  lemma FailIsFailing(rows: seq<Row>, id: string, reason: string, retryable: bool)
    ensures Failing(rows, Step(rows, FailCall(id, reason, retryable)).1, id, reason, retryable)
  {
    hide Step;
    if Replay(rows).Ok? { Outcomes.FailMeans(rows, id, reason, retryable); }
    else { Outcomes.UnreadableRefuses(rows, FailCall(id, reason, retryable)); }
  }

  lemma StartIsReady(rows: seq<Row>, identity: Identity)
    requires Startable(rows, identity)
    ensures var (r, after) := Step(rows, PendingCall(identity.effectId));
            && (r.Ok? <==> Ready(rows, identity.effectId))
            && (r.Ok? ==> r.value.attempt == RecordsOf(rows)[identity.effectId].attempt)
  {
    hide Step;
    if Replay(rows).Ok? { Outcomes.PendingMeans(rows, identity.effectId); }
    else { Outcomes.UnreadableRefuses(rows, PendingCall(identity.effectId)); }
  }

  lemma AcceptMoves(rows: seq<Row>, id: string)
    ensures var (r, after) := Step(rows, AcceptCall(id));
            && (r.Ok? <==> Replay(rows).Ok? && Outcomes.InState(RecordsOf(rows), id, {Pending, ExecutedUnverified}))
            && (r.Ok? ==> Replay(after).Ok? && Outcomes.MovesTo(RecordsOf(rows), RecordsOf(after), id, ExecutedUnverified))
            && (r.Err? ==> after == rows)
  {
    hide Step;
    if Replay(rows).Ok? {
      Outcomes.AcceptMeans(rows, id);
      WriterReplayAgreement(rows, AcceptCall(id));
    } else { Outcomes.UnreadableRefuses(rows, AcceptCall(id)); }
  }

  lemma VerifyMoves(rows: seq<Row>, id: string, receipt: Receipt)
    ensures var (r, after) := Step(rows, VerifyCall(id, receipt));
            && (r.Ok? <==> Verifiable(rows, id, receipt))
            && (r.Ok? ==> Replay(after).Ok? && Outcomes.MovesTo(RecordsOf(rows), RecordsOf(after), id, Verified)
                          && RecordsOf(after)[id].receipt == Some(receipt))
            && (r.Err? ==> after == rows)
  {
    hide Step;
    if Replay(rows).Ok? {
      Outcomes.VerifyMeans(rows, id, receipt);
      WriterReplayAgreement(rows, VerifyCall(id, receipt));
    } else { Outcomes.UnreadableRefuses(rows, VerifyCall(id, receipt)); }
  }

  /** Stands for no effect where none is tracked. */
  const NOBODY := Identity("", "", "", "", "", 0, "", 0)

  lemma OnlyEffect(records: Records, source: string, epoch: string, id: string)
    requires !Ambiguous(records, source, epoch) && id in records && SameOccurrence(records[id], source, epoch)
    ensures forall x :: x in records && SameOccurrence(records[x], source, epoch) ==> x == id
  {
  }

  /** An answer that claims nothing about the ledger. */
  lemma NothingClaimed(rows: seq<Row>, env: Env, result: TickResult)
    requires !result.status.Completed? && !result.status.UnverifiedTick?
    ensures Honest(rows, env, result)
  {
  }

  /** The answer for an effect under way claims only what the ledger holds, and invoked nothing. */
  lemma KnownIsHonest(rows: seq<Row>, env: Env, r: Record)
    requires Replay(rows).Ok? && r.Id() in RecordsOf(rows) && RecordsOf(rows)[r.Id()] == r && Answers(env, r.identity)
    requires ExistingResult(r, env.consumeOk).Some?
    ensures Honest(rows, env, ExistingResult(r, env.consumeOk).value)
    ensures forall invoked :: Accounted(invoked, invoked, ExistingResult(r, env.consumeOk).value)
  {
    hide Answers;
    ReplayCoherent(rows);
  }

  lemma NotUnderWay(rows: seq<Row>, r: Record, consumeOk: bool)
    requires Replay(rows).Ok? && r.Id() in RecordsOf(rows) && RecordsOf(rows)[r.Id()] == r && r.identity.kind == AUTONOMY
    requires ExistingResult(r, consumeOk).None?
    ensures Startable(rows, r.identity)
  {
  }

  /** A successful fail leaves the effect in a final state. */
  lemma FailedIsEnded(rows: seq<Row>, id: string)
    ensures var (r, after) := Step(rows, FailCall(id, "effect_expired_unverified", false)); r.Ok? ==> Ended(after, id)
  {
    hide FoldRow;
    var call := FailCall(id, "effect_expired_unverified", false);
    if Replay(rows).Ok? {
      ReplayCoherent(rows);
      WriterReplayAgreement(rows, call);
    }
  }

  /** What begin returns is in the ledger afterwards, for the occurrence and key that were asked
      for, whether it was begun now or before. */
  lemma BegunIsRecorded(rows: seq<Row>, identity: Identity, expiresAt: int)
    ensures var (r, after) := Step(rows, BeginCall(identity, expiresAt, 1));
            r.Ok? ==>
              && Replay(after).Ok? && r.value.Id() in RecordsOf(after) && RecordsOf(after)[r.value.Id()] == r.value
              && r.value.identity.kind == identity.kind && r.value.identity.sourceEventId == identity.sourceEventId
              && r.value.identity.epochId == identity.epochId && r.value.Key() == identity.idempotencyKey
  {
    if Replay(rows).Ok? {
      ReplayCoherent(rows);
      WriterReplayAgreement(rows, BeginCall(identity, expiresAt, 1));
    }
  }

  /** An accepted effect waits in the ledger for its receipt. */
  lemma AcceptedIsQueued(rows: seq<Row>, env: Env, identity: Identity)
    requires Ours(rows, identity) && Answers(env, identity)
    ensures var (r, after) := Step(rows, AcceptCall(identity.effectId)); r.Ok? ==> Queued(after, env, Some(identity.effectId))
  {
    hide Answers;
    if Replay(rows).Ok? {
      ReplayCoherent(rows);
      WriterReplayAgreement(rows, AcceptCall(identity.effectId));
    }
  }

  /** A successful verify leaves matching, receipt-backed proof in the ledger. */
  lemma VerifiedIsProven(rows: seq<Row>, env: Env, identity: Identity, receipt: Receipt)
    requires Ours(rows, identity) && Answers(env, identity)
    ensures var (r, after) := Step(rows, VerifyCall(identity.effectId, receipt)); r.Ok? ==> Proven(after, env, Some(identity.effectId))
  {
    hide Answers;
    var call := VerifyCall(identity.effectId, receipt);
    if Replay(rows).Ok? {
      ReplayCoherent(rows);
      WriterReplayAgreement(rows, call);
      var after := Step(rows, call).1;
      if Replay(after).Ok? { ReplayCoherent(after); }
    }
  }
}
