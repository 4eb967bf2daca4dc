/** How a tick finds the effect its occurrence already has, and when it must stop instead
    (moonbite_plugin/_autonomy/execution.py:79-162, recovery.py:106-200, 339-486). */
module AutonomySearch {
  import opened Basics
  import opened EffectModel
  import opened AutonomySafety

  datatype Status = Skipped | FailedTick | Completed | AwaitingReconciliation | UnverifiedTick | Crashed

  datatype TickResult = TickResult(status: Status, reason: string, effect: Option<string>)

  /** What the audit proves about the public identity of an effect. */
  datatype AuditIdentity = Unknown | Implicit | Explicit

  /** The canonical terminal audit of an occurrence, if one was recorded. */
  datatype TerminalAudit = NoAudit | AuditConflict | Audited(terminal: string, status: Status, hasEffect: bool)

  /** Where the process stops for good, if it does, around the provider call. */
  datatype CrashPoint = NoCrash | BeforeProvider | AfterProvider

  datatype ProviderOutcome = Raises(name: string) | BadEvidence(code: string) | NoReceipt | Receipted(receipt: Receipt)

  /** Everything one tick learns from outside the effect ledger. */
  datatype Env = Env(
    source: Option<string>, epoch: Option<string>, key: Option<string>,
    runId: string, now: int, day: string,
    gateAllowed: bool, activeChat: bool, intentEligible: bool,
    selection: Option<string>, registered: bool, digest: string, length: int, ttl: int, newEffectId: string,
    startedEventOk: bool, crash: CrashPoint, outcome: ProviderOutcome, consumeOk: bool,
    auditIdentity: string -> AuditIdentity,
    terminalAudit: TerminalAudit,
    dateEpoch: int -> string,
    providerOf: string -> Option<string>)

  function Skip(reason: string): TickResult { TickResult(Skipped, reason, None) }
  function FailWith(reason: string, effect: Option<string>): TickResult { TickResult(FailedTick, reason, effect) }
  function Await(reason: string, effect: Option<string>): TickResult { TickResult(AwaitingReconciliation, reason, effect) }

  type Records = map<string, Record>

  predicate OfSource(r: Record, source: string) { r.identity.kind == AUTONOMY && r.identity.sourceEventId == source }

  predicate SameOccurrence(r: Record, source: string, epoch: string) { OfSource(r, source) && r.identity.epochId == epoch }

  // ---- an explicit occurrence ----------------------------------------------------------

  /** Two effects claim the occurrence. */
  ghost predicate Ambiguous(records: Records, source: string, epoch: string) {
    exists a, b :: a in records && b in records && a != b
                   && SameOccurrence(records[a], source, epoch) && SameOccurrence(records[b], source, epoch)
  }

  /** find_by_occurrence over a replayed ledger. */
  method FindByOccurrence(records: Records, source: string, epoch: string) returns (found: Option<Record>, conflict: bool)
    requires forall id <- records :: records[id].Id() == id
    ensures conflict <==> Ambiguous(records, source, epoch)
    ensures !conflict && found.Some? ==>
              found.value.Id() in records && records[found.value.Id()] == found.value && SameOccurrence(found.value, source, epoch)
    ensures !conflict ==> (found.Some? <==> Occupied(records, source, epoch))
  {
    found, conflict := None, false;
    var todo := records.Keys;
    while todo != {}
      invariant todo <= records.Keys
      invariant forall id <- records.Keys - todo :: SameOccurrence(records[id], source, epoch) ==>
        found.Some? && found.value.Id() == id
      invariant found.Some? ==>
        found.value.Id() in records.Keys - todo && records[found.value.Id()] == found.value && SameOccurrence(found.value, source, epoch)
    {
      var id :| id in todo;
      todo := todo - {id};
      if SameOccurrence(records[id], source, epoch) {
        if found.Some? {
          assert found.value.Id() != id && SameOccurrence(records[found.value.Id()], source, epoch);
          return found, true;
        }
        found := Some(records[id]);
      }
    }
    if found.Some? { assert SameOccurrence(records[found.value.Id()], source, epoch); }
  }

  // ---- an occurrence without a public epoch --------------------------------------------

  type Audit = string -> AuditIdentity

  /** An effect of the source whose public identity the audit leaves open. */
  predicate LeftOpen(records: Records, id: string, source: string, epoch: string, audit: Audit) {
    && id in records && OfSource(records[id], source)
    && (audit(id).Unknown? || (audit(id).Explicit? && records[id].identity.epochId == epoch))
  }

  predicate ProvenImplicit(records: Records, id: string, source: string, audit: Audit) {
    id in records && OfSource(records[id], source) && audit(id).Implicit?
  }

  ghost predicate Unproven(records: Records, source: string, epoch: string, audit: Audit) {
    exists id :: LeftOpen(records, id, source, epoch, audit)
  }

  ghost predicate ManyImplicit(records: Records, source: string, audit: Audit) {
    exists a, b :: a != b && ProvenImplicit(records, a, source, audit) && ProvenImplicit(records, b, source, audit)
  }

  /** find_implicit_occurrence: an effect without proof of its public identity blocks the search,
      two proven ones are a conflict, explicit effects of other epochs are skipped. */
  method FindImplicit(records: Records, source: string, requestedEpoch: string, audit: Audit)
      returns (found: Option<Record>, unproven: bool, conflict: bool)
    requires forall id <- records :: records[id].Id() == id
    ensures unproven <==> Unproven(records, source, requestedEpoch, audit)
    ensures conflict <==> ManyImplicit(records, source, audit)
    ensures found.Some? ==> ProvenImplicit(records, found.value.Id(), source, audit) && records[found.value.Id()] == found.value
    ensures found.None? ==> forall id :: !ProvenImplicit(records, id, source, audit)
    ensures !unproven && !conflict && found.None? ==> !Occupied(records, source, requestedEpoch)
  {
    found, unproven, conflict := None, false, false;
    var todo := records.Keys;
    while todo != {}
      invariant todo <= records.Keys
      invariant unproven <==> exists id :: id in records.Keys - todo && LeftOpen(records, id, source, requestedEpoch, audit)
      invariant found.None? ==> forall id <- records.Keys - todo :: !ProvenImplicit(records, id, source, audit)
      invariant found.Some? ==>
        && found.value.Id() in records.Keys - todo && records[found.value.Id()] == found.value
        && ProvenImplicit(records, found.value.Id(), source, audit)
      invariant !conflict && found.Some? ==>
        forall id <- records.Keys - todo :: ProvenImplicit(records, id, source, audit) ==> id == found.value.Id()
      invariant conflict ==> found.Some? && ManyImplicit(records, source, audit)
    {
      var id :| id in todo;
      todo := todo - {id};
      var r := records[id];
      if OfSource(r, source) {
        match audit(id)
        case Unknown =>
          assert LeftOpen(records, id, source, requestedEpoch, audit);
          unproven := true;
        case Implicit =>
          assert ProvenImplicit(records, id, source, audit);
          if found.Some? {
            assert found.value.Id() != id;
            conflict := true;
          }
          found := Some(r);
        case Explicit =>
          if r.identity.epochId == requestedEpoch {
            assert LeftOpen(records, id, source, requestedEpoch, audit);
            unproven := true;
          }
      }
    }
    if !unproven && !conflict && found.None? {
      forall id | id in records ensures !SameOccurrence(records[id], source, requestedEpoch) {
        assert !LeftOpen(records, id, source, requestedEpoch, audit) && !ProvenImplicit(records, id, source, audit);
      }
    }
  }

  // ---- when the search stops -----------------------------------------------------------

  ghost predicate KeyUsed(records: Records, key: string) { exists id :: id in records && records[id].Key() == key }

  /** The answers that end a search before it has found anything. */
  ghost function SearchStop(records: Records, env: Env): Option<TickResult> {
    if (env.key.Some? && KeyUsed(records, env.key.value)) || env.source.None? then None
    else if env.epoch.Some? then
      if Ambiguous(records, env.source.value, env.epoch.value) then Some(FailWith("occurrence_conflict", None)) else None
    else if Unproven(records, env.source.value, env.day, env.auditIdentity) then
      Some(Await("implicit_identity_unavailable", None))
    else if ManyImplicit(records, env.source.value, env.auditIdentity) then Some(FailWith("occurrence_conflict", None))
    else None
  }

  /** The answers a found effect gives rise to: it contradicts the request, or the audit does not
      prove that it is the one requested. */
  function RecordStop(r: Record, env: Env): Option<TickResult> {
    if r.identity.kind != AUTONOMY
       || (env.source.Some? && env.source.value != r.identity.sourceEventId)
       || (env.epoch.Some? && env.epoch.value != r.identity.epochId)
    then Some(FailWith("occurrence_conflict", None))
    else if env.key.Some? && env.epoch.None? && !env.auditIdentity(r.Id()).Implicit? then
      Some(Await("implicit_identity_unavailable", None))
    else if env.epoch.Some? && env.dateEpoch(r.identity.createdAt) == r.identity.epochId && !env.auditIdentity(r.Id()).Explicit?
    then Some(Await("implicit_identity_unavailable", None))
    else None
  }

  /** The identity is one the request asks for: its source and epoch, if it names them; without a
      source, its key; without either, this run. */
  predicate Answers(env: Env, identity: Identity) {
    && identity.kind == AUTONOMY
    && (env.source.Some? ==> identity.sourceEventId == env.source.value)
    && (env.epoch.Some? ==> identity.epochId == env.epoch.value)
    && (env.source.None? && env.key.Some? ==> identity.idempotencyKey == env.key.value)
    && (env.source.None? && env.key.None? ==> identity.sourceEventId == env.runId)
  }

  // ---- a recorded terminal -------------------------------------------------------------

  /** The terminal an audit must carry to agree with a settled effect. */
  function EffectTerminal(r: Record): Option<string> {
    match r.state
    case Verified => Some("verified")
    case Failed => Some(if r.reason == Some("effect_expired_unverified") then "expired" else "failed")
    case _ => None
  }

  ghost predicate SettledAs(records: Records, source: string, epoch: string, terminal: string) {
    exists id :: id in records && SameOccurrence(records[id], source, epoch) && EndedAs(records[id], terminal)
  }

  /** The three ways an effect ends, and what each is called. */
  predicate EndedAs(r: Record, terminal: string) {
    || (terminal == "verified" && r.state.Verified?)
    || (terminal == "expired" && r.state.Failed? && r.reason == Some("effect_expired_unverified"))
    || (terminal == "failed" && r.state.Failed? && r.reason != Some("effect_expired_unverified"))
  }

  const TERMINAL_INTEGRITY := FailWith("terminal_integrity_error", None)

  /** existing_terminal_result: an audit that agrees with the ledger gives way to it, one without
      an effect is replayed as the skip or failure it records, and every other is refused. */
  ghost function TerminalAnswer(audit: TerminalAudit, replayed: Result<Fold, ReplayError>, source: string, epoch: string): Option<TickResult> {
    match audit
    case NoAudit => None
    case AuditConflict => Some(TERMINAL_INTEGRITY)
    case Audited(terminal, status, hasEffect) =>
      if replayed.Err? || Ambiguous(replayed.value.records, source, epoch) then Some(TERMINAL_INTEGRITY)
      else if Occupied(replayed.value.records, source, epoch) then
        if SettledAs(replayed.value.records, source, epoch, terminal) then None else Some(TERMINAL_INTEGRITY)
      else if hasEffect || !(status.Skipped? || status.FailedTick?) then Some(TERMINAL_INTEGRITY)
      else Some(TickResult(status, terminal, None))
  }
}
