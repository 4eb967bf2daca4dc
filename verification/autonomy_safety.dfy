/** The safety argument behind an autonomy tick: provider invocations never outnumber the
    mark-pending rows of an attempt, and one occurrence owns at most one effect
    (moonbite_plugin/_autonomy/execution.py, recovery.py). */
module AutonomySafety {
  import opened Basics
  import opened EffectModel
  import opened EffectHistory
  import opened EffectLedgers

  const AUTONOMY := "autonomy_completion"

  type Invocation = (string, int)

  function CountInvoked(invoked: seq<Invocation>, id: string, attempt: int): nat {
    if invoked == [] then 0
    else CountInvoked(Front(invoked), id, attempt) + (if Last(invoked) == (id, attempt) then 1 else 0)
  }

  /** The part of a ledger the strict replay accepts: all of it, or all but a final requeue
      row the writer should not have appended. */
  ghost predicate NearlyAccepted(rows: seq<Row>) {
    || Replay(rows).Ok?
    || (rows != [] && Replay(Front(rows)).Ok? && Last(rows).Entry? && Last(rows).operation.Requeue?)
  }

  ghost predicate InvocationsCovered(rows: seq<Row>, invoked: seq<Invocation>) {
    forall id, attempt :: CountInvoked(invoked, id, attempt) <= CountPending(rows, id, attempt)
  }

  /** One autonomy effect per occurrence (source event, epoch). */
  predicate OneEffectPerOccurrence(records: map<string, Record>) {
    forall a, b | a in records && b in records
                  && records[a].identity.kind == AUTONOMY && records[b].identity.kind == AUTONOMY
                  && records[a].identity.sourceEventId == records[b].identity.sourceEventId
                  && records[a].identity.epochId == records[b].identity.epochId :: a == b
  }

  ghost predicate Safe(rows: seq<Row>, invoked: seq<Invocation>) {
    && NearlyAccepted(rows)
    && InvocationsCovered(rows, invoked)
    && (Replay(rows).Ok? ==> OneEffectPerOccurrence(RecordsOf(rows)))
  }

  /** At most one provider invocation per effect and attempt. */
  lemma AtMostOneInvocation(rows: seq<Row>, invoked: seq<Invocation>, id: string, attempt: int)
    requires Safe(rows, invoked)
    ensures CountInvoked(invoked, id, attempt) <= 1
  {
    if Replay(rows).Ok? {
      PendingOncePerAttempt(rows, id, attempt);
    } else {
      PendingOncePerAttempt(Front(rows), id, attempt);
    }
  }

  /** And since an occurrence owns one effect, at most one per occurrence and attempt. */
  lemma AtMostOneInvocationPerOccurrence(rows: seq<Row>, invoked: seq<Invocation>, a: string, b: string, attempt: int)
    requires Safe(rows, invoked) && Replay(rows).Ok? && a in RecordsOf(rows) && b in RecordsOf(rows)
    requires RecordsOf(rows)[a].identity.kind == RecordsOf(rows)[b].identity.kind == AUTONOMY
    requires RecordsOf(rows)[a].identity.sourceEventId == RecordsOf(rows)[b].identity.sourceEventId
    requires RecordsOf(rows)[a].identity.epochId == RecordsOf(rows)[b].identity.epochId
    ensures CountInvoked(invoked, a, attempt) + (if a == b then 0 else CountInvoked(invoked, b, attempt)) <= 1
  {
    AtMostOneInvocation(rows, invoked, a, attempt);
  }

  predicate Occupied(records: map<string, Record>, source: string, epoch: string) {
    exists id :: id in records && records[id].identity.kind == AUTONOMY
                 && records[id].identity.sourceEventId == source && records[id].identity.epochId == epoch
  }

  /** A call by anyone, against a readable ledger: what it must respect for safety. New
      autonomy effects only for free occurrences. */
  predicate Respectful(f: Fold, call: Call) {
    call.BeginCall? && call.identity.kind == AUTONOMY ==>
      !Occupied(f.records, call.identity.sourceEventId, call.identity.epochId)
  }

  lemma CountGrows(rows: seq<Row>, row: Row, id: string, attempt: int)
    ensures CountPending(rows + [row], id, attempt) ==
            CountPending(rows, id, attempt) +
            (if Touches(row, id) && row.operation.MarkPending? && row.fields.attempt == attempt then 1 else 0)
  {
    FrontOfAppend(rows, row);
  }

  /** The facts about one decision that safety needs. */
  lemma DecisionFacts(f: Fold, call: Call)
    requires Coherent(f) && Decide(f, call).Append?
    ensures var d := Decide(f, call);
            && (d.record.Id() in f.records ==> f.records[d.record.Id()].identity == d.record.identity)
            && (d.record.Id() !in f.records ==> call.BeginCall? && d.record.identity == call.identity)
            && (d.operation.MarkPending? <==> call.PendingCall?)
            && (d.operation.Requeue? <==> call.RequeueCall?)
            && (d.record.state.Pending? <==> call.PendingCall?)
            && (!call.BeginCall? ==> d.record.Id() == call.id)
            && (call.BeginCall? ==> d.record.Id() == call.identity.effectId)
            && (call.PendingCall? ==> d.record.attempt == f.records[call.id].attempt)
  {
    if !call.BeginCall? {
      assert f.records[call.id].Id() == call.id;
    }
  }

  /** No ledger call, however it is interleaved, breaks safety. */
  lemma StepKeepsSafe(rows: seq<Row>, invoked: seq<Invocation>, call: Call)
    requires Safe(rows, invoked)
    requires Replay(rows).Ok? ==> Respectful(Replay(rows).value, call)
    ensures Safe(Step(rows, call).1, invoked)
  {
    hide Decide, FoldRow;
    var after := Step(rows, call).1;
    if after != rows {
      var f := Replay(rows).value;
      ReplayCoherent(rows);
      WriterReplayAgreement(rows, call);
      DecisionFacts(f, call);
      var row := Entry(Decide(f, call).operation, Decide(f, call).record);
      FrontOfAppend(rows, row);
      forall id, attempt ensures CountInvoked(invoked, id, attempt) <= CountPending(after, id, attempt) {
        CountGrows(rows, row, id, attempt);
      }
    }
  }

  /** The effect is known under this identity, and is an autonomy effect. */
  ghost predicate Ours(rows: seq<Row>, identity: Identity) {
    Replay(rows).Ok? ==>
      && identity.effectId in RecordsOf(rows) && RecordsOf(rows)[identity.effectId].identity == identity
      && identity.kind == AUTONOMY
  }

  /** It is also not pending. */
  ghost predicate Startable(rows: seq<Row>, identity: Identity) {
    Ours(rows, identity) && (Replay(rows).Ok? ==> !RecordsOf(rows)[identity.effectId].state.Pending?)
  }

  /** The occurrence has no effect yet. */
  ghost predicate Free(rows: seq<Row>, source: string, epoch: string) {
    Replay(rows).Ok? ==> !Occupied(RecordsOf(rows), source, epoch)
  }

  /** The effect has reached one of the two final states. */
  ghost predicate Ended(rows: seq<Row>, id: string) {
    Replay(rows).Ok? ==> id in RecordsOf(rows) && RecordsOf(rows)[id].state in {Verified, Failed}
  }

  /** What the host and other components may do while a tick runs: anything except begin or
      start autonomy effects, which only the locked tick does. */
  predicate HostMay(f: Fold, call: Call) {
    && (call.BeginCall? ==> call.identity.kind != AUTONOMY)
    && (call.PendingCall? && call.id in f.records ==> f.records[call.id].identity.kind != AUTONOMY)
  }

  lemma HostStepKeeps(rows: seq<Row>, call: Call, identity: Identity, source: string, epoch: string)
    requires Replay(rows).Ok? ==> HostMay(Replay(rows).value, call)
    ensures Startable(rows, identity) ==> Startable(Step(rows, call).1, identity)
    ensures Ours(rows, identity) ==> Ours(Step(rows, call).1, identity)
    ensures Free(rows, source, epoch) ==> Free(Step(rows, call).1, source, epoch)
  {
    hide Decide, FoldRow;
    var after := Step(rows, call).1;
    if Replay(rows).Ok? && after != rows {
      ReplayCoherent(rows);
      WriterReplayAgreement(rows, call);
      DecisionFacts(Replay(rows).value, call);
    }
  }

  /** No call takes an effect out of a final state. */
  lemma StepKeepsEnded(rows: seq<Row>, call: Call, id: string)
    requires Ended(rows, id)
    ensures Ended(Step(rows, call).1, id)
  {
    hide Decide, FoldRow;
    var after := Step(rows, call).1;
    if Replay(rows).Ok? && after != rows && Replay(after).Ok? {
      WriterReplayAgreement(rows, call);
      assert after[..|rows|] == rows;
      TerminalIsFinal(after, |rows|, id);
    }
  }

  /** Verified records stay verified, with the same receipt, whatever happens next. */
  lemma VerifiedStays(rows: seq<Row>, call: Call, id: string)
    requires Replay(rows).Ok? && id in RecordsOf(rows) && RecordsOf(rows)[id].state.Verified?
    requires Replay(Step(rows, call).1).Ok?
    ensures id in RecordsOf(Step(rows, call).1) && RecordsOf(Step(rows, call).1)[id] == RecordsOf(rows)[id]
  {
    hide Decide, FoldRow;
    var after := Step(rows, call).1;
    WriterReplayAgreement(rows, call);
    if after != rows {
      assert after[..|rows|] == rows;
      TerminalIsFinal(after, |rows|, id);
    }
  }

  /** Starting an attempt: the step that a provider invocation follows. It either fails, or
      appends the one mark-pending row the invocation will be charged to. */
  lemma StartIsCharged(rows: seq<Row>, invoked: seq<Invocation>, identity: Identity)
    requires Safe(rows, invoked) && Startable(rows, identity)
    ensures var (r, after) := Step(rows, PendingCall(identity.effectId));
            r.Ok? ==>
              && r.value.identity == identity && Replay(after).Ok? && Ours(after, identity)
              && Safe(after, invoked + [(identity.effectId, r.value.attempt)])
  {
    var id := identity.effectId;
    StepKeepsSafe(rows, invoked, PendingCall(id));
    var (r, after) := Step(rows, PendingCall(id));
    if r.Ok? {
      ReplayCoherent(rows);
      assert RecordsOf(rows)[id].Id() == id;
      WriterReplayAgreement(rows, PendingCall(id));
      var row := Last(after);
      FrontOfAppend(rows, row);
      var charged := invoked + [(id, r.value.attempt)];
      FrontOfAppend(invoked, (id, r.value.attempt));
      forall x, attempt ensures CountInvoked(charged, x, attempt) <= CountPending(after, x, attempt) {
        assert CountInvoked(invoked, x, attempt) <= CountPending(rows, x, attempt);
        CountGrows(rows, row, x, attempt);
      }
    }
  }
}
