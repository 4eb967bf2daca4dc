/** What one completed call of the effect ledger does, stated on the records replayed before and
    after it, and the converse: every ledger the replay accepts is one such calls can write
    (moonbite_plugin/effects.py:811-845, 1074-1274, 1402-1446). */
module EffectOutcomes {
  import opened Basics
  import opened EffectModel
  import opened EffectHistory
  import opened EffectLedgers

  type Records = map<string, Record>

  /** Only this effect changes, and it keeps its identity. */
  ghost predicate ChangesOnly(before: Records, after: Records, id: string) {
    && id in before && after.Keys == before.Keys && after[id].identity == before[id].identity
    && forall x <- before :: x != id ==> after[x] == before[x]
  }

  /** It also keeps its attempt and expiry. */
  ghost predicate MovesTo(before: Records, after: Records, id: string, state: State) {
    && ChangesOnly(before, after, id) && after[id].state == state
    && after[id].attempt == before[id].attempt && after[id].expiresAt == before[id].expiresAt
  }

  predicate Plain(r: Record) { r.reason.None? && r.retryable.None? && r.receipt.None? && r.observedAt.None? }

  /** The call answers with the effect's current record, and leaves a readable ledger. */
  ghost predicate AnswersWith(r: Outcome, rows: seq<Row>, id: string) {
    Replay(rows).Ok? && id in RecordsOf(rows) && r == Ok(RecordsOf(rows)[id])
  }

  predicate InState(records: Records, id: string, states: set<State>) { id in records && records[id].state in states }

  /** The refusal of a call that does not fit the effect's state. */
  function NotNow(records: Records, id: string): LedgerError {
    if id in records then WrongState(records[id].state) else NoSuchEffect
  }

  lemma PendingMeans(rows: seq<Row>, id: string)
    requires Replay(rows).Ok?
    ensures var before, (r, rows') := RecordsOf(rows), Step(rows, PendingCall(id));
            && (r.Ok? <==> InState(before, id, {Intent, Requeued, Pending}))
            && (r.Ok? ==> AnswersWith(r, rows', id) && MovesTo(before, RecordsOf(rows'), id, Pending) && Plain(r.value))
            && (rows' == rows <==> !InState(before, id, {Intent, Requeued}))
            && (r.Err? ==> r.error == NotNow(before, id))
  {
    hide FoldRow;
    ReplayCoherent(rows);
    WriterReplayAgreement(rows, PendingCall(id));
  }

  lemma AcceptMeans(rows: seq<Row>, id: string)
    requires Replay(rows).Ok?
    ensures var before, (r, rows') := RecordsOf(rows), Step(rows, AcceptCall(id));
            && (r.Ok? <==> InState(before, id, {Pending, ExecutedUnverified}))
            && (r.Ok? ==> AnswersWith(r, rows', id) && MovesTo(before, RecordsOf(rows'), id, ExecutedUnverified) && Plain(r.value))
            && (rows' == rows <==> !InState(before, id, {Pending}))
            && (r.Err? ==> r.error == NotNow(before, id))
  {
    hide FoldRow;
    ReplayCoherent(rows);
    WriterReplayAgreement(rows, AcceptCall(id));
  }

  /** The receipt is one for this effect: for its source event, content and epoch. */
  predicate ReceiptFor(r: Record, receipt: Receipt) {
    && receipt.eventId == r.identity.sourceEventId && receipt.epochId == r.identity.epochId
    && receipt.contentSha256 == r.identity.contentSha256 && receipt.contentLength == r.identity.contentLength
  }

  lemma VerifyMeans(rows: seq<Row>, id: string, receipt: Receipt)
    requires Replay(rows).Ok?
    ensures var before, (r, rows') := RecordsOf(rows), Step(rows, VerifyCall(id, receipt));
            var again := InState(before, id, {Verified}) && before[id].receipt == Some(receipt);
            var first := InState(before, id, {Pending, ExecutedUnverified}) && ReceiptFor(before[id], receipt);
            && (r.Ok? <==> first || again)
            && (r.Ok? ==>
                  && AnswersWith(r, rows', id) && MovesTo(before, RecordsOf(rows'), id, Verified)
                  && r.value.receipt == Some(receipt) && r.value.observedAt == Some(receipt.observedAt)
                  && r.value.reason.None? && r.value.retryable.None?)
            && (rows' == rows <==> !first)
            && (r.Err? && InState(before, id, {Verified}) ==> r.error == ConflictingReplay)
            && (r.Err? && InState(before, id, {Pending, ExecutedUnverified}) ==> r.error == ReceiptMismatch)
            && (r.Err? && !InState(before, id, {Verified, Pending, ExecutedUnverified}) ==> r.error == NotNow(before, id))
  {
    hide FoldRow;
    ReplayCoherent(rows);
    WriterReplayAgreement(rows, VerifyCall(id, receipt));
  }

  lemma FailMeans(rows: seq<Row>, id: string, reason: string, retryable: bool)
    requires Replay(rows).Ok?
    ensures var before, (r, rows') := RecordsOf(rows), Step(rows, FailCall(id, reason, retryable));
            var again := InState(before, id, {Failed}) && before[id].reason == Some(reason) && before[id].retryable == Some(retryable);
            var first := InState(before, id, {Intent, Requeued, Pending, ExecutedUnverified});
            && (r.Ok? <==> first || again)
            && (r.Ok? ==>
                  && AnswersWith(r, rows', id) && MovesTo(before, RecordsOf(rows'), id, Failed)
                  && r.value.reason == Some(reason) && r.value.retryable == Some(retryable)
                  && r.value.receipt.None? && r.value.observedAt.None?)
            && (rows' == rows <==> !first)
            && (r.Err? ==> r.error == if InState(before, id, {Failed}) then ConflictingReplay else NotNow(before, id))
  {
    hide FoldRow;
    ReplayCoherent(rows);
    WriterReplayAgreement(rows, FailCall(id, reason, retryable));
  }

  lemma ExpireMeans(rows: seq<Row>, id: string, now: int)
    requires Replay(rows).Ok?
    ensures var before, (r, rows') := RecordsOf(rows), Step(rows, ExpireCall(id, now));
            && (r.Ok? <==> InState(before, id, {Pending, ExecutedUnverified}) && before[id].expiresAt < now)
            && (r.Ok? ==>
                  && AnswersWith(r, rows', id) && MovesTo(before, RecordsOf(rows'), id, Expired)
                  && r.value.reason == Some("expired") && r.value.retryable == Some(true)
                  && r.value.receipt.None? && r.value.observedAt.None?)
            && (rows' == rows <==> r.Err?)
            && (r.Err? && InState(before, id, {Pending, ExecutedUnverified}) ==> r.error == NotExpired)
            && (r.Err? && !InState(before, id, {Pending, ExecutedUnverified}) ==> r.error == NotNow(before, id))
  {
    hide FoldRow;
    ReplayCoherent(rows);
    WriterReplayAgreement(rows, ExpireCall(id, now));
  }

  /** What the caller says about the effect, as far as it says anything, is true. */
  predicate SameEffect(identity: Identity, key: Option<string>, source: Option<string>, epoch: Option<string>) {
    && key in {None, Some(identity.idempotencyKey)} && source in {None, Some(identity.sourceEventId)}
    && epoch in {None, Some(identity.epochId)}
  }

  /** A requeue that succeeds starts the next attempt, until the new expiry. If that expiry is not
      later than the old one, the row is written all the same and the ledger is unreadable. */
  lemma RequeueMeans(rows: seq<Row>, id: string, clock: int, newExpiry: int,
                     key: Option<string>, source: Option<string>, epoch: Option<string>)
    requires Replay(rows).Ok?
    ensures var before, (r, rows') := RecordsOf(rows), Step(rows, RequeueCall(id, clock, newExpiry, key, source, epoch));
            && (r.Ok? <==>
                  && clock < newExpiry && InState(before, id, {Expired}) && before[id].identity.createdAt < newExpiry
                  && SameEffect(before[id].identity, key, source, epoch))
            && (r.Ok? ==>
                  && r.value.identity == before[id].identity && r.value.state.Requeued? && Plain(r.value)
                  && r.value.attempt == before[id].attempt + 1 && r.value.expiresAt == newExpiry
                  && (Replay(rows').Ok? <==> before[id].expiresAt < newExpiry)
                  && (Replay(rows').Ok? ==> AnswersWith(r, rows', id) && ChangesOnly(before, RecordsOf(rows'), id)))
            && (rows' == rows <==> r.Err?)
            && (newExpiry <= clock ==> r == Err(ExpiryNotFuture))
            && (clock < newExpiry && !InState(before, id, {Expired}) ==> r == Err(NotNow(before, id)))
            && (clock < newExpiry && InState(before, id, {Expired}) && !SameEffect(before[id].identity, key, source, epoch) ==>
                  r == Err(IdentityMismatch))
            && (r == Err(InvalidArgument) <==>
                  && clock < newExpiry && InState(before, id, {Expired}) && newExpiry <= before[id].identity.createdAt
                  && SameEffect(before[id].identity, key, source, epoch))
  {
    hide FoldRow;
    ReplayCoherent(rows);
    WriterReplayAgreement(rows, RequeueCall(id, clock, newExpiry, key, source, epoch));
  }

  /** Some effect already carries the key. */
  ghost predicate Taken(records: Records, key: string) { exists id :: id in records && records[id].Key() == key }

  /** An earlier begin of the same work under the same key; ids and times may differ. */
  predicate SameWork(r: Record, identity: Identity) {
    && r.Key() == identity.idempotencyKey
    && r.identity.kind == identity.kind && r.identity.sourceEventId == identity.sourceEventId
    && r.identity.epochId == identity.epochId
    && r.identity.contentSha256 == identity.contentSha256 && r.identity.contentLength == identity.contentLength
  }

  ghost predicate Fresh(records: Records, identity: Identity) {
    !Taken(records, identity.idempotencyKey) && identity.effectId !in records
  }

  predicate BeginArguments(identity: Identity, expiresAt: int, attempt: int) {
    attempt == 1 && identity.createdAt < expiresAt && identity.contentLength > 0
  }

  /** A begin under a new key and id creates the effect as an intent; under a used key it answers
      with the effect of the same work, in whatever state that is by now. */
  lemma BeginMeans(rows: seq<Row>, identity: Identity, expiresAt: int, attempt: int)
    requires Replay(rows).Ok?
    ensures var before, (r, rows') := RecordsOf(rows), Step(rows, BeginCall(identity, expiresAt, attempt));
            var fits := BeginArguments(identity, expiresAt, attempt);
            && (r.Ok? <==> fits && (Fresh(before, identity) || exists id :: id in before && SameWork(before[id], identity)))
            && (r.Ok? && Fresh(before, identity) ==>
                  && AnswersWith(r, rows', identity.effectId)
                  && r.value.identity == identity && r.value.expiresAt == expiresAt && r.value.attempt == 1
                  && r.value.state.Intent? && Plain(r.value)
                  && RecordsOf(rows') == before[identity.effectId := r.value])
            && (r.Ok? && !Fresh(before, identity) ==>
                  rows' == rows && AnswersWith(r, rows, r.value.Id()) && SameWork(r.value, identity))
            && (r.Err? ==> rows' == rows)
            && (!fits ==> r == Err(InvalidArgument))
            && (r.Err? && fits ==> r.error == if Taken(before, identity.idempotencyKey) then KeyConflict else EffectExists)
  {
    hide FoldRow;
    var f, call := Replay(rows).value, BeginCall(identity, expiresAt, attempt);
    ReplayCoherent(rows);
    WriterReplayAgreement(rows, call);
    var key := identity.idempotencyKey;
    if key in f.keys { assert f.records[f.keys[key]].Key() == key; }
  }

  /** Over a ledger the replay rejects every call is refused and nothing is written. */
  lemma UnreadableRefuses(rows: seq<Row>, call: Call)
    requires Replay(rows).Err?
    ensures Step(rows, call).0.Err? && Step(rows, call).1 == rows
  {
  }

  // ---- the converse ----------------------------------------------------------------------

  /** A row as its decoding fills it in. */
  function Filled(row: Row): Row
    requires Decode(row).Some?
  {
    Entry(row.operation, Decode(row).value)
  }

  /** The call whose decision a row records. */
  function Writer(row: Row): Call
    requires Decode(row).Some? && !row.operation.OtherOperation?
  {
    var r := Decode(row).value;
    match row.operation
    case BeginIntent => BeginCall(r.identity, r.expiresAt, r.attempt)
    case MarkPending => PendingCall(r.Id())
    case MarkQueueAccepted => AcceptCall(r.Id())
    case Verify => VerifyCall(r.Id(), if r.receipt.Some? then r.receipt.value else Receipt("", "", 0, "", 0, ""))
    case Fail => FailCall(r.Id(), if r.reason.Some? then r.reason.value else "", r.retryable.Some? && r.retryable.value)
    case Expire => ExpireCall(r.Id(), r.expiresAt + 1)
    case Requeue => RequeueCall(r.Id(), r.expiresAt - 1, r.expiresAt, None, None, None)
  }

  /** The strict replay accepts no row that a mutator could not have written there. */
  lemma AcceptedRowIsWritten(f: Fold, row: Row)
    requires Coherent(f) && FoldRow(f, row).Ok?
    ensures Decode(row).Some? && !row.operation.OtherOperation?
    ensures Precheck(Writer(row)).None? && Decide(f, Writer(row)) == Append(row.operation, Decode(row).value)
  {
    var r := Decode(row).value;
    assert WellFormed(r);
    if row.operation.BeginIntent? {
      assert r.Id() !in f.records;
      assert r == Candidate(r.identity, r.expiresAt, r.attempt);
    } else {
      var previous := f.records[r.Id()];
      assert WellFormed(previous) && previous.identity == r.identity;
      match row.operation
      case MarkPending => assert r == previous.(state := Pending);
      case MarkQueueAccepted => assert r == previous.(state := ExecutedUnverified);
      case Verify => assert r == previous.(state := Verified, receipt := r.receipt, observedAt := r.observedAt);
      case Fail => assert r == previous.(state := Failed, reason := r.reason, retryable := r.retryable);
      case Expire => assert r == previous.(state := Expired, reason := r.reason, retryable := r.retryable);
      case Requeue => assert r == previous.(state := Requeued, attempt := r.attempt, expiresAt := r.expiresAt, reason := None, retryable := None);
    }
  }

  /** Accepted means reachable: every ledger the replay accepts is, decoded, the ledger some
      sequence of calls leaves. */
  lemma {:induction false} AcceptedIsReachable(rows: seq<Row>) returns (calls: seq<Call>)
    requires Replay(rows).Ok?
    ensures |calls| == |rows| && forall row <- rows :: Decode(row).Some?
    ensures Run([], calls) == seq(|rows|, i requires 0 <= i < |rows| => Filled(rows[i]))
    ensures Replay(Run([], calls)) == Replay(rows)
  {
    hide FoldRow, Decide, Precheck, Writer, Decode;
    if rows == [] {
      calls := [];
    } else {
      var before := AcceptedIsReachable(Front(rows));
      var f, row := Replay(Front(rows)).value, Last(rows);
      ReplayCoherent(Front(rows));
      AcceptedRowIsWritten(f, row);
      FilledFoldsAlike(f, row);
      SplitLast(rows);
      calls := before + [Writer(row)];
      FrontOfAppend(before, Writer(row));
      FrontOfAppend(Run([], before), Filled(row));
    }
  }

  lemma FilledFoldsAlike(f: Fold, row: Row)
    requires Decode(row).Some?
    ensures FoldRow(f, Filled(row)) == FoldRow(f, row)
  {
  }
}
