/** The rows of effects.jsonl, the record each row carries, and the strict fold that
    replays them (moonbite_plugin/effects.py). Text shapes, JSON and time parsing are
    taken as done; every check that relates one field to another is kept. */
module EffectModel {
  import opened Basics

  datatype State = Intent | Pending | ExecutedUnverified | Verified | Failed | Expired | Requeued

  datatype Operation =
    BeginIntent | MarkPending | MarkQueueAccepted | Verify | Fail | Expire | Requeue
    | OtherOperation(name: string)

  /** The fields an effect may never change. */
  datatype Identity = Identity(
    effectId: string, kind: string, sourceEventId: string, idempotencyKey: string,
    epochId: string, createdAt: int, contentSha256: string, contentLength: int)

  datatype Receipt = Receipt(
    receiptId: string, eventId: string, observedAt: int,
    contentSha256: string, contentLength: int, epochId: string)

  datatype Record = Record(
    identity: Identity, expiresAt: int, state: State, attempt: int,
    receipt: Option<Receipt>, reason: Option<string>, retryable: Option<bool>,
    observedAt: Option<int>)
  {
    function Id(): string { identity.effectId }
    function Key(): string { identity.idempotencyKey }
  }

  /** One decoded ledger object. A Malformed object fails field validation; the lenient
      reader may still be able to read which effect it names. */
  datatype Row = Malformed(effectId: Option<string>) | Entry(operation: Operation, fields: Record)

  predicate ReceiptMatches(identity: Identity, receipt: Receipt) {
    && receipt.eventId == identity.sourceEventId
    && receipt.contentSha256 == identity.contentSha256
    && receipt.contentLength == identity.contentLength
    && receipt.epochId == identity.epochId
  }

  /** What the record constructor and the row decoder together insist on. */
  predicate WellFormed(r: Record) {
    && r.expiresAt > r.identity.createdAt
    && r.identity.contentLength > 0
    && r.attempt > 0
    && (r.state.Verified? <==> r.receipt.Some?)
    && (match r.state
        case Failed => r.reason.Some? && r.retryable.Some?
        case Expired => r.reason == Some("expired") && r.retryable == Some(true)
        case _ => r.reason.None? && r.retryable.None?)
    && r.observedAt == (if r.receipt.Some? then Some(r.receipt.value.observedAt) else None)
    && (r.receipt.Some? ==> ReceiptMatches(r.identity, r.receipt.value))
  }

  /** Row decoding. A missing observed_at is filled in from the receipt. */
  function Decode(row: Row): Option<Record> {
    match row
    case Malformed(_) => None
    case Entry(_, fields) =>
      var record :=
        if fields.receipt.Some? && fields.observedAt.None?
        then fields.(observedAt := Some(fields.receipt.value.observedAt))
        else fields;
      if WellFormed(record) then Some(record) else None
  }

  predicate ValidTransition(previous: Record, current: Record, operation: Operation) {
    if previous.state.Expired? then
      && operation.Requeue?
      && current.state.Requeued?
      && current.attempt == previous.attempt + 1
      && current.expiresAt > previous.expiresAt
    else
      && current.expiresAt == previous.expiresAt
      && current.attempt == previous.attempt
      && match previous.state
         case Intent | Requeued =>
           || (operation.MarkPending? && current.state.Pending?)
           || (operation.Fail? && current.state.Failed?)
         case Pending =>
           || (operation.MarkQueueAccepted? && current.state.ExecutedUnverified?)
           || (operation.Verify? && current.state.Verified?)
           || (operation.Fail? && current.state.Failed?)
           || (operation.Expire? && current.state.Expired?)
         case ExecutedUnverified =>
           || (operation.Verify? && current.state.Verified?)
           || (operation.Fail? && current.state.Failed?)
           || (operation.Expire? && current.state.Expired?)
         case _ => false
  }

  /** The two maps the replay keeps: latest record per effect, owner of each key. */
  datatype Fold = Fold(records: map<string, Record>, keys: map<string, string>)

  const EmptyFold := Fold(map[], map[])

  datatype FoldError = InvalidRow | OutOfOrder | InvalidInitialAttempt | IdentityChanged | KeyReused

  function FoldRow(f: Fold, row: Row): Result<Fold, FoldError> {
    match Decode(row)
    case None => Err(InvalidRow)
    case Some(record) =>
      var id := record.Id();
      if id !in f.records && (!row.operation.BeginIntent? || !record.state.Intent?) then Err(OutOfOrder)
      else if id !in f.records && record.attempt != 1 then Err(InvalidInitialAttempt)
      else if id in f.records && f.records[id].identity != record.identity then Err(IdentityChanged)
      else if id in f.records && !ValidTransition(f.records[id], record, row.operation) then Err(OutOfOrder)
      else if record.Key() in f.keys && f.keys[record.Key()] != id then Err(KeyReused)
      else Ok(Fold(f.records[id := record], f.keys[record.Key() := id]))
  }

  datatype ReplayError = ReplayError(rowNumber: nat, error: FoldError)

  /** The strict replay of a whole ledger; the first bad row, counted from one, stops it. */
  function Replay(rows: seq<Row>): Result<Fold, ReplayError> {
    if rows == [] then Ok(EmptyFold)
    else
      match Replay(Front(rows))
      case Err(e) => Err(e)
      case Ok(f) =>
        match FoldRow(f, Last(rows))
        case Err(e) => Err(ReplayError(|rows|, e))
        case Ok(g) => Ok(g)
  }

  /** Every accepted ledger has accepted prefixes. */
  lemma {:induction false} PrefixAccepted(rows: seq<Row>, n: nat)
    requires n <= |rows| && Replay(rows).Ok?
    ensures Replay(rows[..n]).Ok?
    decreases |rows|
  {
    if n == |rows| {
      assert rows[..n] == rows;
    } else {
      assert Front(rows)[..n] == rows[..n];
      PrefixAccepted(Front(rows), n);
    }
  }

  /** A ledger that fails at some row fails the same way however it grows. */
  lemma {:induction false} FailureIsPermanent(rows: seq<Row>, more: seq<Row>)
    requires Replay(rows).Err?
    ensures Replay(rows + more) == Replay(rows)
    decreases |more|
  {
    if more == [] {
      assert rows + more == rows;
    } else {
      FailureIsPermanent(rows, Front(more));
      assert Front(rows + more) == rows + Front(more);
    }
  }
}
