/** EffectLedger: the seven mutators, the decisions they take, and why every row they
    append is one the strict replay accepts (moonbite_plugin/effects.py:1074-1274). */
module EffectLedgers {
  import opened Basics
  import opened EffectModel
  import opened EffectHistory

  datatype LedgerError =
    | InvalidArgument
    | Corrupt(replay: ReplayError)
    | KeyConflict | EffectExists | NoSuchEffect
    | WrongState(state: State)
    | ReceiptMismatch | ConflictingReplay | NotExpired | ExpiryNotFuture | IdentityMismatch

  /** One mutator call; clocks are arguments. */
  datatype Call =
    | BeginCall(identity: Identity, expiresAt: int, attempt: int)
    | PendingCall(id: string)
    | AcceptCall(id: string)
    | VerifyCall(id: string, receipt: Receipt)
    | FailCall(id: string, reason: string, retryable: bool)
    | ExpireCall(id: string, now: int)
    | RequeueCall(id: string, clock: int, newExpiry: int,
                  key: Option<string>, source: Option<string>, epoch: Option<string>)

  datatype Decision = Refuse(error: LedgerError) | Already(record: Record) | Append(operation: Operation, record: Record)

  function Candidate(identity: Identity, expiresAt: int, attempt: int): Record {
    Record(identity, expiresAt, Intent, attempt, None, None, None, None)
  }

  predicate SameBegin(record: Record, identity: Identity) {
    && record.identity.kind == identity.kind
    && record.identity.sourceEventId == identity.sourceEventId
    && record.identity.epochId == identity.epochId
    && record.identity.contentSha256 == identity.contentSha256
    && record.identity.contentLength == identity.contentLength
  }

  predicate Mismatch(given: Option<string>, stored: string) {
    given.Some? && given.value != stored
  }

  /** Argument checks made before the ledger is read. */
  function Precheck(call: Call): Option<LedgerError> {
    match call
    case BeginCall(identity, expiresAt, attempt) =>
      if attempt != 1 || !WellFormed(Candidate(identity, expiresAt, attempt)) then Some(InvalidArgument) else None
    case RequeueCall(_, clock, newExpiry, _, _, _) =>
      if newExpiry <= clock then Some(ExpiryNotFuture) else None
    case _ => None
  }

  /** What a mutator decides against a replayed ledger. */
  function Decide(f: Fold, call: Call): Decision {
    if call.BeginCall? then
      var key := call.identity.idempotencyKey;
      if key in f.keys && f.keys[key] in f.records then
        var existing := f.records[f.keys[key]];
        if SameBegin(existing, call.identity) then Already(existing) else Refuse(KeyConflict)
      else if call.identity.effectId in f.records then Refuse(EffectExists)
      else Append(BeginIntent, Candidate(call.identity, call.expiresAt, call.attempt))
    else if call.id !in f.records then Refuse(NoSuchEffect)
    else DecideOn(f.records[call.id], call)
  }

  function DecideOn(record: Record, call: Call): Decision
    requires !call.BeginCall?
  {
    match call
    case PendingCall(_) =>
      if record.state.Pending? then Already(record)
      else if record.state !in {Intent, Requeued} then Refuse(WrongState(record.state))
      else Append(MarkPending, record.(state := Pending))
    case AcceptCall(_) =>
      if record.state.ExecutedUnverified? then Already(record)
      else if !record.state.Pending? then Refuse(WrongState(record.state))
      else Append(MarkQueueAccepted, record.(state := ExecutedUnverified))
    case VerifyCall(_, receipt) =>
      if record.state.Verified? then
        if record.receipt == Some(receipt) then Already(record) else Refuse(ConflictingReplay)
      else if record.state !in {Pending, ExecutedUnverified} then Refuse(WrongState(record.state))
      else if !ReceiptMatches(record.identity, receipt) then Refuse(ReceiptMismatch)
      else Append(Verify, record.(state := Verified, receipt := Some(receipt), observedAt := Some(receipt.observedAt)))
    case FailCall(_, reason, retryable) =>
      if record.state.Failed? then
        if record.reason == Some(reason) && record.retryable == Some(retryable) then Already(record)
        else Refuse(ConflictingReplay)
      else if record.state !in {Intent, Pending, ExecutedUnverified, Requeued} then Refuse(WrongState(record.state))
      else Append(Fail, record.(state := Failed, reason := Some(reason), retryable := Some(retryable)))
    case ExpireCall(_, now) =>
      if record.state !in {Pending, ExecutedUnverified} then Refuse(WrongState(record.state))
      else if !(record.expiresAt < now) then Refuse(NotExpired)
      else Append(Expire, record.(state := Expired, reason := Some("expired"), retryable := Some(true)))
    case RequeueCall(_, _, newExpiry, key, source, epoch) =>
      if !record.state.Expired? then Refuse(WrongState(record.state))
      else if Mismatch(key, record.identity.idempotencyKey) || Mismatch(source, record.identity.sourceEventId)
              || Mismatch(epoch, record.identity.epochId) then Refuse(IdentityMismatch)
      else if newExpiry <= record.identity.createdAt then Refuse(InvalidArgument)
      else Append(Requeue, record.(state := Requeued, attempt := record.attempt + 1, expiresAt := newExpiry,
                                   reason := None, retryable := None, receipt := None, observedAt := None))
  }

  type Outcome = Result<Record, LedgerError>

  /** A whole call: arguments, replay, decision, at most one appended row. */
  function Step(rows: seq<Row>, call: Call): (Outcome, seq<Row>) {
    if Precheck(call).Some? then (Err(Precheck(call).value), rows)
    else
      match Replay(rows)
      case Err(e) => (Err(Corrupt(e)), rows)
      case Ok(f) =>
        match Decide(f, call)
        case Refuse(e) => (Err(e), rows)
        case Already(record) => (Ok(record), rows)
        case Append(operation, record) => (Ok(record), rows + [Entry(operation, record)])
  }

  /** The one place where the writer is looser than the replay: a requeue compares the new
      expiry with the clock, the replay compares it with the expiry being replaced. */
  predicate MovesExpiryForward(f: Fold, call: Call) {
    call.RequeueCall? && call.id in f.records ==> call.newExpiry > f.records[call.id].expiresAt
  }

  lemma DecisionIsFoldable(f: Fold, call: Call)
    requires Coherent(f) && Precheck(call).None? && Decide(f, call).Append?
    ensures var d := Decide(f, call);
            var row := Entry(d.operation, d.record);
            && (FoldRow(f, row).Ok? <==> MovesExpiryForward(f, call))
            && (MovesExpiryForward(f, call) ==>
                  FoldRow(f, row) == Ok(Fold(f.records[d.record.Id() := d.record], f.keys[d.record.Key() := d.record.Id()])))
  {
    if !call.BeginCall? {
      assert f.records[call.id].Id() == call.id;
    }
  }

  lemma AlreadyIsCurrent(f: Fold, call: Call)
    requires Decide(f, call).Already?
    ensures Decide(f, call).record in f.records.Values
  {
    if call.BeginCall? {
      assert f.keys[call.identity.idempotencyKey] in f.records;
    } else {
      assert Decide(f, call).record == f.records[call.id];
    }
  }

  /** Writer/replay agreement. A refused call appends nothing; a successful call appends at
      most one row, the ledger stays readable exactly when the call moves the expiry
      forward (which only a requeue can fail to do), and then the replay reads back
      precisely the record the caller was given. */
  lemma WriterReplayAgreement(rows: seq<Row>, call: Call)
    requires Replay(rows).Ok?
    ensures var (r, rows') := Step(rows, call);
            && (r.Err? ==> rows' == rows)
            && (r.Ok? && rows' == rows ==> r.value in RecordsOf(rows).Values)
            && (rows' != rows ==>
                  && r.Ok?
                  && |rows'| == |rows| + 1 && Front(rows') == rows
                  && (Replay(rows').Ok? <==> MovesExpiryForward(Replay(rows).value, call))
                  && (Replay(rows').Ok? ==> RecordsOf(rows') == RecordsOf(rows)[r.value.Id() := r.value]))
  {
    hide Decide, FoldRow, MovesExpiryForward, Precheck;
    ReplayCoherent(rows);
    var f := Replay(rows).value;
    if Decide(f, call).Already? {
      AlreadyIsCurrent(f, call);
    }
    if Precheck(call).None? && Decide(f, call).Append? {
      DecisionIsFoldable(f, call);
      FrontOfAppend(rows, Entry(Decide(f, call).operation, Decide(f, call).record));
    }
  }

  /** Begin, pending, accept, verify and fail may be repeated after success: the repeat
      returns the same record and appends nothing. */
  lemma RepeatAppendsNothing(rows: seq<Row>, call: Call)
    requires Replay(rows).Ok? && Step(rows, call).0.Ok?
    requires !call.ExpireCall? && !call.RequeueCall?
    ensures var (r, rows') := Step(rows, call); Step(rows', call) == (r, rows')
  {
    hide Decide, FoldRow, Precheck;
    ReplayCoherent(rows);
    var f := Replay(rows).value;
    if Decide(f, call).Append? {
      DecisionIsFoldable(f, call);
      FrontOfAppend(rows, Entry(Decide(f, call).operation, Decide(f, call).record));
      RepeatDecidesAlready(f, call);
    }
  }

  lemma RepeatDecidesAlready(f: Fold, call: Call)
    requires Coherent(f) && Decide(f, call).Append?
    requires !call.ExpireCall? && !call.RequeueCall?
    ensures var r := Decide(f, call).record;
            Decide(Fold(f.records[r.Id() := r], f.keys[r.Key() := r.Id()]), call) == Already(r)
  {
    if !call.BeginCall? {
      assert f.records[call.id].Id() == call.id;
    }
  }

  /** A run of calls on one ledger. */
  function Run(rows: seq<Row>, calls: seq<Call>): seq<Row> {
    if calls == [] then rows else Step(Run(rows, Front(calls)), Last(calls)).1
  }

  /** Every requeue reads a clock no earlier than the `now` of any earlier expire of the same
      effect. */
  predicate ClocksAgree(calls: seq<Call>) {
    forall i, j :: 0 <= i < j < |calls| && calls[i].ExpireCall? && calls[j].RequeueCall? && calls[i].id == calls[j].id ==>
      calls[i].now <= calls[j].clock
  }

  /** Every expired record was expired by a call for it that had passed its expiry. */
  predicate ExpiredBefore(f: Fold, calls: seq<Call>) {
    forall id <- f.records :: f.records[id].state.Expired? ==>
      exists i :: 0 <= i < |calls| && calls[i].ExpireCall? && calls[i].id == id && f.records[id].expiresAt < calls[i].now
  }

  lemma ExpiredBeforeGrows(f: Fold, calls: seq<Call>, call: Call)
    requires ExpiredBefore(f, calls)
    ensures ExpiredBefore(f, calls + [call])
  {
    forall id | id in f.records && f.records[id].state.Expired?
      ensures exists i :: 0 <= i < |calls + [call]| && (calls + [call])[i].ExpireCall? && (calls + [call])[i].id == id
                          && f.records[id].expiresAt < (calls + [call])[i].now
    {
      var i :| 0 <= i < |calls| && calls[i].ExpireCall? && calls[i].id == id && f.records[id].expiresAt < calls[i].now;
      assert (calls + [call])[i] == calls[i];
    }
  }

  /** Only an expire call past the expiry produces an expired record, and only an expired
      record is requeued. */
  lemma ExpiryDecisions(f: Fold, call: Call)
    requires Coherent(f) && Decide(f, call).Append?
    ensures Decide(f, call).record.state.Expired? ==>
              call.ExpireCall? && call.id == Decide(f, call).record.Id() && Decide(f, call).record.expiresAt < call.now
    ensures call.RequeueCall? ==> call.id in f.records && f.records[call.id].state.Expired?
  {
  }

  /** One step of the run argument. */
  lemma StepStaysReadable(rows: seq<Row>, before: seq<Call>, call: Call)
    requires Replay(rows).Ok? && ExpiredBefore(Replay(rows).value, before)
    requires call.RequeueCall? ==>
               forall i :: 0 <= i < |before| && before[i].ExpireCall? && before[i].id == call.id ==> before[i].now <= call.clock
    ensures Replay(Step(rows, call).1).Ok?
    ensures ExpiredBefore(Replay(Step(rows, call).1).value, before + [call])
  {
    hide Decide, FoldRow;
    var f := Replay(rows).value;
    ExpiredBeforeGrows(f, before, call);
    WriterReplayAgreement(rows, call);
    if Step(rows, call).1 != rows {
      ReplayCoherent(rows);
      ExpiryDecisions(f, call);
      assert (before + [call])[|before|] == call;
    }
  }

  /** Under agreeing clocks no run of calls, however long and in whatever order, can leave a
      ledger the strict replay rejects. */
  lemma {:induction false} RunsStayReadable(calls: seq<Call>)
    requires ClocksAgree(calls)
    ensures Replay(Run([], calls)).Ok?
    ensures ExpiredBefore(Replay(Run([], calls)).value, calls)
  {
    if calls != [] {
      var before, call := Front(calls), Last(calls);
      assert forall i :: 0 <= i < |before| ==> before[i] == calls[i];
      RunsStayReadable(before);
      StepStaysReadable(Run([], before), before, call);
      SplitLast(calls);
    }
  }

  lemma BackdatedRowIsOutOfOrder(f: Fold, call: Call)
    requires Coherent(f) && Decide(f, call).Append? && !MovesExpiryForward(f, call)
    requires Precheck(call).None?
    ensures FoldRow(f, Entry(Decide(f, call).operation, Decide(f, call).record)) == Err(OutOfOrder)
  {
    assert f.records[call.id].Id() == call.id;
  }

  /** The condition is needed: an expire told a later time than the clock a requeue reads
      makes the writer append a row that no replay will ever accept again, and from then on
      every call is refused. */
  lemma BackdatedRequeuePoisons(rows: seq<Row>, call: Call, later: Call)
    requires Replay(rows).Ok? && Precheck(call).None? && Decide(Replay(rows).value, call).Append?
    requires !MovesExpiryForward(Replay(rows).value, call)
    ensures var poisoned := Step(rows, call).1;
            && Step(rows, call).0.Ok?
            && Replay(poisoned) == Err(ReplayError(|rows| + 1, OutOfOrder))
            && (forall more :: Replay(poisoned + more).Err?)
            && Step(poisoned, later).0.Err? && Step(poisoned, later).1 == poisoned
  {
    var f := Replay(rows).value;
    ReplayCoherent(rows);
    BackdatedRowIsOutOfOrder(f, call);
    hide Decide, FoldRow, Precheck, MovesExpiryForward;
    var row := Entry(Decide(f, call).operation, Decide(f, call).record);
    var poisoned := Step(rows, call).1;
    assert poisoned == rows + [row];
    FrontOfAppend(rows, row);
    forall more ensures Replay(poisoned + more).Err? {
      FailureIsPermanent(poisoned, more);
    }
  }

  /** Such a call exists: expiry 100, expired with now = 101, requeued at clock 50 to 60. */
  lemma BackdatedRequeueHappens()
    ensures var identity := Identity("e", "k", "s", "key", "ep", 0, "h", 1);
            var calls := [BeginCall(identity, 100, 1), PendingCall("e"), ExpireCall("e", 101)];
            var call := RequeueCall("e", 50, 60, None, None, None);
            var rows := Run([], calls);
            && Replay(rows).Ok? && Step(rows, call).0.Ok? && !Replay(Step(rows, call).1).Ok?
  {
    var identity := Identity("e", "k", "s", "key", "ep", 0, "h", 1);
    var begin := [BeginCall(identity, 100, 1)];
    var pend := begin + [PendingCall("e")];
    var expired := pend + [ExpireCall("e", 101)];
    assert expired == [BeginCall(identity, 100, 1), PendingCall("e"), ExpireCall("e", 101)];
    var call := RequeueCall("e", 50, 60, None, None, None);
    assert Front(begin) == [];
    FrontOfAppend(begin, PendingCall("e"));
    FrontOfAppend(pend, ExpireCall("e", 101));
    var r1 := Run([], begin);
    assert Run([], []) == [];
    assert r1 == [Entry(BeginIntent, Candidate(identity, 100, 1))];
    WriterReplayAgreement([], begin[0]);
    var r2 := Run([], pend);
    assert RecordsOf(r1)["e"] == Candidate(identity, 100, 1);
    WriterReplayAgreement(r1, PendingCall("e"));
    WriterReplayAgreement(r2, ExpireCall("e", 101));
    WriterReplayAgreement(Run([], expired), call);
  }

  /** The store itself: an append-only row sequence, replayed by every call. */
  class EffectLedger {
    var rows: seq<Row>

    constructor ()
      ensures rows == []
    {
      rows := [];
    }

    method ReplayRows() returns (r: Result<Fold, ReplayError>)
      ensures r == Replay(rows)
    {
      var records: map<string, Record>, keys: map<string, string> := map[], map[];
      for i := 0 to |rows|
        invariant Replay(rows[..i]) == Ok(Fold(records, keys))
      {
        assert Front(rows[..i + 1]) == rows[..i];
        match FoldRow(Fold(records, keys), rows[i])
        case Err(e) =>
          FailureIsPermanent(rows[..i + 1], rows[i + 1..]);
          assert rows[..i + 1] + rows[i + 1..] == rows;
          return Err(ReplayError(i + 1, e));
        case Ok(f) =>
          records, keys := f.records, f.keys;
      }
      assert rows[..|rows|] == rows;
      return Ok(Fold(records, keys));
    }

    /** Scan for the record holding an idempotency key; the key map the replay also builds
        is only the specification of this scan. */
    method FindByKey(f: Fold, key: string) returns (r: Option<Record>)
      requires Coherent(f)
      ensures r == if key in f.keys then Some(f.records[f.keys[key]]) else None
    {
      var pending := f.records.Keys;
      while pending != {}
        invariant pending <= f.records.Keys
        invariant forall id <- f.records.Keys - pending :: f.records[id].Key() != key
      {
        var id :| id in pending;
        if f.records[id].Key() == key { return Some(f.records[id]); }
        pending := pending - {id};
      }
      return None;
    }

    method Begin(identity: Identity, expiresAt: int, attempt: int) returns (r: Outcome)
      modifies this
      ensures (r, rows) == Step(old(rows), BeginCall(identity, expiresAt, attempt))
    {
      if attempt != 1 { return Err(InvalidArgument); }
      var candidate := Candidate(identity, expiresAt, attempt);
      if !WellFormed(candidate) { return Err(InvalidArgument); }
      var replay := ReplayRows();
      if replay.Err? { return Err(Corrupt(replay.error)); }
      var f := replay.value;
      ReplayCoherent(rows);
      var existing := FindByKey(f, identity.idempotencyKey);
      if existing.Some? {
        if SameBegin(existing.value, identity) { return Ok(existing.value); }
        return Err(KeyConflict);
      }
      if identity.effectId in f.records { return Err(EffectExists); }
      rows := rows + [Entry(BeginIntent, candidate)];
      return Ok(candidate);
    }

    method Require(id: string) returns (r: Outcome)
      ensures r == match Replay(rows)
                   case Err(e) => Err(Corrupt(e))
                   case Ok(f) => if id in f.records then Ok(f.records[id]) else Err(NoSuchEffect)
    {
      var replay := ReplayRows();
      if replay.Err? { return Err(Corrupt(replay.error)); }
      if id !in replay.value.records { return Err(NoSuchEffect); }
      return Ok(replay.value.records[id]);
    }

    method MarkPending(id: string) returns (r: Outcome)
      modifies this
      ensures (r, rows) == Step(old(rows), PendingCall(id))
    {
      r := Require(id);
      if r.Err? || r.value.state.Pending? { return; }
      if !r.value.state.Intent? && !r.value.state.Requeued? { return Err(WrongState(r.value.state)); }
      r := Ok(r.value.(state := Pending));
      rows := rows + [Entry(Operation.MarkPending, r.value)];
    }

    method MarkQueueAccepted(id: string) returns (r: Outcome)
      modifies this
      ensures (r, rows) == Step(old(rows), AcceptCall(id))
    {
      r := Require(id);
      if r.Err? || r.value.state.ExecutedUnverified? { return; }
      if !r.value.state.Pending? { return Err(WrongState(r.value.state)); }
      r := Ok(r.value.(state := ExecutedUnverified));
      rows := rows + [Entry(Operation.MarkQueueAccepted, r.value)];
    }

    method Verify(id: string, receipt: Receipt) returns (r: Outcome)
      modifies this
      ensures (r, rows) == Step(old(rows), VerifyCall(id, receipt))
    {
      r := Require(id);
      if r.Err? { return; }
      if r.value.state.Verified? {
        if r.value.receipt == Some(receipt) { return; }
        return Err(ConflictingReplay);
      }
      if !r.value.state.Pending? && !r.value.state.ExecutedUnverified? { return Err(WrongState(r.value.state)); }
      if !ReceiptMatches(r.value.identity, receipt) { return Err(ReceiptMismatch); }
      r := Ok(r.value.(state := Verified, receipt := Some(receipt), observedAt := Some(receipt.observedAt)));
      rows := rows + [Entry(Operation.Verify, r.value)];
    }

    method Fail(id: string, reason: string, retryable: bool) returns (r: Outcome)
      modifies this
      ensures (r, rows) == Step(old(rows), FailCall(id, reason, retryable))
    {
      r := Require(id);
      if r.Err? { return; }
      if r.value.state.Failed? {
        if r.value.reason == Some(reason) && r.value.retryable == Some(retryable) { return; }
        return Err(ConflictingReplay);
      }
      if r.value.state.Verified? || r.value.state.Expired? { return Err(WrongState(r.value.state)); }
      r := Ok(r.value.(state := Failed, reason := Some(reason), retryable := Some(retryable)));
      rows := rows + [Entry(Operation.Fail, r.value)];
    }

    method Expire(id: string, now: int) returns (r: Outcome)
      modifies this
      ensures (r, rows) == Step(old(rows), ExpireCall(id, now))
    {
      r := Require(id);
      if r.Err? { return; }
      if !r.value.state.Pending? && !r.value.state.ExecutedUnverified? { return Err(WrongState(r.value.state)); }
      if !(r.value.expiresAt < now) { return Err(NotExpired); }
      r := Ok(r.value.(state := Expired, reason := Some("expired"), retryable := Some(true)));
      rows := rows + [Entry(Operation.Expire, r.value)];
    }

    method Requeue(id: string, clock: int, newExpiry: int,
                   key: Option<string>, source: Option<string>, epoch: Option<string>) returns (r: Outcome)
      modifies this
      ensures (r, rows) == Step(old(rows), RequeueCall(id, clock, newExpiry, key, source, epoch))
    {
      if newExpiry <= clock { return Err(ExpiryNotFuture); }
      r := Require(id);
      if r.Err? { return; }
      if !r.value.state.Expired? { return Err(WrongState(r.value.state)); }
      if key.Some? && key.value != r.value.identity.idempotencyKey { return Err(IdentityMismatch); }
      if source.Some? && source.value != r.value.identity.sourceEventId { return Err(IdentityMismatch); }
      if epoch.Some? && epoch.value != r.value.identity.epochId { return Err(IdentityMismatch); }
      if newExpiry <= r.value.identity.createdAt { return Err(InvalidArgument); }
      r := Ok(r.value.(state := Requeued, attempt := r.value.attempt + 1, expiresAt := newExpiry,
                       reason := None, retryable := None, receipt := None, observedAt := None));
      rows := rows + [Entry(Operation.Requeue, r.value)];
    }
  }
}
