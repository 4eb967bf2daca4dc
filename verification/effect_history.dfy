/** What every accepted effect ledger looks like, from its first row to its last. */
module EffectHistory {
  import opened Basics
  import opened EffectModel

  function RecordsOf(rows: seq<Row>): map<string, Record>
    requires Replay(rows).Ok?
  {
    Replay(rows).value.records
  }

  /** Records are well formed and filed under their own id, and the key map is exactly the
      inverse of the record-to-key map. */
  ghost predicate Coherent(f: Fold) {
    && (forall id <- f.records ::
          && f.records[id].Id() == id
          && WellFormed(f.records[id])
          && f.records[id].Key() in f.keys
          && f.keys[f.records[id].Key()] == id)
    && (forall key <- f.keys ::
          && f.keys[key] in f.records
          && f.records[f.keys[key]].Key() == key)
  }

  lemma {:induction false} ReplayCoherent(rows: seq<Row>)
    requires Replay(rows).Ok?
    ensures Coherent(Replay(rows).value)
  {
    if rows != [] {
      ReplayCoherent(Front(rows));
    }
  }

  /** A record carries a receipt exactly when it is verified, and then the receipt matches
      its identity; two effects never share an idempotency key. */
  lemma ReceiptsAndKeys(rows: seq<Row>)
    requires Replay(rows).Ok?
    ensures forall r <- RecordsOf(rows).Values ::
              && (r.state.Verified? <==> r.receipt.Some?)
              && (r.receipt.Some? ==> ReceiptMatches(r.identity, r.receipt.value))
    ensures forall a, b | a in RecordsOf(rows) && b in RecordsOf(rows) ::
              RecordsOf(rows)[a].Key() == RecordsOf(rows)[b].Key() ==> a == b
  {
    ReplayCoherent(rows);
  }

  predicate Touches(row: Row, id: string) {
    row.Entry? && row.fields.Id() == id
  }

  function CountRequeues(rows: seq<Row>, id: string): nat {
    if rows == [] then 0
    else CountRequeues(Front(rows), id) +
         (if Touches(Last(rows), id) && Last(rows).operation.Requeue? then 1 else 0)
  }

  /** attempt == 1 + number of requeue rows. */
  lemma {:induction false} AttemptCountsRequeues(rows: seq<Row>, id: string)
    requires Replay(rows).Ok?
    ensures id in RecordsOf(rows) ==> RecordsOf(rows)[id].attempt == 1 + CountRequeues(rows, id)
    ensures id !in RecordsOf(rows) ==> CountRequeues(rows, id) == 0
  {
    if rows != [] {
      AttemptCountsRequeues(Front(rows), id);
    }
  }

  /** Between any two moments of a ledger an effect keeps its identity, and its expiry moves
      exactly when it is requeued, always strictly forward. */
  lemma {:induction false} IdentityFixedExpiryForward(rows: seq<Row>, n: nat, id: string)
    requires n <= |rows| && Replay(rows).Ok? && Replay(rows[..n]).Ok?
    requires id in RecordsOf(rows[..n])
    ensures id in RecordsOf(rows)
    ensures RecordsOf(rows)[id].identity == RecordsOf(rows[..n])[id].identity
    ensures var before, after := RecordsOf(rows[..n])[id], RecordsOf(rows)[id];
            && after.attempt >= before.attempt
            && (after.attempt == before.attempt <==> after.expiresAt == before.expiresAt)
            && (after.attempt > before.attempt <==> after.expiresAt > before.expiresAt)
    decreases |rows|
  {
    if n == |rows| {
      assert rows[..n] == rows;
    } else {
      assert Front(rows)[..n] == rows[..n];
      IdentityFixedExpiryForward(Front(rows), n, id);
    }
  }

  lemma FoldKeepsTerminal(f: Fold, row: Row, id: string)
    requires FoldRow(f, row).Ok? && id in f.records && f.records[id].state in {Verified, Failed}
    ensures id in FoldRow(f, row).value.records && FoldRow(f, row).value.records[id] == f.records[id]
  {
  }

  /** Verified and failed are final: nothing about the record ever changes again. */
  lemma {:induction false} TerminalIsFinal(rows: seq<Row>, n: nat, id: string)
    requires n <= |rows| && Replay(rows).Ok? && Replay(rows[..n]).Ok?
    requires id in RecordsOf(rows[..n])
    requires RecordsOf(rows[..n])[id].state in {Verified, Failed}
    ensures id in RecordsOf(rows) && RecordsOf(rows)[id] == RecordsOf(rows[..n])[id]
    decreases |rows|
  {
    if n == |rows| {
      assert rows[..n] == rows;
    } else {
      hide FoldRow;
      assert Front(rows)[..n] == rows[..n];
      TerminalIsFinal(Front(rows), n, id);
      FoldKeepsTerminal(Replay(Front(rows)).value, Last(rows), id);
    }
  }

  /** Rows that start work on one attempt of one effect. */
  function CountPending(rows: seq<Row>, id: string, attempt: int): nat {
    if rows == [] then 0
    else CountPending(Front(rows), id, attempt) +
         (if Touches(Last(rows), id) && Last(rows).operation.MarkPending? && Last(rows).fields.attempt == attempt
          then 1 else 0)
  }

  /** An attempt is marked pending at most once, whatever happens in between: not yet while
      it is intended or requeued, and never again afterwards. */
  lemma {:induction false} PendingOncePerAttempt(rows: seq<Row>, id: string, attempt: int)
    requires Replay(rows).Ok?
    ensures CountPending(rows, id, attempt) <= 1
    ensures id !in RecordsOf(rows) ==> CountPending(rows, id, attempt) == 0
    ensures id in RecordsOf(rows) && RecordsOf(rows)[id].attempt < attempt ==> CountPending(rows, id, attempt) == 0
    ensures id in RecordsOf(rows) && RecordsOf(rows)[id].attempt == attempt ==>
              && (RecordsOf(rows)[id].state in {Intent, Requeued} ==> CountPending(rows, id, attempt) == 0)
              && (RecordsOf(rows)[id].state in {Pending, ExecutedUnverified, Verified, Expired} ==>
                    CountPending(rows, id, attempt) == 1)
  {
    if rows != [] {
      PendingOncePerAttempt(Front(rows), id, attempt);
    }
  }
}
