/** The bytes after the last newline of the effect ledger: an append that is still under way, or
    one a crash has cut short. The lock-free reader leaves them out; the locked reader and the
    observer decode them (moonbite_plugin/effects.py:145-235, 895-963; runtime_core.py:243-284). */
module EffectTails {
  import opened Basics
  import opened EffectModel
  import opened EffectHistory
  import opened EffectReaders
  import opened EffectCache

  /** The lines of the complete part, and the lines of what follows the last newline. */
  function Head(decode: Decoder, data: Bytes): seq<Line> { DecodeAll(decode, SplitLines(data[..CompleteLength(data)])) }

  function Tail(decode: Decoder, data: Bytes): seq<Line> { DecodeAll(decode, SplitLines(data[CompleteLength(data)..])) }

  function AllLines(decode: Decoder, data: Bytes): seq<Line> { DecodeAll(decode, SplitLines(data)) }

  lemma AllLinesAreHeadAndTail(decode: Decoder, data: Bytes)
    ensures AllLines(decode, data) == Head(decode, data) + Tail(decode, data)
  {
    hide SplitLines, CompleteLength;
    var n := CompleteLength(data);
    assert data == data[..n] + data[n..];
    assert Closed(data[..n]);
    SplitResumes(data[..n], data[n..]);
  }

  // ---- every accepted row moves the fold forward ---------------------------------------

  function Stage(s: State): nat {
    match s
    case Intent | Requeued => 0
    case Pending => 1
    case ExecutedUnverified => 2
    case Verified | Failed | Expired => 3
  }

  /** How far an effect has come: attempts first, stages within one attempt. */
  function Progress(f: Fold, id: string): int {
    if id in f.records then 4 * f.records[id].attempt + Stage(f.records[id].state) else 0
  }

  lemma RowMovesForward(f: Fold, row: Row)
    requires FoldRow(f, row).Ok?
    ensures forall id :: Progress(f, id) <= Progress(FoldRow(f, row).value, id)
    ensures exists id :: Progress(f, id) < Progress(FoldRow(f, row).value, id)
  {
    var id := Decode(row).value.Id();
    assert Progress(f, id) < Progress(FoldRow(f, row).value, id);
  }

  predicate AllBlank(lines: seq<Line>) { forall line <- lines :: line.Blank? }

  /** Lines either leave the fold alone because they are all blank, or change it for good. */
  lemma {:induction false} OnlyBlankLinesAreSilent(p: Projection, lines: seq<Line>)
    requires ReadLines(p, lines).Ok?
    ensures forall id :: Progress(p.fold, id) <= Progress(ReadLines(p, lines).value.fold, id)
    ensures AllBlank(lines) ==> ReadLines(p, lines).value.fold == p.fold
    ensures !AllBlank(lines) ==> exists id :: Progress(p.fold, id) < Progress(ReadLines(p, lines).value.fold, id)
    decreases |lines|
  {
    hide FoldRow, Progress;
    if lines != [] {
      var q := ReadLine(p, lines[0]).value;
      OnlyBlankLinesAreSilent(q, lines[1..]);
      assert lines == [lines[0]] + lines[1..];
      if lines[0].Object? {
        RowMovesForward(p.fold, lines[0].row);
        var id :| Progress(p.fold, id) < Progress(q.fold, id);
        assert Progress(q.fold, id) <= Progress(ReadLines(q, lines[1..]).value.fold, id);
      } else if !AllBlank(lines[1..]) {
        var id :| Progress(q.fold, id) < Progress(ReadLines(q, lines[1..]).value.fold, id);
        assert Progress(p.fold, id) < Progress(ReadLines(p, lines).value.fold, id);
      }
    }
  }

  // ---- the three readers on one file ---------------------------------------------------

  /** One verdict, and if it is acceptance one current record for each effect. */
  ghost predicate ReadersAgree(decode: Decoder, data: Bytes) {
    var lockFree, locked, observer :=
      Project(decode, data), ReadLocked(AllLines(decode, data)), ObserverHistory(AllLines(decode, data));
    && (lockFree.Ok? <==> locked.Ok?) && (lockFree.Ok? <==> observer.Ok?)
    && (lockFree.Ok? ==>
          && lockFree.value.fold.records == locked.value.records
          && forall id :: LatestOf(observer.value, id) ==
               if id in locked.value.records then Some(locked.value.records[id]) else None)
  }

  /** The three readers agree on a file exactly when its complete part is already rejected, or
      nothing but blank follows its last newline. */
  lemma ReadersAgreeIff(decode: Decoder, data: Bytes)
    ensures ReadersAgree(decode, data) <==> (Project(decode, data).Err? || AllBlank(Tail(decode, data)))
  {
    hide SplitLines, CompleteLength, DecodeAll, FoldRow, ReadLines, Replay, ObserverHistory, ReadLocked, AllBlank;
    var head, tail := Head(decode, data), Tail(decode, data);
    AllLinesAreHeadAndTail(decode, data);
    ObserverAgreesWithReplay(head + tail);
    LockedAgreesWithLockFree(head + tail);
    ReadLinesResumes(EmptyProjection, head, tail);
    assert Project(decode, data) == ReadLines(EmptyProjection, head);
    if Project(decode, data).Ok? {
      var p := Project(decode, data).value;
      if AllBlank(tail) { BlankLinesAreRead(p, tail); }
      if ReadLines(p, tail).Ok? {
        OnlyBlankLinesAreSilent(p, tail);
        SameRecordsSameProgress(p.fold, ReadLines(p, tail).value.fold);
      }
    }
  }

  lemma SameRecordsSameProgress(f: Fold, g: Fold)
    ensures f.records == g.records ==> forall id :: Progress(f, id) == Progress(g, id)
  {
  }

  lemma {:induction false} BlankLinesAreRead(p: Projection, lines: seq<Line>)
    requires AllBlank(lines)
    ensures ReadLines(p, lines).Ok?
    decreases |lines|
  {
    if lines != [] { BlankLinesAreRead(ReadLine(p, lines[0]).value, lines[1..]); }
  }

  /** An append cut short before its newline is invisible to the lock-free reader. */
  lemma TornAppendIsInvisible(decode: Decoder, data: Bytes, torn: Bytes)
    requires Closed(data) && NEWLINE !in torn
    ensures Project(decode, data + torn) == Project(decode, data)
  {
    hide SplitLines, ReadLines, DecodeAll, CompleteLength;
    CompleteOfConcat(data, torn);
    CompleteOfConcat(data, []);
    assert CompleteLength(torn) == 0;
    assert CompleteLength([]) == 0 by { EmptyIsComplete(); }
    assert data + [] == data && torn[..0] == [];
  }

  // ---- a torn tail behind an accepted ledger -------------------------------------------

  /** A complete ledger the lock-free reader accepts, and the beginning of one more line. */
  predicate TornBehind(decode: Decoder, done: Bytes, torn: Bytes) {
    && Closed(done) && Project(decode, done).Ok?
    && torn != [] && NEWLINE !in torn && RETURN !in torn
  }

  lemma TornIsOneMoreLine(decode: Decoder, done: Bytes, torn: Bytes)
    requires TornBehind(decode, done, torn)
    ensures Project(decode, done + torn) == Project(decode, done) == ReadLines(EmptyProjection, AllLines(decode, done))
    ensures AllLines(decode, done + torn) == AllLines(decode, done) + [decode(torn)]
  {
    hide ReadLines, CompleteLength, Closed;
    TornAppendIsInvisible(decode, done, torn);
    SplitResumes(done, torn);
    assert BreakAt(torn) == |torn|;
    ClosedIsComplete(done);
  }

  lemma ClosedIsComplete(data: Bytes)
    requires Closed(data)
    ensures data[..CompleteLength(data)] == data
  {
    var none: Bytes := [];
    CompleteOfConcat(data, none);
    EmptyIsComplete();
    assert data + none == data && none[..0] == none;
  }

  /** Torn bytes that do not decode: the lock-free reader answers as if they were not there, the
      other two refuse the whole ledger, whatever it holds. */
  lemma TornBytesSplitTheReaders(decode: Decoder, done: Bytes, torn: Bytes)
    requires TornBehind(decode, done, torn) && !Readable(decode(torn))
    ensures Project(decode, done + torn) == Project(decode, done)
    ensures ReadLocked(AllLines(decode, done + torn)) == Err(LineError(|AllLines(decode, done)| + 1, decode(torn)))
    ensures ObserverHistory(AllLines(decode, done + torn)).Err?
  {
    hide SplitLines, ReadLines, DecodeAll, CompleteLength, Closed, Replay, RowsIn, AllLines, ObserverHistory;
    TornIsOneMoreLine(decode, done, torn);
    var before, lines := AllLines(decode, done), AllLines(decode, done + torn);
    LockedAgreesWithLockFree(before);
    assert lines[|before|] == decode(torn);
    assert forall i :: 0 <= i < |before| ==> lines[i] == before[i];
    ObserverAgreesWithReplay(lines);
  }

  /** A whole row that only lacks its newline: the locked reader and the observer count it as the
      record of its effect, the lock-free reader still gives the record from before. */
  lemma UnterminatedRowIsSeenByTwo(decode: Decoder, done: Bytes, torn: Bytes, row: Row)
    requires TornBehind(decode, done, torn) && decode(torn) == Object(row)
    requires FoldRow(Project(decode, done).value.fold, row).Ok?
    ensures var before, after := Project(decode, done).value.fold, FoldRow(Project(decode, done).value.fold, row).value;
            var id := Decode(row).value.Id();
            && Project(decode, done + torn) == Project(decode, done)
            && ReadLocked(AllLines(decode, done + torn)) == Ok(after)
            && ObserverHistory(AllLines(decode, done + torn)).Ok?
            && LatestOf(ObserverHistory(AllLines(decode, done + torn)).value, id) == Some(after.records[id])
            && (id in before.records ==> before.records[id] != after.records[id])
  {
    hide SplitLines, ReadLines, DecodeAll, CompleteLength, Closed, AllLines, ObserverHistory, ReadLocked, LatestOf;
    TornIsOneMoreLine(decode, done, torn);
    var before, lines := AllLines(decode, done), AllLines(decode, done + torn);
    ReadOneMore(EmptyProjection, before, Object(row));
    LockedAgreesWithLockFree(lines);
    ObserverAgreesWithReplay(lines);
  }
}
