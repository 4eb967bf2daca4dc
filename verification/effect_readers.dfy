/** Three readers of one effect ledger file: the strict locked replay, the strict lock-free
    replay, and the lenient quarantining reader of the observer
    (moonbite_plugin/effects.py:145-235, 811-860, 915-957; runtime_core.py:268-286). */
module EffectReaders {
  import opened Basics
  import opened EffectModel

  /** One physical line after decoding. */
  datatype Line = Blank | BadEncoding | BadJson | NotObject | Object(row: Row)

  datatype ReadError =
    | LineError(lineNumber: nat, what: Line)
    | RowError(replay: ReplayError)

  /** What a strict reader knows after some lines: both maps and both counters. */
  datatype Projection = Projection(fold: Fold, lineCount: nat, rowCount: nat)

  const EmptyProjection := Projection(EmptyFold, 0, 0)

  function ReadLine(p: Projection, line: Line): Result<Projection, ReadError> {
    match line
    case Blank => Ok(p.(lineCount := p.lineCount + 1))
    case Object(row) =>
      (match FoldRow(p.fold, row)
       case Err(e) => Err(RowError(ReplayError(p.rowCount + 1, e)))
       case Ok(f) => Ok(Projection(f, p.lineCount + 1, p.rowCount + 1)))
    case _ => Err(LineError(p.lineCount + 1, line))
  }

  /** The strict lock-free reader: decode and fold line by line, stop at the first error. */
  function ReadLines(p: Projection, lines: seq<Line>): Result<Projection, ReadError>
    decreases |lines|
  {
    if lines == [] then Ok(p)
    else
      match ReadLine(p, lines[0])
      case Err(e) => Err(e)
      case Ok(q) => ReadLines(q, lines[1..])
  }

  /** Reading may stop anywhere and go on from what is known so far. */
  lemma {:induction false} ReadLinesResumes(p: Projection, a: seq<Line>, b: seq<Line>)
    ensures ReadLines(p, a + b) ==
            match ReadLines(p, a)
            case Err(e) => Err(e)
            case Ok(q) => ReadLines(q, b)
    decreases |a|
  {
    if a == [] {
      assert a + b == b;
    } else {
      assert (a + b)[0] == a[0] && (a + b)[1..] == a[1..] + b;
      match ReadLine(p, a[0])
      case Err(_) =>
      case Ok(q) => ReadLinesResumes(q, a[1..], b);
    }
  }

  lemma ReadOneMore(p: Projection, lines: seq<Line>, line: Line)
    ensures ReadLines(p, lines + [line]) ==
            match ReadLines(p, lines)
            case Err(e) => Err(e)
            case Ok(q) => ReadLine(q, line)
  {
    ReadLinesResumes(p, lines, [line]);
    match ReadLines(p, lines)
    case Err(_) =>
    case Ok(q) => assert [line][1..] == [];
  }

  predicate Readable(line: Line) { line.Blank? || line.Object? }

  function RowsIn(lines: seq<Line>): seq<Row> {
    if lines == [] then []
    else RowsIn(Front(lines)) + (if Last(lines).Object? then [Last(lines).row] else [])
  }

  /** The locked reader decodes every line before it folds the first row. */
  function ReadLocked(lines: seq<Line>): Result<Fold, ReadError> {
    if exists i :: 0 <= i < |lines| && !Readable(lines[i]) then
      var i := FirstUnreadable(lines);
      Err(LineError(i + 1, lines[i]))
    else
      match Replay(RowsIn(lines))
      case Err(e) => Err(RowError(e))
      case Ok(f) => Ok(f)
  }

  function FirstUnreadable(lines: seq<Line>): (n: nat)
    requires exists i :: 0 <= i < |lines| && !Readable(lines[i])
    ensures n < |lines| && !Readable(lines[n])
    ensures forall i :: 0 <= i < n ==> Readable(lines[i])
  {
    if !Readable(lines[0]) then 0
    else
      assert exists i :: 0 <= i < |lines[1..]| && !Readable(lines[1..][i]) by {
        var i :| 0 <= i < |lines| && !Readable(lines[i]);
        assert lines[1..][i - 1] == lines[i];
      }
      1 + FirstUnreadable(lines[1..])
  }

  lemma NothingRead()
    ensures ReadLines(EmptyProjection, []) == Ok(EmptyProjection)
    ensures RowsIn([]) == [] && Replay([]) == Ok(EmptyFold)
  {
  }

  lemma OneMoreRow(rows: seq<Row>, row: Row)
    ensures Replay(rows + [row]) ==
            match Replay(rows)
            case Err(e) => Err(e)
            case Ok(f) =>
              match FoldRow(f, row)
              case Err(e) => Err(ReplayError(|rows| + 1, e))
              case Ok(g) => Ok(g)
  {
    FrontOfAppend(rows, row);
  }

  lemma OneMoreLine(lines: seq<Line>)
    requires lines != []
    ensures RowsIn(lines) == if Last(lines).Object? then RowsIn(Front(lines)) + [Last(lines).row] else RowsIn(Front(lines))
  {
  }

  /** Without unreadable lines, reading line by line is the strict replay of the rows. */
  lemma {:induction false} LineByLineIsReplay(lines: seq<Line>)
    requires forall line <- lines :: Readable(line)
    ensures ReadLines(EmptyProjection, lines) ==
            match Replay(RowsIn(lines))
            case Err(e) => Err(RowError(e))
            case Ok(f) => Ok(Projection(f, |lines|, |RowsIn(lines)|))
  {
    hide FoldRow, ReadLines, Replay, RowsIn;
    if lines == [] {
      NothingRead();
    } else {
      var before, line := Front(lines), Last(lines);
      assert forall l <- before :: l in lines;
      assert line in lines;
      LineByLineIsReplay(before);
      SplitLast(lines);
      ReadOneMore(EmptyProjection, before, line);
      OneMoreLine(lines);
      if line.Object? { OneMoreRow(RowsIn(before), line.row); }
    }
  }

  /** The two strict readers accept the same lines and then agree on both maps. */
  lemma LockedAgreesWithLockFree(lines: seq<Line>)
    ensures ReadLocked(lines).Ok? <==> ReadLines(EmptyProjection, lines).Ok?
    ensures ReadLocked(lines).Ok? ==> ReadLocked(lines).value == ReadLines(EmptyProjection, lines).value.fold
  {
    if exists i :: 0 <= i < |lines| && !Readable(lines[i]) {
      var i := FirstUnreadable(lines);
      ReadLinesResumes(EmptyProjection, lines[..i], lines[i..]);
      assert lines == lines[..i] + lines[i..];
    } else {
      LineByLineIsReplay(lines);
    }
  }

  lemma ReadableBefore(lines: seq<Line>, n: nat)
    requires n <= |lines| && forall i :: 0 <= i < n ==> Readable(lines[i])
    ensures forall line <- lines[..n] :: Readable(line)
  {
  }

  /** On rejected lines the two strict readers complain about the same thing exactly when every
      line can be decoded, or every row before the first line that cannot folds. */
  lemma ComplaintsAgreeIff(lines: seq<Line>)
    requires ReadLocked(lines).Err?
    ensures ReadLines(EmptyProjection, lines).Err?
    ensures ReadLines(EmptyProjection, lines).error == ReadLocked(lines).error <==>
            (exists i :: 0 <= i < |lines| && !Readable(lines[i])) ==> Replay(RowsIn(lines[..FirstUnreadable(lines)])).Ok?
  {
    hide FoldRow, Replay, RowsIn, ReadLines, Readable;
    LockedAgreesWithLockFree(lines);
    if exists i :: 0 <= i < |lines| && !Readable(lines[i]) {
      var i := FirstUnreadable(lines);
      ReadableBefore(lines, i);
      StopsAt(lines, i);
    } else {
      LineByLineIsReplay(lines);
    }
  }

  /** The lock-free reader on lines of which the n-th is the first that cannot be decoded. */
  lemma StopsAt(lines: seq<Line>, n: nat)
    requires n < |lines| && !Readable(lines[n]) && forall line <- lines[..n] :: Readable(line)
    ensures ReadLines(EmptyProjection, lines) ==
            match Replay(RowsIn(lines[..n]))
            case Err(e) => Err(RowError(e))
            case Ok(_) => Err(LineError(n + 1, lines[n]))
  {
    hide FoldRow, Replay, RowsIn;
    LineByLineIsReplay(lines[..n]);
    ReadLinesResumes(EmptyProjection, lines[..n], lines[n..]);
    assert lines == lines[..n] + lines[n..] && lines[n..][0] == lines[n];
  }

  /** They can differ: a bad row followed by a bad line. */
  lemma ComplaintsCanDiffer()
    ensures var lines := [Object(Malformed(None)), BadJson];
            && ReadLocked(lines) == Err(LineError(2, BadJson))
            && ReadLines(EmptyProjection, lines) == Err(RowError(ReplayError(1, InvalidRow)))
  {
    var lines := [Object(Malformed(None)), BadJson];
    assert !Readable(lines[1]) && Readable(lines[0]);
    assert FirstUnreadable(lines) == 1;
  }

  /** State of the lenient observer reader. integrity is the first complaint. */
  datatype Lenient = Lenient(
    parsed: seq<Record>, fold: Fold, broken: set<string>, integrity: Option<ReadError>, stopped: bool)

  const LenientStart := Lenient([], EmptyFold, {}, None, false)

  function Complain(s: Lenient, e: ReadError): Lenient {
    if s.integrity.Some? then s else s.(integrity := Some(e))
  }

  function NamedEffect(row: Row): Option<string> {
    match row
    case Malformed(id) => id
    case Entry(_, fields) => Some(fields.Id())
  }

  predicate KnownOperation(row: Row) { row.Entry? && !row.operation.OtherOperation? }

  /** One line of the lenient reader: a bad row is skipped and the effect it names is
      quarantined for the rest of the read. */
  function LenientLine(s: Lenient, line: Line): Lenient {
    if s.stopped then s
    else
      match line
      case Blank => s
      case BadEncoding => Complain(s, LineError(0, line)).(stopped := true)
      case BadJson => Complain(s, LineError(0, line))
      case NotObject => Complain(s, LineError(0, line))
      case Object(row) =>
        var decoded := Decode(row);
        if decoded.Some? && KnownOperation(row) && decoded.value.Id() !in s.broken && FoldRow(s.fold, row).Ok? then
          s.(parsed := s.parsed + [decoded.value], fold := FoldRow(s.fold, row).value)
        else
          var named := NamedEffect(row);
          Complain(s, RowError(ReplayError(0, InvalidRow))).(
            broken := if named.Some? then s.broken + {named.value} else s.broken)
  }

  function LenientRead(lines: seq<Line>): Lenient {
    if lines == [] then LenientStart else LenientLine(LenientRead(Front(lines)), Last(lines))
  }

  /** What the observer is told: all rows, or nothing but the complaint. */
  function ObserverHistory(lines: seq<Line>): Result<seq<Record>, ReadError> {
    var s := LenientRead(lines);
    if s.integrity.Some? then Err(s.integrity.value) else Ok(s.parsed)
  }

  /** The last row of a history that belongs to an effect. */
  function LatestOf(history: seq<Record>, id: string): Option<Record> {
    if history == [] then None
    else if Last(history).Id() == id then Some(Last(history))
    else LatestOf(Front(history), id)
  }

  /** While it has nothing to complain about, the lenient reader holds exactly the strict
      maps; once it complains, the strict reader has failed. */
  lemma {:induction false} LenientTracksStrict(lines: seq<Line>)
    ensures LenientRead(lines).integrity.None? <==> ReadLines(EmptyProjection, lines).Ok?
    ensures LenientRead(lines).integrity.None? ==>
              && !LenientRead(lines).stopped
              && LenientRead(lines).broken == {}
              && LenientRead(lines).fold == ReadLines(EmptyProjection, lines).value.fold
              && (forall id :: LatestOf(LenientRead(lines).parsed, id) ==
                    if id in LenientRead(lines).fold.records then Some(LenientRead(lines).fold.records[id]) else None)
  {
    if lines != [] {
      var before, line := Front(lines), Last(lines);
      LenientTracksStrict(before);
      SplitLast(lines);
      ReadOneMore(EmptyProjection, before, line);
      var s := LenientRead(before);
      if s.integrity.None? && line.Object? && FoldRow(s.fold, line.row).Ok? {
        UnknownOperationIsRejected(s.fold, line.row);
        FrontOfAppend(s.parsed, Decode(line.row).value);
      }
    }
  }

  lemma UnknownOperationIsRejected(f: Fold, row: Row)
    requires FoldRow(f, row).Ok?
    ensures KnownOperation(row) && Decode(row).Some?
  {
  }

  /** Lenient and strict readers agree: the observer gets no integrity code exactly when the
      locked replay succeeds, and then the last row it is shown for each effect is the
      replayed record, and effects without a record have no row. */
  lemma ObserverAgreesWithReplay(lines: seq<Line>)
    ensures ObserverHistory(lines).Ok? <==> ReadLocked(lines).Ok?
    ensures ObserverHistory(lines).Ok? ==>
              forall id :: LatestOf(ObserverHistory(lines).value, id) ==
                if id in ReadLocked(lines).value.records then Some(ReadLocked(lines).value.records[id]) else None
  {
    LenientTracksStrict(lines);
    LockedAgreesWithLockFree(lines);
  }

  /** Quarantine: once a row of an effect is refused, no later row of that effect is ever
      taken, so a broken chain cannot end in a verified record. */
  lemma {:induction false} QuarantineIsPermanent(lines: seq<Line>, n: nat, id: string)
    requires n <= |lines| && id in LenientRead(lines[..n]).broken
    ensures id in LenientRead(lines).broken
    ensures LatestOf(LenientRead(lines).parsed, id) == LatestOf(LenientRead(lines[..n]).parsed, id)
    decreases |lines|
  {
    if n == |lines| {
      assert lines[..n] == lines;
    } else {
      assert Front(lines)[..n] == lines[..n];
      QuarantineIsPermanent(Front(lines), n, id);
      var s, line := LenientRead(Front(lines)), Last(lines);
      if line.Object? && Decode(line.row).Some? {
        FrontOfAppend(s.parsed, Decode(line.row).value);
      }
    }
  }

  /** The code the observer is given stands for the strict reader's first error: the line that is no
      JSON object, or a row that does not follow. Errors after it change nothing. */
  lemma {:induction false} ComplaintIsFirstError(lines: seq<Line>)
    ensures LenientRead(lines).integrity ==
            match ReadLines(EmptyProjection, lines)
            case Ok(_) => None
            case Err(LineError(_, what)) => Some(LineError(0, what))
            case Err(RowError(_)) => Some(RowError(ReplayError(0, InvalidRow)))
  {
    hide FoldRow;
    if lines != [] {
      ComplaintIsFirstError(Front(lines));
      LenientTracksStrict(Front(lines));
      LenientTracksStrict(lines);
      SplitLast(lines);
      ReadOneMore(EmptyProjection, Front(lines), Last(lines));
    }
  }

  /** The read goes on over bad lines and bad rows; only a line of undecodable bytes ends it. */
  lemma {:induction false} StoppedIff(lines: seq<Line>)
    ensures LenientRead(lines).stopped <==> exists line :: line in lines && line.BadEncoding?
  {
    if lines != [] {
      StoppedIff(Front(lines));
      SplitLast(lines);
    }
  }

  /** A row that cannot be read or does not follow breaks the effect it names: no row of that effect is
      taken from there on. */
  lemma BadRowBreaksItsEffect(lines: seq<Line>, k: nat, id: string)
    requires k < |lines| && lines[k].Object? && forall line <- lines[..k] :: !line.BadEncoding?
    requires lines[k].row == Malformed(Some(id)) || (lines[k].row.Entry? && lines[k].row.fields.identity.effectId == id)
    requires FoldRow(LenientRead(lines[..k]).fold, lines[k].row).Err?
    ensures LatestOf(LenientRead(lines).parsed, id) == LatestOf(LenientRead(lines[..k]).parsed, id)
  {
    hide FoldRow;
    StoppedIff(lines[..k]);
    assert Front(lines[..k + 1]) == lines[..k] && Last(lines[..k + 1]) == lines[k];
    QuarantineIsPermanent(lines, k + 1, id);
  }

  /** The lenient reader's loop over the file. */
  method ReadHistoryLockFree(lines: seq<Line>) returns (r: Result<seq<Record>, ReadError>)
    ensures r == ObserverHistory(lines)
  {
    var parsed: seq<Record> := [];
    var records: map<string, Record>, keys: map<string, string> := map[], map[];
    var broken: set<string> := {};
    var integrity: Option<ReadError> := None;
    var i := 0;
    while i < |lines|
      invariant 0 <= i <= |lines|
      invariant LenientRead(lines[..i]) == Lenient(parsed, Fold(records, keys), broken, integrity, false)
    {
      var line := lines[i];
      assert Front(lines[..i + 1]) == lines[..i];
      i := i + 1;
      if line.Blank? { continue; }
      if line.BadEncoding? {
        integrity := if integrity.Some? then integrity else Some(LineError(0, line));
        StoppedStays(lines, i);
        return Err(integrity.value);
      }
      if line.BadJson? || line.NotObject? {
        integrity := if integrity.Some? then integrity else Some(LineError(0, line));
        continue;
      }
      var row := line.row;
      var decoded := Decode(row);
      var accepted := false;
      if decoded.Some? && KnownOperation(row) && decoded.value.Id() !in broken {
        match FoldRow(Fold(records, keys), row)
        case Err(_) =>
        case Ok(f) =>
          accepted := true;
          parsed := parsed + [decoded.value];
          records, keys := f.records, f.keys;
      }
      if !accepted {
        integrity := if integrity.Some? then integrity else Some(RowError(ReplayError(0, InvalidRow)));
        var named := NamedEffect(row);
        if named.Some? { broken := broken + {named.value}; }
      }
    }
    assert lines[..i] == lines;
    if integrity.Some? { return Err(integrity.value); }
    return Ok(parsed);
  }

  lemma {:induction false} StoppedStays(lines: seq<Line>, n: nat)
    requires n <= |lines| && LenientRead(lines[..n]).stopped
    ensures LenientRead(lines) == LenientRead(lines[..n])
    decreases |lines|
  {
    if n == |lines| {
      assert lines[..n] == lines;
    } else {
      assert Front(lines)[..n] == lines[..n];
      StoppedStays(Front(lines), n);
    }
  }
}
