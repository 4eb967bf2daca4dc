/** The incremental lock-free projection of the effect ledger: cached maps, a stat
    signature, and bytes that other processes keep appending while the reader works
    (moonbite_plugin/effects.py:824-1072). SHA-256 digests are modelled as equality of the
    bytes they cover. */
module EffectCache {
  import opened Basics
  import opened EffectModel
  import opened EffectReaders

  newtype byte = b: int | 0 <= b < 256
  type Bytes = seq<byte>
  type Decoder = Bytes -> Line

  const NEWLINE: byte := 10
  const RETURN: byte := 13

  // ---- bytes and lines -------------------------------------------------------------

  /** Index of the first line terminator, or the length. */
  function BreakAt(data: Bytes): (n: nat)
    ensures n <= |data|
    ensures forall i :: 0 <= i < n ==> data[i] != NEWLINE && data[i] != RETURN
    ensures n < |data| ==> data[n] == NEWLINE || data[n] == RETURN
  {
    if data == [] || data[0] == NEWLINE || data[0] == RETURN then 0 else 1 + BreakAt(data[1..])
  }

  /** A carriage return followed by a newline is one terminator. */
  function BreakEnd(data: Bytes): (n: nat)
    requires BreakAt(data) < |data|
    ensures BreakAt(data) < n <= |data|
  {
    var i := BreakAt(data);
    if data[i] == RETURN && i + 1 < |data| && data[i + 1] == NEWLINE then i + 2 else i + 1
  }

  function SplitLines(data: Bytes): seq<Bytes>
    decreases |data|
  {
    if data == [] then []
    else if BreakAt(data) == |data| then [data]
    else [data[..BreakAt(data)]] + SplitLines(data[BreakEnd(data)..])
  }

  predicate Unbroken(line: Bytes) { NEWLINE !in line && RETURN !in line }

  /** A newline, a carriage return, or one after the other ends a line; the rest is split by itself. */
  lemma LineEnds(line: Bytes, rest: Bytes)
    requires Unbroken(line)
    ensures SplitLines(line + [NEWLINE] + rest) == [line] + SplitLines(rest)
    ensures SplitLines(line + [RETURN, NEWLINE] + rest) == [line] + SplitLines(rest)
    ensures rest == [] || rest[0] != NEWLINE ==> SplitLines(line + [RETURN] + rest) == [line] + SplitLines(rest)
    ensures line != [] ==> SplitLines(line) == [line]
  {
    BreakAfter(line, [NEWLINE] + rest);
    BreakAfter(line, [RETURN, NEWLINE] + rest);
    BreakAfter(line, [RETURN] + rest);
    var a, b, c := line + [NEWLINE] + rest, line + [RETURN, NEWLINE] + rest, line + [RETURN] + rest;
    assert a == line + ([NEWLINE] + rest) && b == line + ([RETURN, NEWLINE] + rest) && c == line + ([RETURN] + rest);
    assert a[|line| + 1..] == rest && b[|line| + 2..] == rest && c[|line| + 1..] == rest;
    assert a[..|line|] == line && b[..|line|] == line && c[..|line|] == line;
    if line != [] { BreakAfter(line, []); }
    assert line + [] == line;
  }

  lemma BreakAfter(line: Bytes, rest: Bytes)
    requires Unbroken(line) && (rest == [] || rest[0] == NEWLINE || rest[0] == RETURN)
    ensures BreakAt(line + rest) == |line|
  {
    var data := line + rest;
    assert forall i :: 0 <= i < |line| ==> data[i] == line[i] && line[i] in line;
    if rest != [] { assert data[|line|] == rest[0]; }
  }

  /** Length up to and including the last newline: the complete-line prefix. */
  function CompleteLength(data: Bytes): (n: nat)
    ensures n <= |data|
    ensures n > 0 ==> data[n - 1] == NEWLINE
    ensures forall i :: n <= i < |data| ==> data[i] != NEWLINE
  {
    if data == [] then 0
    else if Last(data) == NEWLINE then |data|
    else CompleteLength(Front(data))
  }

  predicate Closed(data: Bytes) { data == [] || Last(data) == NEWLINE }

  lemma BreakIgnoresSuffix(a: Bytes, b: Bytes)
    requires BreakAt(a) < |a| && Last(a) == NEWLINE
    ensures BreakAt(a + b) == BreakAt(a) && BreakEnd(a + b) == BreakEnd(a)
  {
    var n, m := BreakAt(a), BreakAt(a + b);
    assert (a + b)[n] == a[n];
    assert forall i :: 0 <= i < n ==> (a + b)[i] == a[i];
    assert m == n;
    if a[n] == RETURN { assert n + 1 < |a| && (a + b)[n + 1] == a[n + 1]; }
  }

  /** Splitting can resume after any newline. */
  lemma {:induction false} SplitResumes(a: Bytes, b: Bytes)
    requires Closed(a)
    ensures SplitLines(a + b) == SplitLines(a) + SplitLines(b)
    decreases |a|
  {
    if a == [] {
      assert a + b == b;
    } else {
      assert BreakAt(a) < |a| by { assert a[|a| - 1] == NEWLINE; }
      BreakIgnoresSuffix(a, b);
      var e := BreakEnd(a);
      assert (a + b)[e..] == a[e..] + b;
      assert (a + b)[..BreakAt(a)] == a[..BreakAt(a)];
      SplitResumes(a[e..], b);
    }
  }

  lemma CompleteOfConcat(a: Bytes, b: Bytes)
    requires Closed(a)
    ensures (a + b)[..CompleteLength(a + b)] == a + b[..CompleteLength(b)]
  {
    var n, m := CompleteLength(a + b), CompleteLength(b);
    var k := |a| + m;
    if m > 0 { assert (a + b)[k - 1] == b[m - 1]; } else if a != [] { assert (a + b)[|a| - 1] == NEWLINE; }
    assert k > 0 ==> (a + b)[k - 1] == NEWLINE;
    assert forall i :: k <= i < |a + b| ==> (a + b)[i] == b[i - |a|];
    assert n == k;
  }

  function DecodeAll(decode: Decoder, lines: seq<Bytes>): seq<Line> {
    seq(|lines|, i requires 0 <= i < |lines| => decode(lines[i]))
  }

  /** From-scratch fold of the complete-line prefix of some bytes. */
  function Project(decode: Decoder, data: Bytes): Result<Projection, ReadError> {
    ReadLines(EmptyProjection, DecodeAll(decode, SplitLines(data[..CompleteLength(data)])))
  }

  /** What a reader must answer for a file with this content. */
  function View(decode: Decoder, content: Option<Bytes>): Result<map<string, Record>, ReadError> {
    match content
    case None => Ok(map[])
    case Some(data) =>
      match Project(decode, data)
      case Err(e) => Err(e)
      case Ok(p) => Ok(p.fold.records)
  }

  lemma EmptyIsComplete()
    ensures CompleteLength([]) == 0
  {
  }

  /** Folding the complete tail on top of a projected prefix is folding the whole. */
  lemma ProjectResumes(decode: Decoder, prefix: Bytes, tail: Bytes, p: Projection)
    requires Closed(prefix) && Project(decode, prefix) == Ok(p)
    ensures Project(decode, prefix + tail) ==
            ReadLines(p, DecodeAll(decode, SplitLines(tail[..CompleteLength(tail)])))
  {
    hide ReadLines, SplitLines, CompleteLength;
    var complete := tail[..CompleteLength(tail)];
    CompleteOfConcat(prefix, tail);
    CompleteOfConcat(prefix, []);
    EmptyIsComplete();
    assert prefix + [] == prefix && prefix[..CompleteLength(prefix)] == prefix;
    SplitResumes(prefix, complete);
    assert DecodeAll(decode, SplitLines(prefix + complete))
        == DecodeAll(decode, SplitLines(prefix)) + DecodeAll(decode, SplitLines(complete));
    ReadLinesResumes(EmptyProjection, DecodeAll(decode, SplitLines(prefix)), DecodeAll(decode, SplitLines(complete)));
  }

  // ---- the file and its environment ------------------------------------------------

  datatype Signature = Missing | Unreadable | Stat(device: int, inode: int, size: nat, mtime: int)

  /** One instant of the file: its bytes, if it exists, and what stat reports. */
  datatype Moment = Moment(content: Option<Bytes>, signature: Signature)

  predicate Grows(before: Option<Bytes>, after: Option<Bytes>) {
    before.Some? ==> after.Some? && before.value <= after.value
  }

  /** Stat reports existence and size truthfully, and equal signatures mean equal bytes. */
  ghost predicate Faithful(timeline: seq<Moment>) {
    && (forall m <- timeline ::
          match m.content
          case None => m.signature.Missing?
          case Some(data) => m.signature.Stat? && m.signature.size == |data|)
    && (forall i, j :: 0 <= i < |timeline| && 0 <= j < |timeline| && timeline[i].signature == timeline[j].signature ==>
          timeline[i].content == timeline[j].content)
  }

  /** The file as other processes move it along an arbitrary timeline. Up to `quiet` the
      file only grows; anything may have happened to it before `at`. */
  class LedgerFile {
    const timeline: seq<Moment>
    var at: nat
    var quiet: nat

    constructor (timeline: seq<Moment>, at: nat, quiet: nat)
      requires at <= quiet < |timeline| && Faithful(timeline)
      requires forall i, j :: at <= i <= j <= quiet ==> Grows(timeline[i].content, timeline[j].content)
      ensures Valid() && this.timeline == timeline && this.at == at && this.quiet == quiet
    {
      this.timeline := timeline;
      this.at := at;
      this.quiet := quiet;
    }

    ghost predicate Valid()
      reads this
    {
      && at <= quiet < |timeline|
      && Faithful(timeline)
      && forall i, j :: at <= i <= j <= quiet ==> Grows(timeline[i].content, timeline[j].content)
    }

    /** Any number of whole or torn appends by other processes. */
    method Elapse()
      requires Valid()
      modifies this`at
      ensures Valid() && old(at) <= at
    {
      var later: nat :| at <= later <= quiet;
      at := later;
    }

    /** A stat call; an unreadable stat may happen at any time. */
    method ReadSignature() returns (s: Signature)
      requires Valid()
      modifies this`at
      ensures Valid() && old(at) <= at
      ensures s == Unreadable || s == timeline[at].signature
    {
      Elapse();
      var unreadable: bool := *;
      if unreadable { return Unreadable; }
      return timeline[at].signature;
    }

    /** One read call on an open file: bytes from a position, at most `limit` of them. */
    method ReadAt(position: nat, limit: Option<nat>) returns (data: Option<Bytes>)
      requires Valid()
      modifies this`at
      ensures Valid() && old(at) <= at
      ensures timeline[at].content.None? <==> data.None?
      ensures data.Some? ==>
                var content := timeline[at].content.value;
                var start := if position <= |content| then position else |content|;
                var end := if limit.Some? && start + limit.value <= |content| then start + limit.value else |content|;
                data.value == content[start..end]
    {
      Elapse();
      if timeline[at].content.None? { return None; }
      var content := timeline[at].content.value;
      var start := if position <= |content| then position else |content|;
      var end := if limit.Some? && start + limit.value <= |content| then start + limit.value else |content|;
      return Some(content[start..end]);
    }
  }

  // ---- the cached reader -----------------------------------------------------------

  const CHUNK: nat := 0x100000

  datatype Cache = Cache(signature: Signature, projection: Projection, prefix: Bytes)

  datatype Read = Absent | Raised(error: ReadError) | Fresh(projection: Projection, partial: bool, prefix: Bytes)

  /** A read that tells exactly what the file held at one instant. */
  predicate Tells(decode: Decoder, r: Read, content: Option<Bytes>) {
    match content
    case None => r.Absent?
    case Some(data) =>
      match Project(decode, data)
      case Err(e) => r == Raised(e)
      case Ok(p) => r == Fresh(p, CompleteLength(data) < |data|, data[..CompleteLength(data)])
  }

  /** The same signature at both ends of a stretch of growth: nothing happened in between. */
  lemma NothingInBetween(timeline: seq<Moment>, i: nat, k: nat, j: nat)
    requires i < |timeline| && k < |timeline| && j < |timeline| && Faithful(timeline)
    requires Grows(timeline[i].content, timeline[k].content) && Grows(timeline[k].content, timeline[j].content)
    requires timeline[i].signature == timeline[j].signature && timeline[i].signature.Stat?
    ensures timeline[k].content == timeline[i].content
  {
    assert timeline[i].content == timeline[j].content && timeline[i] in timeline;
    var a, b := timeline[i].content.value, timeline[k].content.value;
    assert a <= b <= a;
    assert |a| == |b| && b == b[..|b|] == a;
  }

  lemma SameLengthPrefixes(a: Bytes, b: Bytes, data: Bytes)
    requires a <= data && b <= data && |a| == |b|
    ensures a == b
  {
    assert a == data[..|a|] && b == data[..|b|];
  }

  /** Decoding errors are not among those that make the incremental read fall back. */
  predicate PassedOn(e: ReadError) { e.LineError? && e.what.BadEncoding? }

  class CachedReader {
    const decode: Decoder
    var cache: Option<Cache>

    constructor (decode: Decoder)
      ensures this.decode == decode && cache.None?
    {
      this.decode := decode;
      cache := None;
    }

    /** Cache invariant: the signature belongs to some instant of the file, and maps, line
        count, row count and digest are those of exactly that instant's bytes, which end
        in a complete line. */
    ghost predicate Sound(timeline: seq<Moment>)
      reads this
    {
      cache.Some? ==>
        && Closed(cache.value.prefix)
        && Project(decode, cache.value.prefix) == Ok(cache.value.projection)
        && cache.value.signature.Stat?
        && cache.value.signature.size == |cache.value.prefix|
        && exists i :: 0 <= i < |timeline|
             && timeline[i] == Moment(Some(cache.value.prefix), cache.value.signature)
    }

    method FoldLines(start: Projection, lines: seq<Bytes>) returns (r: Result<Projection, ReadError>)
      ensures r == ReadLines(start, DecodeAll(decode, lines))
    {
      var p := start;
      ghost var all := DecodeAll(decode, lines);
      for i := 0 to |lines|
        invariant ReadLines(start, all) == ReadLines(p, all[i..])
      {
        var line := decode(lines[i]);
        assert all[i..][0] == line && all[i..][1..] == all[i + 1..];
        match ReadLine(p, line)
        case Err(e) => return Err(e);
        case Ok(q) => p := q;
      }
      return Ok(p);
    }

    method ReadLockFree(file: LedgerFile) returns (r: Read)
      requires file.Valid()
      modifies file`at
      ensures file.Valid() && old(file.at) <= file.at
      ensures Tells(decode, r, file.timeline[file.at].content)
    {
      var data := file.ReadAt(0, None);
      if data.None? { return Absent; }
      assert data.value == file.timeline[file.at].content.value;
      var boundary := CompleteLength(data.value);
      var folded := FoldLines(EmptyProjection, SplitLines(data.value[..boundary]));
      if folded.Err? { return Raised(folded.error); }
      return Fresh(folded.value, boundary < |data.value|, data.value[..boundary]);
    }

    /** The incremental read applies to this content: the cached bytes are its prefix, and what
        follows them folds, or fails with the one error the code lets through. */
    ghost predicate Extends(cached: Cache, content: Option<Bytes>)
    {
      && content.Some? && cached.prefix <= content.value
      && match Project(decode, content.value)
         case Ok(_) => true
         case Err(e) => PassedOn(e)
    }

    /** Prove the cached prefix intact chunk by chunk, then fold only the new lines. None means:
        fall back to a full read, and that is the answer exactly when the incremental read does
        not apply to what the file holds. */
    method FoldAppendedRows(file: LedgerFile, cached: Cache) returns (r: Option<Read>)
      requires file.Valid() && Sound(file.timeline) && cache == Some(cached)
      modifies file`at
      ensures file.Valid() && old(file.at) <= file.at
      ensures r.Some? <==> Extends(cached, file.timeline[file.at].content)
      ensures r.Some? ==> Tells(decode, r.value, file.timeline[file.at].content)
    {
      hide ReadLines, DecodeAll, SplitLines, CompleteLength, Project;
      var verified: Bytes := [];
      var remaining := cached.signature.size;
      while remaining > 0
        invariant file.Valid() && old(file.at) <= file.at
        invariant 0 <= remaining && |verified| + remaining == cached.signature.size
        invariant verified != [] ==> file.timeline[file.at].content.Some? && verified <= file.timeline[file.at].content.value
        invariant remaining > 0 ==> |verified| < |cached.prefix|
      {
        ghost var before := file.at;
        var chunk := file.ReadAt(|verified|, Some(if remaining < CHUNK then remaining else CHUNK));
        if chunk.None? { return None; }
        if chunk.value == [] { break; }
        assert Grows(file.timeline[before].content, file.timeline[file.at].content);
        verified := verified + chunk.value;
        remaining := remaining - |chunk.value|;
      }
      if remaining > 0 { return None; }
      if verified != cached.prefix {
        if file.timeline[file.at].content.Some? && cached.prefix <= file.timeline[file.at].content.value {
          SameLengthPrefixes(verified, cached.prefix, file.timeline[file.at].content.value);
        }
        return None;
      }
      r := FoldTail(file, cached);
    }

    /** The cached prefix is known to be intact: fold what follows it. */
    method FoldTail(file: LedgerFile, cached: Cache) returns (r: Option<Read>)
      requires file.Valid() && Sound(file.timeline) && cache == Some(cached)
      requires cached.prefix != [] ==>
                 file.timeline[file.at].content.Some? && cached.prefix <= file.timeline[file.at].content.value
      modifies file`at
      ensures file.Valid() && old(file.at) <= file.at
      ensures r.Some? <==> Extends(cached, file.timeline[file.at].content)
      ensures r.Some? ==> Tells(decode, r.value, file.timeline[file.at].content)
    {
      hide ReadLines, DecodeAll, SplitLines, CompleteLength, Project, Tells, Extends;
      ghost var before := file.at;
      var tail := file.ReadAt(|cached.prefix|, None);
      if tail.None? {
        NothingExtended(cached, None);
        return None;
      }
      assert Grows(file.timeline[before].content, file.timeline[file.at].content);
      ghost var data := file.timeline[file.at].content.value;
      assert data == cached.prefix + tail.value;
      var boundary := CompleteLength(tail.value);
      var folded := FoldLines(cached.projection, SplitLines(tail.value[..boundary]));
      TailTells(cached, tail.value, folded);
      if folded.Err? {
        // Only ledger errors are caught; an undecodable line is raised from here.
        return if PassedOn(folded.error) then Some(Raised(folded.error)) else None;
      }
      return Some(Fresh(folded.value, boundary < |tail.value|, cached.prefix + tail.value[..boundary]));
    }

    lemma NothingExtended(cached: Cache, content: Option<Bytes>)
      requires content.None?
      ensures !Extends(cached, content)
    {
    }

    /** What folding the tail onto the cached projection tells about the whole file. */
    lemma TailTells(cached: Cache, tail: Bytes, folded: Result<Projection, ReadError>)
      requires Closed(cached.prefix) && Project(decode, cached.prefix) == Ok(cached.projection)
      requires folded == ReadLines(cached.projection, DecodeAll(decode, SplitLines(tail[..CompleteLength(tail)])))
      ensures var content := Some(cached.prefix + tail);
              match folded
              case Ok(p) =>
                var n := CompleteLength(tail);
                Extends(cached, content) && Tells(decode, Fresh(p, n < |tail|, cached.prefix + tail[..n]), content)
              case Err(e) => (Extends(cached, content) <==> PassedOn(e)) && Tells(decode, Raised(e), content)
    {
      hide ReadLines, DecodeAll, SplitLines, CompleteLength, Project;
      ProjectResumes(decode, cached.prefix, tail, cached.projection);
      CompleteOfConcat(cached.prefix, tail);
    }

    method Reread(file: LedgerFile, signature: Signature) returns (r: Read)
      requires file.Valid() && Sound(file.timeline)
      modifies file`at
      ensures file.Valid() && old(file.at) <= file.at
      ensures Tells(decode, r, file.timeline[file.at].content)
    {
      if && cache.Some? && signature.Stat?
         && signature.device == cache.value.signature.device && signature.inode == cache.value.signature.inode
         && signature.size > cache.value.signature.size
      {
        var merged := FoldAppendedRows(file, cache.value);
        if merged.Some? { return merged.value; }
      }
      r := ReadLockFree(file);
    }

    /** Cached reads are linearizable: the answer, or the error with its row or line number,
        is that of a from-scratch fold of the file's complete lines at one instant during
        the call, and whatever is left in the cache is sound. */
    method ReadOnlyRecords(file: LedgerFile) returns (r: Result<map<string, Record>, ReadError>)
      requires file.Valid() && Sound(file.timeline)
      modifies file`at, this`cache
      ensures file.Valid() && old(file.at) <= file.at
      ensures Sound(file.timeline)
      ensures exists i :: old(file.at) <= i <= file.at && r == View(decode, file.timeline[i].content)
      ensures cache == old(cache) || (cache.Some? && r == Ok(cache.value.projection.fold.records))
    {
      hide SplitLines, Project, CompleteLength;
      var signature := file.ReadSignature();
      ghost var first := file.at;
      if signature.Missing? {
        assert file.timeline[first] in file.timeline;
        return Ok(map[]);
      }
      if cache.Some? && cache.value.signature == signature {
        assert file.timeline[first].content == Some(cache.value.prefix);
        r := Ok(cache.value.projection.fold.records);
        assert r == View(decode, file.timeline[first].content);
        return;
      }
      var read := Reread(file, signature);
      ghost var taken := file.at;
      assert Grows(file.timeline[first].content, file.timeline[taken].content);
      r := if read.Absent? then Ok(map[]) else if read.Raised? then Err(read.error)
           else Ok(read.projection.fold.records);
      assert r == View(decode, file.timeline[taken].content);
      if read.Fresh? && !read.partial {
        var again := file.ReadSignature();
        assert Grows(file.timeline[taken].content, file.timeline[file.at].content);
        if signature.Stat? && again == signature {
          NothingInBetween(file.timeline, first, taken, file.at);
          Store(file.timeline, first, signature, read);
        }
      }
    }

    method Store(ghost timeline: seq<Moment>, ghost moment: nat, signature: Signature, read: Read)
      requires Faithful(timeline) && moment < |timeline| && timeline[moment].signature == signature && signature.Stat?
      requires timeline[moment].content.Some? && Tells(decode, read, timeline[moment].content)
      requires read.Fresh? && !read.partial
      modifies this`cache
      ensures Sound(timeline)
      ensures cache == Some(Cache(signature, read.projection, read.prefix))
    {
      ghost var data := timeline[moment].content.value;
      assert timeline[moment] in timeline;
      assert data[..|data|] == data;
      assert read.prefix == data;
      cache := Some(Cache(signature, read.projection, read.prefix));
      assert timeline[moment] == Moment(Some(read.prefix), signature);
    }
  }
}
