/** Provider admission: the reproducible weighted draw, and the execution history that limits
    are judged by (moonbite_plugin/_autonomy/admission.py:12-115, 383-406). */
module Admission {
  import opened Basics
  import opened Orders

  datatype Candidate = Candidate(name: string, weight: nat)

  // ---- sorting candidates ------------------------------------------------------------

  /** Pairs sort by name, then weight. */
  predicate AtMost(a: Candidate, b: Candidate) {
    if a.name == b.name then a.weight <= b.weight else StringLE(a.name, b.name)
  }

  lemma AtMostIsTotal(a: Candidate, b: Candidate)
    ensures AtMost(a, b) || AtMost(b, a)
    ensures AtMost(a, b) && AtMost(b, a) ==> a == b
  {
    StringLEIsTotal(a.name, b.name);
    if StringLE(a.name, b.name) && StringLE(b.name, a.name) { StringLEIsAntisymmetric(a.name, b.name); }
  }

  lemma AtMostIsTransitive(a: Candidate, b: Candidate, c: Candidate)
    requires AtMost(a, b) && AtMost(b, c)
    ensures AtMost(a, c)
  {
    if StringLE(a.name, b.name) && StringLE(b.name, c.name) { StringLEIsTransitive(a.name, b.name, c.name); }
    if a.name == c.name && a.name != b.name { StringLEIsAntisymmetric(a.name, b.name); }
  }

  predicate Sorted(cs: seq<Candidate>) {
    forall i, j :: 0 <= i < j < |cs| ==> AtMost(cs[i], cs[j])
  }

  function Insert(cs: seq<Candidate>, c: Candidate): (r: seq<Candidate>)
    requires Sorted(cs)
    ensures Sorted(r) && multiset(r) == multiset(cs) + multiset{c}
  {
    if cs == [] then [c]
    else if AtMost(c, cs[0]) then
      HeadIsLeast(cs, c);
      [c] + cs
    else
      var rest := Insert(cs[1..], c);
      assert cs == [cs[0]] + cs[1..];
      AtMostIsTotal(c, cs[0]);
      Cons(cs[0], rest, cs, c);
      [cs[0]] + rest
  }

  lemma HeadIsLeast(cs: seq<Candidate>, c: Candidate)
    requires Sorted(cs) && cs != [] && AtMost(c, cs[0])
    ensures Sorted([c] + cs)
  {
    forall j | 0 <= j < |cs| ensures AtMost(c, cs[j]) {
      if j > 0 { AtMostIsTransitive(c, cs[0], cs[j]); }
    }
  }

  lemma Cons(head: Candidate, rest: seq<Candidate>, cs: seq<Candidate>, c: Candidate)
    requires Sorted(rest) && Sorted(cs) && cs != [] && head == cs[0] && AtMost(head, c)
    requires multiset(rest) == multiset(cs[1..]) + multiset{c}
    ensures Sorted([head] + rest)
  {
    forall j | 0 <= j < |rest| ensures AtMost(head, rest[j]) {
      assert rest[j] in multiset(rest);
      if rest[j] != c {
        assert rest[j] in cs[1..];
      }
    }
  }

  /** The candidates in the one order every caller agrees on. */
  function Ordered(cs: seq<Candidate>): (r: seq<Candidate>)
    ensures Sorted(r) && multiset(r) == multiset(cs)
  {
    if cs == [] then []
    else
      SplitLast(cs);
      Insert(Ordered(Front(cs)), Last(cs))
  }

  lemma LeastIsFirst(a: seq<Candidate>, c: Candidate)
    requires Sorted(a) && a != [] && c in multiset(a)
    ensures AtMost(a[0], c)
  {
    var i :| 0 <= i < |a| && a[i] == c;
    AtMostIsTotal(c, c);
  }

  lemma SameHead(a: seq<Candidate>, b: seq<Candidate>)
    requires Sorted(a) && Sorted(b) && multiset(a) == multiset(b) && a != [] && b != []
    ensures a[0] == b[0] && multiset(a[1..]) == multiset(b[1..])
  {
    hide AtMost;
    assert a[0] in multiset(a) && b[0] in multiset(b);
    LeastIsFirst(a, b[0]);
    LeastIsFirst(b, a[0]);
    AtMostIsTotal(a[0], b[0]);
    assert a == [a[0]] + a[1..] && b == [b[0]] + b[1..];
    assert multiset(a[1..]) == multiset(a) - multiset{a[0]};
    assert multiset(b[1..]) == multiset(b) - multiset{b[0]};
  }

  /** A sorted arrangement is determined by its elements. */
  lemma {:induction false} SortedIsUnique(a: seq<Candidate>, b: seq<Candidate>)
    requires Sorted(a) && Sorted(b) && multiset(a) == multiset(b)
    ensures a == b
  {
    hide AtMost;
    assert |multiset(a)| == |a| && |multiset(b)| == |b|;
    if a != [] {
      SameHead(a, b);
      SortedIsUnique(a[1..], b[1..]);
      assert a == [a[0]] + a[1..] && b == [b[0]] + b[1..];
    }
  }

  // ---- the weighted draw -------------------------------------------------------------

  function Total(cs: seq<Candidate>): nat { if cs == [] then 0 else cs[0].weight + Total(cs[1..]) }

  function WeightOf(cs: seq<Candidate>, name: string): nat {
    if cs == [] then 0 else (if cs[0].name == name then cs[0].weight else 0) + WeightOf(cs[1..], name)
  }

  /** The name whose stretch of slots contains the slot. */
  function Pick(cs: seq<Candidate>, slot: nat): string
    requires slot < Total(cs)
  {
    if slot < cs[0].weight then cs[0].name else Pick(cs[1..], slot - cs[0].weight)
  }

  /** Only candidates with some weight are ever picked. */
  lemma {:induction false} PickedHasWeight(cs: seq<Candidate>, slot: nat)
    requires slot < Total(cs)
    ensures exists c :: c in cs && c.name == Pick(cs, slot) && c.weight > 0
  {
    if slot < cs[0].weight {
      assert cs[0] in cs;
    } else {
      PickedHasWeight(cs[1..], slot - cs[0].weight);
      var c :| c in cs[1..] && c.name == Pick(cs, slot) && c.weight > 0;
      assert c in cs;
    }
  }

  /** Stretches come in the order of the candidates, each as long as its weight. */
  lemma {:induction false} PickMeans(cs: seq<Candidate>, slot: nat, i: nat)
    requires i < |cs| && Total(cs[..i]) <= slot < Total(cs[..i]) + cs[i].weight
    ensures slot < Total(cs) && Pick(cs, slot) == cs[i].name
    decreases |cs|
  {
    if i > 0 {
      assert cs[..i][0] == cs[0] && cs[..i][1..] == cs[1..][..i - 1];
      PickMeans(cs[1..], slot - cs[0].weight, i - 1);
    }
  }

  /** The candidates are drawn from in the order of their names, and of their weights if a name
      comes twice. */
  lemma OrderedByName(cs: seq<Candidate>)
    ensures var r := Ordered(cs);
            forall i, j :: 0 <= i < j < |r| ==>
              if r[i].name == r[j].name then r[i].weight <= r[j].weight
              else exists k: nat :: DiffersAt(r[i].name, r[j].name, k)
  {
    hide Ordered;
    var r := Ordered(cs);
    forall i, j | 0 <= i < j < |r| && r[i].name != r[j].name ensures exists k: nat :: DiffersAt(r[i].name, r[j].name, k) {
      assert AtMost(r[i], r[j]);
      StringLEMeans(r[i].name, r[j].name);
    }
  }

  /** How many of the first n slots pick a name. */
  function SlotsFor(cs: seq<Candidate>, name: string, n: nat): nat
    requires n <= Total(cs)
  {
    if n == 0 then 0 else SlotsFor(cs, name, n - 1) + (if Pick(cs, n - 1) == name then 1 else 0)
  }

  lemma {:induction false} HeadSlots(cs: seq<Candidate>, name: string, n: nat)
    requires cs != [] && n <= cs[0].weight
    ensures SlotsFor(cs, name, n) == if cs[0].name == name then n else 0
  {
    if n > 0 { HeadSlots(cs, name, n - 1); }
  }

  lemma {:induction false} TailSlots(cs: seq<Candidate>, name: string, n: nat)
    requires cs != [] && n <= Total(cs[1..])
    ensures SlotsFor(cs, name, cs[0].weight + n) ==
            (if cs[0].name == name then cs[0].weight else 0) + SlotsFor(cs[1..], name, n)
  {
    if n == 0 {
      HeadSlots(cs, name, cs[0].weight);
    } else {
      TailSlots(cs, name, n - 1);
      assert Pick(cs, cs[0].weight + n - 1) == Pick(cs[1..], n - 1);
    }
  }

  /** The draw is exact: of all the slots, a name is picked by as many as its weight. */
  lemma {:induction false} DrawIsExact(cs: seq<Candidate>, name: string)
    ensures SlotsFor(cs, name, Total(cs)) == WeightOf(cs, name)
  {
    if cs != [] {
      DrawIsExact(cs[1..], name);
      TailSlots(cs, name, Total(cs[1..]));
    }
  }

  type Digest = (seq<Candidate>, string) -> nat

  /** weighted_selection: the scan always finds a name; the assertion after it is unreachable.
      Only candidates without any weight leave nothing to divide by. */
  method WeightedSelection(candidates: seq<Candidate>, occurrence: string, digest: Digest) returns (r: Option<string>)
    ensures r.None? <==> Total(Ordered(candidates)) == 0
    ensures r.Some? ==>
              var ordered := Ordered(candidates);
              r.value == Pick(ordered, digest(ordered, occurrence) % Total(ordered))
  {
    hide Ordered, Sorted;
    var ordered := Ordered(candidates);
    var total := 0;
    ghost var rest := ordered;
    for i := 0 to |ordered|
      invariant rest == ordered[i..] && total + Total(rest) == Total(ordered)
    {
      total := total + ordered[i].weight;
      rest := rest[1..];
    }
    if total == 0 { return None; }
    var slot: nat := digest(ordered, occurrence) % total;
    ghost var drawn := Pick(ordered, slot);
    rest := ordered;
    for i := 0 to |ordered|
      invariant rest == ordered[i..] && slot < Total(rest) && Pick(rest, slot) == drawn
    {
      if slot < ordered[i].weight { return Some(ordered[i].name); }
      slot := slot - ordered[i].weight;
      rest := rest[1..];
    }
    assert false;
  }

  /** The draw depends on which candidates there are, not on the order they are listed in. */
  lemma DrawIgnoresOrder(a: seq<Candidate>, b: seq<Candidate>)
    requires multiset(a) == multiset(b)
    ensures Ordered(a) == Ordered(b) && Total(Ordered(a)) == Total(a)
  {
    SortedIsUnique(Ordered(a), Ordered(b));
    SortKeepsWeights(a);
  }

  lemma {:induction false} TotalInsert(cs: seq<Candidate>, c: Candidate, name: string)
    requires Sorted(cs)
    ensures Total(Insert(cs, c)) == Total(cs) + c.weight
    ensures WeightOf(Insert(cs, c), name) == WeightOf(cs, name) + if c.name == name then c.weight else 0
  {
    if cs == [] || AtMost(c, cs[0]) {
      assert ([c] + cs)[1..] == cs;
    } else {
      TotalInsert(cs[1..], c, name);
      assert ([cs[0]] + Insert(cs[1..], c))[1..] == Insert(cs[1..], c);
    }
  }

  lemma {:induction false} TotalAppend(cs: seq<Candidate>, c: Candidate, name: string)
    ensures Total(cs + [c]) == Total(cs) + c.weight
    ensures WeightOf(cs + [c], name) == WeightOf(cs, name) + if c.name == name then c.weight else 0
  {
    if cs == [] {
      assert [] + [c] == [c] && [c][1..] == [];
    } else {
      TotalAppend(cs[1..], c, name);
      assert (cs + [c])[1..] == cs[1..] + [c];
    }
  }

  lemma {:induction false} SortKeepsWeights(cs: seq<Candidate>)
    ensures Total(Ordered(cs)) == Total(cs)
    ensures forall name :: WeightOf(Ordered(cs), name) == WeightOf(cs, name)
  {
    if cs != [] {
      SortKeepsWeights(Front(cs));
      SplitLast(cs);
      forall name ensures WeightOf(Ordered(cs), name) == WeightOf(cs, name) && Total(Ordered(cs)) == Total(cs) {
        TotalInsert(Ordered(Front(cs)), Last(cs), name);
        TotalAppend(Front(cs), Last(cs), name);
      }
      assert WeightOf(Ordered(cs), "") == WeightOf(cs, "");
    }
  }

  /** With distinct names the share of a candidate is exactly its own weight, in any order. */
  lemma {:induction false} ShareIsOwnWeight(cs: seq<Candidate>, c: Candidate)
    requires c in cs && forall i, j :: 0 <= i < j < |cs| ==> cs[i].name != cs[j].name
    ensures SlotsFor(Ordered(cs), c.name, Total(Ordered(cs))) == c.weight
  {
    DrawIsExact(Ordered(cs), c.name);
    SortKeepsWeights(cs);
    OwnWeight(cs, c);
  }

  lemma {:induction false} OwnWeight(cs: seq<Candidate>, c: Candidate)
    requires forall i, j :: 0 <= i < j < |cs| ==> cs[i].name != cs[j].name
    ensures c in cs ==> WeightOf(cs, c.name) == c.weight
    ensures (forall d <- cs :: d.name != c.name) ==> WeightOf(cs, c.name) == 0
  {
    if cs != [] {
      OwnWeight(cs[1..], c);
      assert cs == [cs[0]] + cs[1..];
      assert forall d <- cs[1..] :: d in cs;
    }
  }

  // ---- the history limits are judged by ----------------------------------------------

  /** One audit event, and one effect record, as far as admission reads them. */
  datatype AuditEvent = AuditEvent(autonomy: bool, status: string, provider: string, effectId: string, source: string, at: int)

  datatype EffectRecord = EffectRecord(kind: string, effectId: string, provider: string, state: string, source: string, at: int)

  datatype HistoryRow = HistoryRow(provider: string, status: string, effectId: string, source: string, at: int)

  /** An event that telemetry counts; missing providers and effect ids are empty strings. */
  predicate Counted(e: AuditEvent) {
    e.autonomy && e.status in {"completed", "executed_unverified", "failed"} && e.provider != ""
  }

  function FromEvent(e: AuditEvent): HistoryRow { HistoryRow(e.provider, e.status, e.effectId, e.source, e.at) }

  function FromRecord(r: EffectRecord): HistoryRow {
    HistoryRow(r.provider, if r.state == "verified" then "completed" else r.state, r.effectId, r.source, r.at)
  }

  function EventRows(events: seq<AuditEvent>): seq<HistoryRow> {
    if events == [] then []
    else EventRows(Front(events)) + (if Counted(Last(events)) then [FromEvent(Last(events))] else [])
  }

  function SeenEffects(events: seq<AuditEvent>): set<string> {
    set e | e in events && Counted(e) && e.effectId != "" :: e.effectId
  }

  predicate Fills(r: EffectRecord, kind: string, seen: set<string>) {
    r.kind == kind && r.effectId != "" && r.effectId !in seen && r.provider != ""
  }

  function RecordRows(records: seq<EffectRecord>, kind: string, seen: set<string>): seq<HistoryRow> {
    if records == [] then []
    else RecordRows(Front(records), kind, seen) + (if Fills(Last(records), kind, seen) then [FromRecord(Last(records))] else [])
  }

  /** What one more event adds: a completed, unverified or failed run of a named provider counts, with
      its status, effect, source and time as reported. */
  lemma OneMoreEvent(events: seq<AuditEvent>, e: AuditEvent)
    ensures EventRows(events + [e]) == EventRows(events) +
              if e.autonomy && e.provider != "" && (e.status == "completed" || e.status == "executed_unverified" || e.status == "failed")
              then [HistoryRow(e.provider, e.status, e.effectId, e.source, e.at)] else []
  {
    FrontOfAppend(events, e);
  }

  /** What one more record adds: an effect of the kind that telemetry does not speak for, with a
      verified one counted as completed. */
  lemma OneMoreRecord(records: seq<EffectRecord>, r: EffectRecord, kind: string, seen: set<string>)
    ensures RecordRows(records + [r], kind, seen) == RecordRows(records, kind, seen) +
              if r.kind == kind && r.provider != "" && r.effectId != "" && r.effectId !in seen
              then [HistoryRow(r.provider, if r.state == "verified" then "completed" else r.state, r.effectId, r.source, r.at)] else []
  {
    FrontOfAppend(records, r);
  }

  /** Telemetry speaks for the effects named by events that count. */
  lemma SpokenFor(events: seq<AuditEvent>, id: string)
    ensures id in SeenEffects(events) <==>
            id != "" && exists e :: e in events && e.effectId == id && e.autonomy && e.provider != ""
                                    && e.status in {"completed", "executed_unverified", "failed"}
  {
  }

  /** The telemetry rows, and the effects they speak for. */
  method CollectEvents(events: seq<AuditEvent>) returns (rows: seq<HistoryRow>, seen: set<string>)
    ensures rows == EventRows(events) && seen == SeenEffects(events)
  {
    rows, seen := [], {};
    for i := 0 to |events|
      invariant rows == EventRows(events[..i])
      invariant forall id :: id in seen <==> id in SeenEffects(events[..i])
    {
      var e := events[i];
      assert Front(events[..i + 1]) == events[..i];
      assert forall x :: x in events[..i + 1] <==> x in events[..i] || x == e;
      if !Counted(e) { continue; }
      rows := rows + [FromEvent(e)];
      if e.effectId != "" { seen := seen + {e.effectId}; }
    }
    assert events[..|events|] == events;
  }

  /** audit_history: None stands for an unreadable source, and for the raised error. */
  method AuditHistory(audit: Option<seq<AuditEvent>>, ledger: Option<seq<EffectRecord>>, kind: string)
    returns (r: Option<seq<HistoryRow>>)
    ensures var events := if audit.Some? then audit.value else [];
            r == if ledger.Some? then Some(EventRows(events) + RecordRows(ledger.value, kind, SeenEffects(events)))
                 else if EventRows(events) != [] then Some(EventRows(events)) else None
  {
    hide EventRows, SeenEffects, Fills;
    var rows, seen := CollectEvents(if audit.Some? then audit.value else []);
    if ledger.None? {
      if rows != [] { return Some(rows); }
      return None;
    }
    ghost var told := rows;
    var records := ledger.value;
    for i := 0 to |records|
      invariant rows == told + RecordRows(records[..i], kind, seen)
    {
      assert Front(records[..i + 1]) == records[..i];
      if Fills(records[i], kind, seen) { rows := rows + [FromRecord(records[i])]; }
    }
    assert records[..|records|] == records;
    return Some(rows);
  }

  /** A provider's rows without an effect, and the last row of each effect, with the effects in the
      order they were first met. */
  datatype Tally = Tally(anonymous: seq<HistoryRow>, order: seq<string>, latest: map<string, HistoryRow>)

  predicate Belongs(row: HistoryRow, name: string, excluded: Option<string>) {
    row.provider == name && (excluded.None? || row.effectId != excluded.value)
  }

  function TallyOf(rows: seq<HistoryRow>, name: string, excluded: Option<string>): (t: Tally)
    ensures Distinct(t.order) && forall id :: id in t.order <==> id in t.latest
  {
    if rows == [] then Tally([], [], map[])
    else
      var t, row := TallyOf(Front(rows), name, excluded), Last(rows);
      if !Belongs(row, name, excluded) then t
      else if row.effectId == "" then t.(anonymous := t.anonymous + [row])
      else t.(order := if row.effectId in t.latest then t.order else t.order + [row.effectId],
              latest := t.latest[row.effectId := row])
  }

  /** The rows provider_history returns for a tally, in order. */
  function Listing(t: Tally): seq<HistoryRow>
    requires forall id <- t.order :: id in t.latest
  {
    t.anonymous + seq(|t.order|, i requires 0 <= i < |t.order| => t.latest[t.order[i]])
  }

  /** provider_history over rows already collected. */
  method ProviderHistory(rows: seq<HistoryRow>, name: string, excluded: Option<string>) returns (r: seq<HistoryRow>)
    ensures r == Listing(TallyOf(rows, name, excluded))
  {
    var t := Tally([], [], map[]);
    for i := 0 to |rows|
      invariant t == TallyOf(rows[..i], name, excluded)
    {
      var row := rows[i];
      assert Front(rows[..i + 1]) == rows[..i];
      if !Belongs(row, name, excluded) { continue; }
      if row.effectId == "" {
        t := t.(anonymous := t.anonymous + [row]);
      } else {
        if row.effectId !in t.latest { t := t.(order := t.order + [row.effectId]); }
        t := t.(latest := t.latest[row.effectId := row]);
      }
    }
    assert rows[..|rows|] == rows;
    return Listing(t);
  }

  /** An effect is listed exactly when some row of the provider names it, and then once, with the
      last such row. */
  lemma {:induction false} TallyMeans(rows: seq<HistoryRow>, name: string, excluded: Option<string>, id: string)
    requires id != ""
    ensures id in TallyOf(rows, name, excluded).latest <==>
            exists row :: row in rows && Names(row, name, excluded, id)
    ensures id in TallyOf(rows, name, excluded).latest ==>
              exists k :: 0 <= k < |rows| && Names(rows[k], name, excluded, id)
                && TallyOf(rows, name, excluded).latest[id] == rows[k]
                && forall j :: k < j < |rows| ==> !Names(rows[j], name, excluded, id)
  {
    if rows != [] {
      var n := |rows| - 1;
      TallyMeans(Front(rows), name, excluded, id);
      SplitLast(rows);
      assert forall j :: 0 <= j < n ==> rows[j] == Front(rows)[j];
      if Names(rows[n], name, excluded, id) {
        assert TallyOf(rows, name, excluded).latest[id] == rows[n];
      } else if id in TallyOf(rows, name, excluded).latest {
        var k :| 0 <= k < n && Names(Front(rows)[k], name, excluded, id)
          && TallyOf(Front(rows), name, excluded).latest[id] == Front(rows)[k]
          && forall j :: k < j < n ==> !Names(Front(rows)[j], name, excluded, id);
        assert Names(rows[k], name, excluded, id) && TallyOf(rows, name, excluded).latest[id] == rows[k];
      }
    }
  }

  /** A row of the provider names the effect, which is not the excluded one. */
  predicate Names(row: HistoryRow, name: string, excluded: Option<string>, id: string) {
    row.provider == name && row.effectId == id && excluded != Some(id)
  }

  /** Some row names the first effect before any row names the second. */
  ghost predicate MetBefore(rows: seq<HistoryRow>, name: string, excluded: Option<string>, first: string, second: string) {
    exists k :: MetAt(rows, name, excluded, first, second, k)
  }

  predicate MetAt(rows: seq<HistoryRow>, name: string, excluded: Option<string>, first: string, second: string, k: int) {
    && 0 <= k < |rows| && Names(rows[k], name, excluded, first)
    && forall j :: 0 <= j <= k ==> !Names(rows[j], name, excluded, second)
  }

  /** Effects are listed in the order in which the rows first name them. */
  lemma {:induction false} TallyInOrder(rows: seq<HistoryRow>, name: string, excluded: Option<string>)
    ensures var order := TallyOf(rows, name, excluded).order;
            && "" !in order
            && forall i, j :: 0 <= i < j < |order| ==> MetBefore(rows, name, excluded, order[i], order[j])
  {
    if rows != [] {
      var n := |rows| - 1;
      var before, after := TallyOf(Front(rows), name, excluded).order, TallyOf(rows, name, excluded).order;
      TallyInOrder(Front(rows), name, excluded);
      assert forall k :: 0 <= k < n ==> rows[k] == Front(rows)[k];
      forall i, j | 0 <= i < j < |after| ensures MetBefore(rows, name, excluded, after[i], after[j]) {
        if j < |before| {
          assert before[i] == after[i] && before[j] == after[j] && MetBefore(Front(rows), name, excluded, before[i], before[j]);
          var k :| MetAt(Front(rows), name, excluded, before[i], before[j], k);
          assert MetAt(rows, name, excluded, after[i], after[j], k);
        } else {
          MetAtLast(rows, name, excluded, after[i], after[j]);
        }
      }
    }
  }

  lemma MetAtLast(rows: seq<HistoryRow>, name: string, excluded: Option<string>, first: string, second: string)
    requires rows != [] && first != "" && second != ""
    requires first in TallyOf(Front(rows), name, excluded).latest && second !in TallyOf(Front(rows), name, excluded).latest
    ensures MetBefore(rows, name, excluded, first, second)
  {
    TallyMeans(Front(rows), name, excluded, first);
    TallyMeans(Front(rows), name, excluded, second);
    var k :| 0 <= k < |rows| - 1 && Names(Front(rows)[k], name, excluded, first);
    assert forall j :: 0 <= j <= k ==> rows[j] == Front(rows)[j] && rows[j] in Front(rows);
    assert MetAt(rows, name, excluded, first, second, k);
  }

  /** Every row of the provider without an effect is listed, as often as it occurs, and more rows only
      add to the end. */
  lemma {:induction false} AnonymousMeans(rows: seq<HistoryRow>, name: string, excluded: Option<string>, row: HistoryRow)
    ensures multiset(TallyOf(rows, name, excluded).anonymous)[row] ==
            if Names(row, name, excluded, "") then multiset(rows)[row] else 0
    ensures rows != [] ==> TallyOf(Front(rows), name, excluded).anonymous <= TallyOf(rows, name, excluded).anonymous
  {
    if rows != [] {
      AnonymousMeans(Front(rows), name, excluded, row);
      SplitLast(rows);
    }
  }

  lemma LatestNamesIt(rows: seq<HistoryRow>, name: string, excluded: Option<string>, id: string)
    requires id in TallyOf(rows, name, excluded).latest && id != ""
    ensures TallyOf(rows, name, excluded).latest[id].effectId == id
  {
    hide TallyOf;
    TallyMeans(rows, name, excluded, id);
  }

  /** The listing: first the rows without an effect, then one row for each effect. */
  lemma ListingMeans(rows: seq<HistoryRow>, name: string, excluded: Option<string>)
    ensures var t := TallyOf(rows, name, excluded);
            && |Listing(t)| == |t.anonymous| + |t.order| && Listing(t)[..|t.anonymous|] == t.anonymous
            && forall i :: 0 <= i < |t.order| ==> Listing(t)[|t.anonymous| + i].effectId == t.order[i]
  {
    hide TallyOf, MetBefore;
    var t := TallyOf(rows, name, excluded);
    TallyInOrder(rows, name, excluded);
    forall i | 0 <= i < |t.order| ensures Listing(t)[|t.anonymous| + i].effectId == t.order[i] {
      assert t.order[i] in t.order;
      LatestNamesIt(rows, name, excluded, t.order[i]);
    }
  }

  lemma {:induction false} EventRowsMean(events: seq<AuditEvent>, e: AuditEvent)
    requires e in events && Counted(e)
    ensures FromEvent(e) in EventRows(events)
  {
    SplitLast(events);
    if e != Last(events) { EventRowsMean(Front(events), e); }
  }

  lemma {:induction false} RecordRowsMean(records: seq<EffectRecord>, kind: string, seen: set<string>, r: EffectRecord)
    requires r in records && Fills(r, kind, seen)
    ensures FromRecord(r) in RecordRows(records, kind, seen)
  {
    SplitLast(records);
    if r != Last(records) { RecordRowsMean(Front(records), kind, seen, r); }
  }

  /** Limits cannot be bypassed by a failed audit write: every autonomy effect in the ledger is
      tallied, once, for the provider the audit names or, without one, for its own. */
  lemma NoEffectEscapesTheTally(events: seq<AuditEvent>, records: seq<EffectRecord>, kind: string, r: EffectRecord)
    returns (name: string)
    requires r in records && r.kind == kind && r.effectId != "" && r.provider != ""
    ensures r.effectId in TallyOf(EventRows(events) + RecordRows(records, kind, SeenEffects(events)), name, None).latest
    ensures name == r.provider || exists e :: e in events && Counted(e) && e.effectId == r.effectId && e.provider == name
  {
    var seen := SeenEffects(events);
    var rows := EventRows(events) + RecordRows(records, kind, seen);
    if r.effectId in seen {
      var e :| e in events && Counted(e) && e.effectId == r.effectId;
      name := e.provider;
      EventRowsMean(events, e);
      assert FromEvent(e) in rows && Names(FromEvent(e), name, None, r.effectId);
    } else {
      name := r.provider;
      RecordRowsMean(records, kind, seen, r);
      assert FromRecord(r) in rows && Names(FromRecord(r), name, None, r.effectId);
    }
    TallyMeans(rows, name, None, r.effectId);
  }
}
