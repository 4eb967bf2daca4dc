/** Runtime controls: an append-only ledger replayed on every read, the resolution of the
    controls in force for one feature, and the gate built on it (moonbite_plugin/control.py). */
module Controls {
  import opened Basics
  import opened Orders

  datatype Feature = Heartbeat | Autonomy | Proactive | BackgroundCostly | OtherFeature
  datatype Mode = Pause | Rest | PlayNext | QuotaSave | OtherMode
  datatype Source = Scheduler | Self | Static | Operator | OtherSource

  /** Times are microseconds. */
  const DAY := 86_400_000_000

  datatype Intent = Intent(
    id: string, feature: Feature, mode: Mode, source: Source, created: int, expires: Option<int>)

  datatype Action =
    | Put(intent: Intent)
    | Clear(feature: Feature, source: Source)
    | Consume(id: string)
    | Expire(ids: seq<string>)

  datatype Row = Row(eventId: string, action: Action)

  /** canonical_feature: the alias is folded away and unknown features are refused. */
  function Canonical(f: Feature): Option<Feature> {
    match f
    case BackgroundCostly => Some(Proactive)
    case OtherFeature => None
    case _ => Some(f)
  }

  function Priority(s: Source): int {
    match s case Scheduler => 10 case Self => 20 case Static => 30 case Operator => 40 case OtherSource => 0
  }

  /** ControlIntent.__post_init__: the canonical intent, or nothing when it is refused. */
  function Checked(i: Intent): Option<Intent> {
    var f := Canonical(i.feature);
    if f.None? || i.mode.OtherMode? || i.source.OtherSource? || i.id == "" then None
    else if i.expires.Some? && i.expires.value <= i.created then None
    else if i.source.Self? && (i.expires.None? || i.expires.value - i.created > DAY) then None
    else Some(i.(feature := f.value))
  }

  type Active = map<string, Intent>

  function Without(m: Active, feature: Feature, source: Source): Active {
    map k | k in m && !(m[k].feature == feature && m[k].source == source) :: m[k]
  }

  function FoldAction(m: Active, a: Action): Option<Active> {
    match a
    case Put(raw) =>
      (match Checked(raw)
       case None => None
       case Some(i) => Some(Without(m, i.feature, i.source)[i.id := i]))
    case Clear(f, s) =>
      if Canonical(f).None? || s.OtherSource? then None else Some(Without(m, Canonical(f).value, s))
    case Consume(id) => if id == "" then None else Some(m - {id})
    case Expire(ids) => if "" in ids || !Distinct(ids) then None else Some(m - (set id <- ids))
  }

  function EventIds(rows: seq<Row>): set<string> { set r <- rows :: r.eventId }

  /** _replay_rows: None stands for a raised state error. */
  function Replay(rows: seq<Row>): Option<Active> {
    if rows == [] then Some(map[])
    else
      match Replay(Front(rows))
      case None => None
      case Some(m) =>
        if Last(rows).eventId == "" || Last(rows).eventId in EventIds(Front(rows)) then None
        else FoldAction(m, Last(rows).action)
  }

  predicate Lapsed(i: Intent, now: int) { i.expires.Some? && i.expires.value <= now }

  /** active: listed in a fixed order in the source, which the ids make total. */
  function InForce(m: Active, now: int): set<Intent> {
    set k | k in m && !Lapsed(m[k], now) :: m[k]
  }

  predicate Sees(feature: Feature, other: Feature) {
    other == feature || (feature in {Heartbeat, Autonomy} && other.Proactive?)
  }

  function Candidates(m: Active, feature: Feature, now: int): set<Intent> {
    set i | i in InForce(m, now) && Sees(feature, i.feature)
  }

  /** The order in which resolve takes the maximum. */
  predicate Below(c: Intent, d: Intent) {
    if Priority(c.source) != Priority(d.source) then Priority(c.source) < Priority(d.source)
    else if c.feature.Proactive? != d.feature.Proactive? then d.feature.Proactive?
    else if c.created != d.created then c.created < d.created
    else StringLE(c.id, d.id)
  }

  predicate Wins(cs: set<Intent>, r: Option<Intent>) {
    if cs == {} then r == None else r.Some? && r.value in cs && forall c <- cs :: Below(c, r.value)
  }

  // ---- what every replay keeps -------------------------------------------------------

  /** Controls are filed under their own valid ids, one per feature and source. */
  predicate WellFiled(m: Active) {
    && (forall k <- m :: m[k].id == k && Checked(m[k]) == Some(m[k]))
    && (forall j, k | j in m && k in m && m[j].feature == m[k].feature && m[j].source == m[k].source :: j == k)
  }

  lemma FoldKeepsFiling(m: Active, a: Action)
    requires WellFiled(m) && FoldAction(m, a).Some?
    ensures WellFiled(FoldAction(m, a).value)
  {
  }

  /** At most one control is active for each feature and source, in every readable ledger. */
  lemma {:induction false} OneControlPerFeatureAndSource(rows: seq<Row>)
    requires Replay(rows).Some?
    ensures WellFiled(Replay(rows).value)
  {
    if rows != [] {
      OneControlPerFeatureAndSource(Front(rows));
      FoldKeepsFiling(Replay(Front(rows)).value, Last(rows).action);
    }
  }

  /** A control an agent set on itself is gone one day after it was made, whatever else happened. */
  lemma {:induction false} SelfControlsLapse(rows: seq<Row>, now: int, i: Intent)
    requires Replay(rows).Some? && i in InForce(Replay(rows).value, now) && i.source.Self?
    ensures now < i.created + DAY
  {
    OneControlPerFeatureAndSource(rows);
  }

  // ---- erasing expire rows -----------------------------------------------------------

  /** The rows with the chosen positions left out. */
  function Erased(rows: seq<Row>, drop: set<int>): seq<Row> {
    if rows == [] then []
    else Erased(Front(rows), drop) + (if |rows| - 1 in drop then [] else [Last(rows)])
  }

  predicate RemovesLapsed(m: Active, ids: seq<string>, now: int) { forall id <- ids :: id in m ==> Lapsed(m[id], now) }

  /** An expire row that, given the rows before it, removes only controls lapsed by `now`. It may
      name controls that are gone already. */
  predicate WrittenBy(rows: seq<Row>, k: int, now: int) {
    && 0 <= k < |rows|
    && rows[k].action.Expire?
    && Replay(rows[..k]).Some?
    && RemovesLapsed(Replay(rows[..k]).value, rows[k].action.ids, now)
  }

  /** The second view is the first one plus controls that have lapsed by `now`. */
  predicate Shadows(a: Active, b: Active, now: int) {
    && (forall k <- a :: k in b && b[k] == a[k])
    && (forall k <- b :: k in a || Lapsed(b[k], now))
  }

  lemma FoldKeepsShadow(a: Active, b: Active, now: int, action: Action)
    requires Shadows(a, b, now) && FoldAction(a, action).Some?
    ensures FoldAction(b, action).Some? && Shadows(FoldAction(a, action).value, FoldAction(b, action).value, now)
  {
  }

  lemma DropKeepsShadow(a: Active, b: Active, now: int, ids: seq<string>)
    requires Shadows(a, b, now) && FoldAction(a, Expire(ids)).Some?
    requires RemovesLapsed(a, ids, now)
    ensures Shadows(FoldAction(a, Expire(ids)).value, b, now)
  {
  }

  lemma {:induction false} ErasedEvents(rows: seq<Row>, drop: set<int>)
    ensures EventIds(Erased(rows, drop)) <= EventIds(rows)
  {
    if rows != [] {
      ErasedEvents(Front(rows), drop);
      forall e | e in EventIds(Erased(rows, drop)) ensures e in EventIds(rows) {
        var r :| r in Erased(rows, drop) && r.eventId == e;
        if r in Erased(Front(rows), drop) {
          assert e in EventIds(Front(rows));
        } else {
          assert r == Last(rows);
        }
      }
    }
  }

  lemma {:induction false} ErasureShadows(rows: seq<Row>, drop: set<int>, now: int)
    requires Replay(rows).Some? && forall k <- drop | k < |rows| :: WrittenBy(rows, k, now)
    ensures Replay(Erased(rows, drop)).Some?
    ensures Shadows(Replay(rows).value, Replay(Erased(rows, drop)).value, now)
  {
    hide FoldAction, Shadows;
    if rows == [] {
      NothingShadows(now);
    } else {
      var before, row, n := Front(rows), Last(rows), |rows| - 1;
      assert forall k :: 0 <= k < n ==> before[..k] == rows[..k] && before[k] == rows[k];
      assert forall k <- drop | k < n :: WrittenBy(rows, k, now);
      ErasureShadows(before, drop, now);
      var a, b := Replay(before).value, Replay(Erased(before, drop)).value;
      if n in drop {
        assert WrittenBy(rows, n, now) && rows[..n] == before;
        DropKeepsShadow(a, b, now, row.action.ids);
        assert Erased(rows, drop) == Erased(before, drop);
      } else {
        FoldKeepsShadow(a, b, now, row.action);
        ErasedEvents(before, drop);
        FrontOfAppend(Erased(before, drop), row);
      }
    }
  }

  lemma NothingShadows(now: int)
    ensures Shadows(map[], map[], now)
  {
  }

  /** Appending an expire row leaves what is in force at `now` alone exactly when every control it
      still removes has lapsed; then the row is erasable. */
  lemma {:induction false} ExpireIsSilentIff(rows: seq<Row>, row: Row, now: int)
    requires Replay(rows).Some? && row.action.Expire? && Replay(rows + [row]).Some?
    ensures InForce(Replay(rows + [row]).value, now) == InForce(Replay(rows).value, now) <==> WrittenBy(rows + [row], |rows|, now)
  {
    var m, ids := Replay(rows).value, row.action.ids;
    OneControlPerFeatureAndSource(rows);
    FrontOfAppend(rows, row);
    assert (rows + [row])[..|rows|] == rows;
    var n := Replay(rows + [row]).value;
    assert n == m - set id <- ids;
    if RemovesLapsed(m, ids, now) {
      forall i | i in InForce(m, now) ensures i in InForce(n, now) {
        var k :| k in m && !Lapsed(m[k], now) && m[k] == i;
        assert k in n && n[k] == i;
      }
    } else {
      var id :| id in ids && id in m && !Lapsed(m[id], now);
      assert m[id] in InForce(m, now);
      assert forall k <- n :: n[k].id == k;
      assert m[id] !in InForce(n, now);
    }
  }

  /** An expire reads the ledger under one lock and appends under another. If no control put in
      between under one of its ids is still alive at `now`, the row is erasable all the same,
      also when another expire has removed the controls first. */
  lemma {:induction false} RacingExpireIsErasable(rows: seq<Row>, j: nat, now: int)
    requires rows != [] && j < |rows| && Last(rows).action.Expire? && Replay(Front(rows)).Some? && Replay(rows[..j]).Some?
    requires RemovesLapsed(Replay(rows[..j]).value, Last(rows).action.ids, now)
    requires forall k | j <= k < |rows| - 1 && rows[k].action.Put? ::
               rows[k].action.intent.id in Last(rows).action.ids ==> Lapsed(rows[k].action.intent, now)
    ensures WrittenBy(rows, |rows| - 1, now)
  {
    StillLapsed(rows, j, |rows| - 1, Last(rows).action.ids, now);
  }

  lemma {:induction false} StillLapsed(rows: seq<Row>, j: nat, n: nat, ids: seq<string>, now: int)
    requires j <= n <= |rows| && Replay(rows[..n]).Some? && Replay(rows[..j]).Some?
    requires RemovesLapsed(Replay(rows[..j]).value, ids, now)
    requires forall k | j <= k < n && rows[k].action.Put? :: rows[k].action.intent.id in ids ==> Lapsed(rows[k].action.intent, now)
    ensures RemovesLapsed(Replay(rows[..n]).value, ids, now)
    decreases n
  {
    if n > j {
      assert Front(rows[..n]) == rows[..n - 1] && Last(rows[..n]) == rows[n - 1];
      StillLapsed(rows, j, n - 1, ids, now);
    }
  }

  /** The race that is observable: between the read and the append the same control is put again
      without an end, and the expire row takes it away. */
  lemma RacingPutIsLost()
    ensures var short := Intent("c", Autonomy, Pause, Operator, 0, Some(5));
            var long := Intent("c", Autonomy, Pause, Operator, 8, None);
            var rows := [Row("1", Put(short)), Row("2", Put(long)), Row("3", Expire(["c"]))];
            && Replay(rows[..1]).Some? && RemovesLapsed(Replay(rows[..1]).value, ["c"], 9)
            && Replay(rows).Some? && !WrittenBy(rows, 2, 9)
            && long in InForce(Replay(rows[..2]).value, 9) && InForce(Replay(rows).value, 9) == {}
  {
    var short := Intent("c", Autonomy, Pause, Operator, 0, Some(5));
    var long := Intent("c", Autonomy, Pause, Operator, 8, None);
    var rows := [Row("1", Put(short)), Row("2", Put(long)), Row("3", Expire(["c"]))];
    assert Front(rows[..1]) == [] && Front(rows[..2]) == rows[..1] && Front(rows) == rows[..2];
    assert Checked(short) == Some(short) && Checked(long) == Some(long);
    assert Replay(rows[..1]) == Some(map["c" := short]);
    assert rows[..1] == [rows[0]] && rows[..2] == [rows[0], rows[1]];
    assert forall r :: r in rows[..2] <==> r == rows[0] || r == rows[1];
    assert EventIds(rows[..1]) == {"1"};
    assert EventIds(rows[..2]) <= {"1", "2"};
    assert Replay(rows[..2]) == Some(map["c" := long]);
    assert Replay(rows) == Some(map[]);
    assert map["c" := long]["c"] in InForce(map["c" := long], 9);
  }

  /** Expiry compaction is unobservable: any choice of expire rows written by `now` can be
      erased, whatever rows follow them, without changing what is in force at any time from
      `now` on, and so without changing what resolve chooses from. */
  lemma ExpiryIsUnobservable(rows: seq<Row>, drop: set<int>, now: int, t: int, feature: Feature)
    requires Replay(rows).Some? && now <= t
    requires forall k <- drop | k < |rows| :: WrittenBy(rows, k, now)
    ensures Replay(Erased(rows, drop)).Some?
    ensures InForce(Replay(Erased(rows, drop)).value, t) == InForce(Replay(rows).value, t)
    ensures Candidates(Replay(Erased(rows, drop)).value, feature, t) == Candidates(Replay(rows).value, feature, t)
  {
    ErasureShadows(rows, drop, now);
    SameInForce(Replay(rows).value, Replay(Erased(rows, drop)).value, now, t);
  }

  lemma SameInForce(a: Active, b: Active, now: int, t: int)
    requires Shadows(a, b, now) && now <= t
    ensures InForce(a, t) == InForce(b, t)
  {
    forall i | i in InForce(b, t) ensures i in InForce(a, t) {
      var k :| k in b && !Lapsed(b[k], t) && b[k] == i;
      assert k in a && a[k] == i;
    }
    forall i | i in InForce(a, t) ensures i in InForce(b, t) {
      var k :| k in a && !Lapsed(a[k], t) && a[k] == i;
      assert k in b && b[k] == i;
    }
  }

  // ---- resolution --------------------------------------------------------------------

  lemma BelowIsTransitive(c: Intent, d: Intent, e: Intent)
    requires Below(c, d) && Below(d, e)
    ensures Below(c, e)
  {
    if c.created == d.created == e.created && StringLE(c.id, d.id) && StringLE(d.id, e.id) {
      StringLEIsTransitive(c.id, d.id, e.id);
    }
  }

  lemma BelowIsTotal(c: Intent, d: Intent)
    ensures Below(c, d) || Below(d, c)
  {
    StringLEIsTotal(c.id, d.id);
  }

  /** Priority and the proactive flag alone separate any two candidates: the later parts of the
      ordering key never decide. */
  lemma {:induction false} TieBreaksNeverDecide(rows: seq<Row>, feature: Feature, now: int, c: Intent, d: Intent)
    requires Replay(rows).Some?
    requires c in Candidates(Replay(rows).value, feature, now) && d in Candidates(Replay(rows).value, feature, now)
    requires Priority(c.source) == Priority(d.source) && c.feature.Proactive? == d.feature.Proactive?
    ensures c == d
  {
    OneControlPerFeatureAndSource(rows);
  }

  lemma {:induction false} WinnerIsUnique(rows: seq<Row>, feature: Feature, now: int, p: Option<Intent>, q: Option<Intent>)
    requires Replay(rows).Some?
    requires Wins(Candidates(Replay(rows).value, feature, now), p) && Wins(Candidates(Replay(rows).value, feature, now), q)
    ensures p == q
  {
    if Candidates(Replay(rows).value, feature, now) != {} {
      assert Below(p.value, q.value) && Below(q.value, p.value);
      TieBreaksNeverDecide(rows, feature, now, p.value, q.value);
    }
  }

  /** An operator's control on proactive work decides for every feature that sees it. */
  lemma {:induction false} ProactiveOperatorDecides(rows: seq<Row>, feature: Feature, now: int, i: Intent, r: Option<Intent>)
    requires Replay(rows).Some? && feature in {Heartbeat, Autonomy, Proactive}
    requires i in InForce(Replay(rows).value, now) && i.feature.Proactive? && i.source.Operator?
    requires Wins(Candidates(Replay(rows).value, feature, now), r)
    ensures r == Some(i)
    ensures EvaluateGate(r).allowed == i.mode.PlayNext?
  {
    var cs := Candidates(Replay(rows).value, feature, now);
    assert i in cs;
    assert Below(i, r.value);
    TieBreaksNeverDecide(rows, feature, now, r.value, i);
  }

  // ---- the gate ----------------------------------------------------------------------

  datatype Gate = Gate(allowed: bool, mode: Option<Mode>, control: Option<string>)

  /** evaluate_gate: everything but an absent control and a one-shot request is blocked. */
  function EvaluateGate(r: Option<Intent>): (g: Gate)
    ensures g.control == None <==> r == None
    ensures g.allowed <==> r.None? || r.value.mode.PlayNext?
  {
    match r
    case None => Gate(true, None, None)
    case Some(i) =>
      match i.mode
      case Pause | Rest | QuotaSave => Gate(false, Some(i.mode), Some(i.id))
      case PlayNext => Gate(true, Some(i.mode), Some(i.id))
      case OtherMode => Gate(false, Some(i.mode), Some(i.id))
  }

  /** One control outranks another by priority, and with equal priority by being proactive. */
  predicate Outranks(c: Intent, d: Intent) {
    Priority(c.source) > Priority(d.source)
    || (Priority(c.source) == Priority(d.source) && c.feature.Proactive? && !d.feature.Proactive?)
  }

  /** What the gate means: work is allowed exactly when every blocking control that the feature
      sees is outranked by a one-shot request it also sees. */
  lemma {:induction false} GateMeans(rows: seq<Row>, feature: Feature, now: int, r: Option<Intent>)
    requires Replay(rows).Some? && Wins(Candidates(Replay(rows).value, feature, now), r)
    ensures var cs := Candidates(Replay(rows).value, feature, now);
            EvaluateGate(r).allowed <==>
            forall d <- cs :: !d.mode.PlayNext? ==> exists c :: c in cs && c.mode.PlayNext? && Outranks(c, d)
  {
    var cs := Candidates(Replay(rows).value, feature, now);
    if r.Some? {
      forall d | d in cs && d != r.value ensures Outranks(r.value, d) && !Outranks(d, r.value) {
        assert Below(d, r.value);
        if Priority(d.source) == Priority(r.value.source) && d.feature.Proactive? == r.value.feature.Proactive? {
          TieBreaksNeverDecide(rows, feature, now, d, r.value);
        }
      }
    }
  }

  /** The fail-closed branch is never the one taken for a control that came from a ledger. */
  lemma {:induction false} FailClosedBranchUnused(rows: seq<Row>, feature: Feature, now: int, r: Option<Intent>)
    requires Replay(rows).Some? && Wins(Candidates(Replay(rows).value, feature, now), r)
    ensures EvaluateGate(r).mode != Some(OtherMode)
  {
    OneControlPerFeatureAndSource(rows);
  }

  // ---- the store ---------------------------------------------------------------------

  lemma {:induction false} ReplayStaysNone(rows: seq<Row>, n: nat)
    requires n <= |rows| && Replay(rows[..n]).None?
    ensures Replay(rows).None?
    decreases |rows|
  {
    if n == |rows| {
      assert rows[..n] == rows;
    } else {
      assert Front(rows)[..n] == rows[..n];
      ReplayStaysNone(Front(rows), n);
    }
  }

  lemma ReplayAppend(rows: seq<Row>, row: Row)
    requires Replay(rows).Some? && row.eventId != "" && row.eventId !in EventIds(rows)
    ensures Replay(rows + [row]) == FoldAction(Replay(rows).value, row.action)
  {
    FrontOfAppend(rows, row);
  }

  /** An expire row that was read against `before` and appended after `others`. */
  lemma {:induction false} Appended(before: seq<Row>, others: seq<Row>, row: Row, now: int)
    requires Replay(before).Some? && Replay(before + others).Some? && row.action.Expire?
    requires row.eventId != "" && row.eventId !in EventIds(before + others)
    requires Distinct(row.action.ids) && "" !in row.action.ids && RemovesLapsed(Replay(before).value, row.action.ids, now)
    ensures Replay(before + others + [row]) == Some(Replay(before + others).value - set id <- row.action.ids)
    ensures (forall o <- others :: o.action.Put? && o.action.intent.id in row.action.ids ==> Lapsed(o.action.intent, now))
            ==> WrittenBy(before + others + [row], |before + others|, now)
  {
    hide Lapsed, Replay, RemovesLapsed;
    var rows := before + others + [row];
    ReplayAppend(before + others, row);
    FrontOfAppend(before + others, row);
    assert rows[..|before|] == before;
    if forall o <- others :: o.action.Put? && o.action.intent.id in row.action.ids ==> Lapsed(o.action.intent, now) {
      assert forall k :: |before| <= k < |rows| - 1 ==> rows[k] in others;
      RacingExpireIsErasable(rows, |before|, now);
    }
  }

  datatype ControlError = InvalidControl | LedgerCorrupt

  class ControlStore {
    var rows: seq<Row>

    constructor ()
      ensures rows == []
    {
      rows := [];
    }

    /** _replay_rows: one pass that rebuilds the active controls. */
    method ReplayRows() returns (r: Option<Active>)
      ensures r == Replay(rows)
    {
      hide FoldAction;
      var active: Active := map[];
      var events: set<string> := {};
      for i := 0 to |rows|
        invariant Replay(rows[..i]) == Some(active)
        invariant events == EventIds(rows[..i])
      {
        var row := rows[i];
        assert Front(rows[..i + 1]) == rows[..i];
        assert rows[..i + 1] == rows[..i] + [row];
        if row.eventId == "" || row.eventId in events {
          ReplayStaysNone(rows, i + 1);
          return None;
        }
        events := events + {row.eventId};
        var next := FoldAction(active, row.action);
        if next.None? {
          ReplayStaysNone(rows, i + 1);
          return None;
        }
        active := next.value;
      }
      assert rows[..|rows|] == rows;
      return Some(active);
    }

    /** put: an invalid control is refused and nothing is written; a valid one replaces every
        control of the same feature and source, and any control filed under the same id. */
    method PutControl(feature: Feature, mode: Mode, source: Source, expires: Option<int>, givenId: string,
                      newId: string, eventId: string, now: int) returns (r: Result<Intent, ControlError>)
      requires newId != "" && eventId != "" && eventId !in EventIds(rows)
      modifies this
      ensures var want := Intent(if givenId == "" then newId else givenId, feature, mode, source, now, expires);
              if Checked(want).None? then r == Err(InvalidControl) && rows == old(rows)
              else r == Ok(Checked(want).value) && rows == old(rows) + [Row(eventId, Put(r.value))]
      ensures Replay(old(rows)).Some? && r.Ok? ==>
                var i, m := r.value, Replay(old(rows)).value;
                && Replay(rows).Some?
                && i.id in Replay(rows).value && Replay(rows).value[i.id] == i
                && forall k | k != i.id :: k in Replay(rows).value <==>
                     k in m && (m[k].feature != i.feature || m[k].source != i.source)
    {
      var made := Checked(Intent(if givenId == "" then newId else givenId, feature, mode, source, now, expires));
      if made.None? { return Err(InvalidControl); }
      ghost var before := rows;
      rows := rows + [Row(eventId, Put(made.value))];
      if Replay(before).Some? {
        ReplayAppend(before, Row(eventId, Put(made.value)));
        assert Checked(made.value) == made;
      }
      return Ok(made.value);
    }

    method ClearControl(feature: Feature, source: Source, eventId: string) returns (r: Result<(), ControlError>)
      requires eventId != "" && eventId !in EventIds(rows)
      modifies this
      ensures r.Err? <==> Canonical(feature).None? || source.OtherSource?
      ensures r.Err? ==> rows == old(rows)
      ensures r.Ok? ==> rows == old(rows) + [Row(eventId, Clear(Canonical(feature).value, source))]
      ensures Replay(old(rows)).Some? && r.Ok? ==>
                && Replay(rows).Some?
                && forall i | i in Replay(rows).value.Values :: i.feature != Canonical(feature).value || i.source != source
    {
      if source.OtherSource? || Canonical(feature).None? { return Err(InvalidControl); }
      ghost var before := rows;
      rows := rows + [Row(eventId, Clear(Canonical(feature).value, source))];
      if Replay(before).Some? { ReplayAppend(before, Last(rows)); }
      return Ok(());
    }

    method ConsumeControl(id: string, eventId: string) returns (r: Result<(), ControlError>)
      requires eventId != "" && eventId !in EventIds(rows)
      modifies this
      ensures r.Err? <==> id == ""
      ensures rows == old(rows) + if r.Err? then [] else [Row(eventId, Consume(id))]
      ensures Replay(old(rows)).Some? && r.Ok? ==> Replay(rows) == Some(Replay(old(rows)).value - {id})
    {
      if id == "" { return Err(InvalidControl); }
      ghost var before := rows;
      rows := rows + [Row(eventId, Consume(id))];
      if Replay(before).Some? { ReplayAppend(before, Last(rows)); }
      return Ok(());
    }

    /** What other processes write between two of this process's locks: any rows, under event ids
        of their own. */
    method OthersWrite(eventId: string) returns (ghost others: seq<Row>)
      requires eventId !in EventIds(rows)
      modifies this
      ensures rows == old(rows) + others && eventId !in EventIds(rows)
    {
      others := [];
      var n: nat :| true;
      for i := 0 to n
        invariant rows == old(rows) + others && eventId !in EventIds(rows)
      {
        var row: Row := *;
        if row.eventId != eventId {
          rows := rows + [row];
          others := others + [row];
        }
      }
    }

    /** The lapsed controls, each once. */
    method LapsedControls(now: int) returns (r: Result<seq<string>, ControlError>)
      ensures r.Err? <==> Replay(rows).None?
      ensures r.Err? ==> r.error == LedgerCorrupt
      ensures r.Ok? ==> Distinct(r.value) && "" !in r.value
      ensures r.Ok? ==> forall id :: id in r.value <==> id in Replay(rows).value && Lapsed(Replay(rows).value[id], now)
    {
      hide Lapsed;
      var active := ReplayRows();
      if active.None? { return Err(LedgerCorrupt); }
      OneControlPerFeatureAndSource(rows);
      var ids := Listed(set id | id in active.value && Lapsed(active.value[id], now));
      return Ok(ids);
    }

    /** expire: reads which controls have lapsed, and writes one row naming them if there are any.
        The read and the write take the ledger's lock one after the other, so rows of others may
        come in between; the row is erasable unless they put one of the controls again for longer. */
    method ExpireControls(now: int, eventId: string) returns (r: Result<seq<string>, ControlError>, ghost others: seq<Row>)
      requires eventId != "" && eventId !in EventIds(rows)
      modifies this
      ensures r.Err? <==> Replay(old(rows)).None?
      ensures r.Ok? ==>
                forall id :: id in r.value <==> id in Replay(old(rows)).value && Lapsed(Replay(old(rows)).value[id], now)
      ensures rows == old(rows) + others + if r.Ok? && r.value != [] then [Row(eventId, Expire(r.value))] else []
      ensures r.Err? || r.value == [] ==> others == []
      ensures r.Ok? && r.value != [] && Replay(old(rows) + others).Some? ==>
                Replay(rows) == Some(Replay(old(rows) + others).value - set id <- r.value)
      ensures r.Ok? && r.value != [] && Replay(old(rows) + others).Some?
              && (forall row <- others :: row.action.Put? && row.action.intent.id in r.value ==> Lapsed(row.action.intent, now))
              ==> WrittenBy(rows, |rows| - 1, now)
    {
      hide Lapsed, FoldAction;
      others := [];
      r := LapsedControls(now);
      if r.Err? || r.value == [] { return; }
      ghost var before := rows;
      others := OthersWrite(eventId);
      ghost var read := rows;
      rows := rows + [Row(eventId, Expire(r.value))];
      if Replay(read).Some? { Appended(before, others, Last(rows), now); }
    }

    /** resolve: the feature is made canonical, then the greatest candidate is taken. */
    method Resolve(feature: Feature, now: int) returns (r: Result<Option<Intent>, ControlError>)
      ensures Canonical(feature).None? ==> r == Err(InvalidControl)
      ensures Canonical(feature).Some? && Replay(rows).None? ==> r == Err(LedgerCorrupt)
      ensures Canonical(feature).Some? && Replay(rows).Some? ==>
                r.Ok? && Wins(Candidates(Replay(rows).value, Canonical(feature).value, now), r.value)
    {
      hide Replay;
      if Canonical(feature).None? { return Err(InvalidControl); }
      var active := ReplayRows();
      if active.None? { return Err(LedgerCorrupt); }
      var winner := Greatest(Candidates(active.value, Canonical(feature).value, now));
      return Ok(winner);
    }
  }

  method Listed(s: set<string>) returns (r: seq<string>)
    ensures Distinct(r) && forall x :: x in r <==> x in s
  {
    r := [];
    var todo := s;
    while todo != {}
      invariant todo <= s && Distinct(r)
      invariant forall x :: x in r <==> x in s - todo
    {
      var x :| x in todo;
      assert x !in r;
      r := r + [x];
      todo := todo - {x};
    }
  }

  method Greatest(cs: set<Intent>) returns (r: Option<Intent>)
    ensures Wins(cs, r)
  {
    hide Below;
    r := None;
    var todo := cs;
    while todo != {}
      invariant todo <= cs && Wins(cs - todo, r)
    {
      var c :| c in todo;
      ghost var seen := cs - todo;
      todo := todo - {c};
      assert cs - todo == seen + {c};
      BelowIsTotal(c, c);
      if r.None? {
        r := Some(c);
      } else {
        var best := r.value;
        BelowIsTotal(c, best);
        if !Below(c, best) {
          forall d | d in seen ensures Below(d, c) { BelowIsTransitive(d, best, c); }
          r := Some(c);
        }
      }
    }
    assert cs - todo == cs;
  }
}
