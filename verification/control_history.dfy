/** Runtime controls read as history: which controls a ledger leaves standing, which one decides for a
    feature, and what the gate then says, all without replaying (moonbite_plugin/control.py:117-451). */
module ControlHistories {
  import opened Basics
  import opened Controls

  // ---- one control -----------------------------------------------------------------------

  /** The feature a control is about; background work counts as proactive. */
  function About(f: Feature): Feature { if f.BackgroundCostly? then Proactive else f }

  /** A control that may be made: known feature, mode and source, an id, an end after its beginning,
      and for one an agent sets on itself an end within a day. */
  predicate Makeable(i: Intent) {
    && !i.feature.OtherFeature? && !i.mode.OtherMode? && !i.source.OtherSource? && i.id != ""
    && (i.expires.Some? ==> i.created < i.expires.value)
    && (i.source.Self? ==> i.expires.Some? && i.expires.value <= i.created + 24 * 3600 * 1_000_000)
  }

  lemma MakeableIff(i: Intent)
    ensures Checked(i).Some? <==> Makeable(i)
    ensures Checked(i).Some? ==> Checked(i).value == i.(feature := About(i.feature))
  {
  }

  // ---- what stands -----------------------------------------------------------------------

  /** The row makes this control. */
  predicate Makes(row: Row, i: Intent) {
    row.action.Put? && Makeable(row.action.intent) && i == row.action.intent.(feature := About(row.action.intent.feature))
  }

  /** The row ends this control: another one takes its id or its place, its place is cleared, or it is
      consumed or expired by name. */
  predicate Ends(row: Row, i: Intent) {
    match row.action
    case Put(j) => j.id == i.id || (About(j.feature) == i.feature && j.source == i.source)
    case Clear(f, s) => About(f) == i.feature && s == i.source
    case Consume(id) => id == i.id
    case Expire(ids) => i.id in ids
  }

  predicate StandsFrom(rows: seq<Row>, k: nat, i: Intent) {
    k < |rows| && Makes(rows[k], i) && forall j :: k < j < |rows| ==> !Ends(rows[j], i)
  }

  /** Some row made the control and no later row ended it. */
  ghost predicate Stands(rows: seq<Row>, i: Intent) { exists k: nat :: StandsFrom(rows, k, i) }

  lemma StandsOneMore(rows: seq<Row>, row: Row, i: Intent)
    ensures Stands(rows + [row], i) <==> Makes(row, i) || (Stands(rows, i) && !Ends(row, i))
  {
    hide Makes, Ends;
    var longer := rows + [row];
    if Stands(longer, i) {
      var k: nat :| StandsFrom(longer, k, i);
      if k < |rows| {
        assert longer[k] == rows[k] && longer[|rows|] == row;
        forall j | k < j < |rows| ensures !Ends(rows[j], i) { assert longer[j] == rows[j]; }
        assert StandsFrom(rows, k, i);
      }
    }
    if Makes(row, i) { assert StandsFrom(longer, |rows|, i); }
    if Stands(rows, i) && !Ends(row, i) {
      var k: nat :| StandsFrom(rows, k, i);
      assert forall j :: 0 <= j < |rows| ==> longer[j] == rows[j];
      assert StandsFrom(longer, k, i);
    }
  }

  lemma FoldStands(m: Active, row: Row, i: Intent)
    requires WellFiled(m) && FoldAction(m, row.action).Some?
    ensures var n := FoldAction(m, row.action).value;
            (i.id in n && n[i.id] == i) <==> Makes(row, i) || (i.id in m && m[i.id] == i && !Ends(row, i))
  {
    if row.action.Put? { MakeableIff(row.action.intent); }
  }

  /** A readable ledger has exactly the controls that stand. */
  lemma {:induction false} ActiveIff(rows: seq<Row>, i: Intent)
    requires Replay(rows).Some?
    ensures i.id in Replay(rows).value && Replay(rows).value[i.id] == i <==> Stands(rows, i)
  {
    hide FoldAction, WellFiled, Makes, Ends;
    if rows == [] {
      NothingStands(i);
    } else {
      ActiveIff(Front(rows), i);
      OneControlPerFeatureAndSource(Front(rows));
      FoldStands(Replay(Front(rows)).value, Last(rows), i);
      SplitLast(rows);
      StandsOneMore(Front(rows), Last(rows), i);
    }
  }

  lemma NothingStands(i: Intent)
    ensures !Stands([], i) && Replay([]) == Some(map[])
  {
  }

  /** A row a ledger may hold. */
  predicate Acceptable(row: Row) {
    && row.eventId != ""
    && match row.action
       case Put(i) => Makeable(i)
       case Clear(f, s) => !f.OtherFeature? && !s.OtherSource?
       case Consume(id) => id != ""
       case Expire(ids) => "" !in ids && forall i, j :: 0 <= i < j < |ids| ==> ids[i] != ids[j]
  }

  /** No event id repeats. */
  predicate OwnEvents(rows: seq<Row>) { forall i, j :: 0 <= i < j < |rows| ==> rows[i].eventId != rows[j].eventId }

  /** A ledger is readable exactly when every row is acceptable and no event id repeats. */
  lemma {:induction false} ReadableIff(rows: seq<Row>)
    ensures Replay(rows).Some? <==> (forall row <- rows :: Acceptable(row)) && OwnEvents(rows)
  {
    hide Acceptable, OwnEvents, EventIds, FoldAction;
    if rows == [] {
      NothingRepeats();
    } else {
      var before, row := Front(rows), Last(rows);
      ReadableIff(before);
      SplitLast(rows);
      NewEventIff(before, row);
      if Replay(before).Some? { AcceptableIff(Replay(before).value, row); }
      assert row in rows && forall r <- before :: r in rows;
      assert forall r <- rows :: r in before || r == row;
    }
  }

  lemma NothingRepeats()
    ensures OwnEvents([])
  {
  }

  lemma NewEventIff(before: seq<Row>, row: Row)
    ensures OwnEvents(before + [row]) <==> OwnEvents(before) && row.eventId !in EventIds(before)
  {
    var rows := before + [row];
    if OwnEvents(rows) {
      assert forall i :: 0 <= i < |before| ==> before[i] == rows[i];
      forall r | r in before ensures r.eventId != row.eventId {
        var i :| 0 <= i < |before| && before[i] == r;
        assert rows[i].eventId != rows[|before|].eventId;
      }
    }
    if OwnEvents(before) && row.eventId !in EventIds(before) {
      forall i, j | 0 <= i < j < |rows| ensures rows[i].eventId != rows[j].eventId {
        if j == |before| { assert before[i] in before; }
      }
    }
  }

  lemma AcceptableIff(m: Active, row: Row)
    ensures Acceptable(row) <==> row.eventId != "" && FoldAction(m, row.action).Some?
  {
    if row.action.Put? { MakeableIff(row.action.intent); }
  }

  // ---- which control decides -------------------------------------------------------------

  /** A control that has a say about a feature at a time: it stands, it has not ended by itself, and it
      is about the feature, or is proactive where heartbeat or autonomy is asked for. */
  ghost predicate HasASay(rows: seq<Row>, feature: Feature, now: int, i: Intent) {
    && Stands(rows, i) && (i.expires.Some? ==> now < i.expires.value)
    && (i.feature == feature || (i.feature.Proactive? && (feature.Heartbeat? || feature.Autonomy?)))
  }

  /** Who is heard first: the operator, then static settings, then the agent itself, then the
      scheduler; and among controls of one source those on proactive work. */
  predicate Stronger(c: Intent, d: Intent) {
    || (c.source.Operator? && !d.source.Operator?)
    || (c.source.Static? && (d.source.Self? || d.source.Scheduler?))
    || (c.source.Self? && d.source.Scheduler?)
    || (c.source == d.source && c.feature.Proactive? && !d.feature.Proactive?)
  }

  lemma SayIff(rows: seq<Row>, feature: Feature, now: int, i: Intent)
    requires Replay(rows).Some?
    ensures i in Candidates(Replay(rows).value, feature, now) <==> HasASay(rows, feature, now, i)
  {
    hide Stands, Replay;
    ActiveIff(rows, i);
    OneControlPerFeatureAndSource(rows);
    var m := Replay(rows).value;
    if i.id in m && m[i.id] == i && !Lapsed(i, now) { assert m[i.id] in InForce(m, now); }
  }

  lemma KnownSource(rows: seq<Row>, i: Intent)
    requires Stands(rows, i)
    ensures !i.source.OtherSource? && !i.mode.OtherMode?
  {
  }

  /** resolve: the winner is the control with a say that is stronger than every other one with a say,
      and there is always one if any control has a say. */
  lemma ResolveMeans(rows: seq<Row>, feature: Feature, now: int, r: Option<Intent>)
    requires Replay(rows).Some?
    ensures Wins(Candidates(Replay(rows).value, feature, now), r) <==>
            match r
            case None => forall i :: !HasASay(rows, feature, now, i)
            case Some(i) => HasASay(rows, feature, now, i) && forall d :: HasASay(rows, feature, now, d) && d != i ==> Stronger(i, d)
  {
    hide HasASay, Replay, Stands;
    var cs := Candidates(Replay(rows).value, feature, now);
    forall i ensures i in cs <==> HasASay(rows, feature, now, i) { SayIff(rows, feature, now, i); }
    if r.Some? && r.value in cs {
      forall d | d in cs && d != r.value ensures Below(d, r.value) <==> Stronger(r.value, d) {
        SaysDiffer(rows, feature, now, r.value, d);
      }
      BelowIsTotal(r.value, r.value);
    }
  }

  lemma SaysDiffer(rows: seq<Row>, feature: Feature, now: int, c: Intent, d: Intent)
    requires Replay(rows).Some? && c != d
    requires c in Candidates(Replay(rows).value, feature, now) && d in Candidates(Replay(rows).value, feature, now)
    ensures Below(d, c) <==> Stronger(c, d)
  {
    hide Replay, Candidates, Stands;
    SayIff(rows, feature, now, c);
    SayIff(rows, feature, now, d);
    KnownSource(rows, c);
    KnownSource(rows, d);
    if c.source == d.source && c.feature.Proactive? == d.feature.Proactive? { TieBreaksNeverDecide(rows, feature, now, c, d); }
  }

  /** The gate over a ledger: open if no control has a say, or the strongest is a one-shot request; it
      names the control that decided. */
  lemma GateOverHistory(rows: seq<Row>, feature: Feature, now: int, r: Option<Intent>)
    requires Replay(rows).Some? && Wins(Candidates(Replay(rows).value, feature, now), r)
    ensures EvaluateGate(r).allowed <==>
            forall i :: HasASay(rows, feature, now, i) ==>
              i.mode.PlayNext? || exists c :: HasASay(rows, feature, now, c) && c.mode.PlayNext? && Stronger(c, i)
    ensures match r
            case None => EvaluateGate(r) == Gate(true, None, None)
            case Some(i) => EvaluateGate(r) == Gate(i.mode.PlayNext?, Some(i.mode), Some(i.id))
  {
    hide HasASay, Replay, Candidates;
    ResolveMeans(rows, feature, now, r);
    if r.Some? {
      forall c | HasASay(rows, feature, now, c) && c != r.value ensures Stronger(r.value, c) && !Stronger(c, r.value) {
        assert Stronger(r.value, c);
      }
    }
  }
}
