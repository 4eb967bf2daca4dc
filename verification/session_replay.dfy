/** What every accepted session ledger guarantees: how turns are partitioned, and that
    lifecycles sharing the ledger do not touch one another (session.py:521-889). */
module SessionReplay {
  import opened Basics
  import opened SessionModel

  // ---- turn partition ----------------------------------------------------------------

  function Select(ids: seq<string>, turns: map<string, Option<Outcome>>, outcome: Outcome): seq<string> {
    if ids == [] then []
    else Select(Front(ids), turns, outcome) +
         (if Last(ids) in turns && turns[Last(ids)] == Some(outcome) then [Last(ids)] else [])
  }

  lemma {:induction false} SelectDependsOnIds(
      ids: seq<string>, a: map<string, Option<Outcome>>, b: map<string, Option<Outcome>>, outcome: Outcome)
    requires forall t <- ids :: t in a && t in b && a[t] == b[t]
    ensures Select(ids, a, outcome) == Select(ids, b, outcome)
  {
    if ids != [] {
      assert Last(ids) in ids && forall t <- Front(ids) :: t in ids;
      SelectDependsOnIds(Front(ids), a, b, outcome);
    }
  }

  /** The turns without an outcome are exactly the current one; the terminal list names
      every finished turn once, and the settled and abandoned lists are its completed and
      abandoned entries in order; terminal evidence exists for exactly the abandoned turns;
      a finalized lifecycle has no open turn. */
  ghost predicate Partitioned(s: Life) {
    && (s.current.Some? ==> s.current.value in s.turns)
    && (forall t <- s.turns :: s.turns[t].None? <==> s.current == Some(t))
    && Distinct(s.terminalTurnIds)
    && (forall t :: t in s.terminalTurnIds <==> t in s.turns && s.turns[t].Some?)
    && s.settledTurnIds == Select(s.terminalTurnIds, s.turns, Completed)
    && s.abandonedTurnIds == Select(s.terminalTurnIds, s.turns, Abandoned)
    && (forall t :: t in s.terminals <==> t in s.turns && s.turns[t] == Some(Abandoned))
    && (forall t <- s.terminals :: s.terminals[t].turnId == t)
    && (s.finalized ==> s.current.None?)
    && s.privateContactCount == |s.privateSources|
    && |s.hooks| == |s.callbacks|
  }

  /** Finishing the open turn keeps the partition. */
  lemma FinishTurnKeepsPartition(s: Life, turn: string, outcome: Outcome, s': Life)
    requires Partitioned(s) && s.current == Some(turn)
    requires s'.turns == s.turns[turn := Some(outcome)] && s'.current.None?
    requires s'.terminalTurnIds == s.terminalTurnIds + [turn]
    requires s'.settledTurnIds == s.settledTurnIds + (if outcome.Completed? then [turn] else [])
    requires s'.abandonedTurnIds == s.abandonedTurnIds + (if outcome.Abandoned? then [turn] else [])
    requires s'.terminals.Keys == s.terminals.Keys + (if outcome.Abandoned? then {turn} else {})
    requires forall t <- s'.terminals :: s'.terminals[t].turnId == t
    requires s'.privateContactCount == |s'.privateSources| && |s'.hooks| == |s'.callbacks|
    ensures Partitioned(s')
  {
    assert turn !in s.terminalTurnIds;
    FrontOfAppend(s.terminalTurnIds, turn);
    SelectDependsOnIds(s.terminalTurnIds, s.turns, s'.turns, Completed);
    SelectDependsOnIds(s.terminalTurnIds, s.turns, s'.turns, Abandoned);
    assert Select(s'.terminalTurnIds, s'.turns, Completed) == s'.settledTurnIds;
    assert Select(s'.terminalTurnIds, s'.turns, Abandoned) == s'.abandonedTurnIds;
  }

  lemma ApplyTerminalKeepsPartition(s: Life, t: Terminal)
    requires Partitioned(s) && ApplyTerminal(s, t).Ok?
    ensures Partitioned(ApplyTerminal(s, t).value)
  {
    var s' := ApplyTerminal(s, t).value;
    FinishTurnKeepsPartition(s, t.turnId, Abandoned, s');
  }

  lemma OpenTurnKeepsPartition(s: Life, turn: string)
    requires Partitioned(s) && !s.finalized && s.current.None? && turn !in s.turns
    ensures Partitioned(s.(turns := s.turns[turn := None], current := Some(turn)))
  {
    SelectDependsOnIds(s.terminalTurnIds, s.turns, s.turns[turn := None], Completed);
    SelectDependsOnIds(s.terminalTurnIds, s.turns, s.turns[turn := None], Abandoned);
  }

  lemma HookEffectKeepsPartition(s: Life, cb: Callback)
    requires Partitioned(s) && !s.finalized && HookEffect(s, cb).Ok?
    ensures Partitioned(HookEffect(s, cb).value)
  {
    match cb.hook
    case PostLlmCall =>
      if cb.settled { FinishTurnKeepsPartition(s, cb.context.turnId.value, Completed, HookEffect(s, cb).value); }
    case PreLlmCall => OpenTurnKeepsPartition(s, cb.context.turnId.value);
    case PreGatewayDispatch =>
    case OnSessionStart =>
    case OnSessionEnd =>
    case SubagentStop =>
    case OnSessionFinalize =>
  }

  lemma ApplyKeepsPartition(s: Life, cb: Callback, allowDuplicate: bool)
    requires Partitioned(s) && Apply(s, cb, allowDuplicate).Ok?
    ensures Partitioned(Apply(s, cb, allowDuplicate).value.1)
  {
    if !Apply(s, cb, allowDuplicate).value.0 {
      HookEffectKeepsPartition(s, cb);
    }
  }

  /** Every lifecycle of every accepted ledger is filed under its own id and partitioned. */
  ghost predicate BookKept(b: Book) {
    forall l <- b.states :: b.states[l].lifecycleId == l && Partitioned(b.states[l])
  }

  lemma StateIsKept(b: Book, l: string)
    requires BookKept(b) && l in b.states
    ensures b.states[l].lifecycleId == l && Partitioned(b.states[l])
  {
  }

  lemma FoldStateKeeps(state: Option<Life>, row: Row)
    requires state.Some? ==> state.value.lifecycleId == row.Lifecycle() && Partitioned(state.value)
    requires FoldState(state, row).Ok?
    ensures FoldState(state, row).value.lifecycleId == row.Lifecycle()
    ensures Partitioned(FoldState(state, row).value)
  {
    hide Partitioned, HookEffect, Recorded, Lookup;
    match row
    case HookRow(cb) =>
      NewLifeIsPartitioned(cb.context);
      ApplyKeepsPartition(if state.Some? then state.value else NewLife(cb.context), cb, false);
      ApplyKeepsId(if state.Some? then state.value else NewLife(cb.context), cb, false);
    case TerminalRow(t) =>
      ApplyTerminalKeepsPartition(state.value, t);
  }

  lemma NewLifeIsPartitioned(c: Context)
    ensures Partitioned(NewLife(c))
  {
  }

  lemma ApplyKeepsId(s: Life, cb: Callback, allowDuplicate: bool)
    requires Apply(s, cb, allowDuplicate).Ok?
    ensures Apply(s, cb, allowDuplicate).value.1.lifecycleId == s.lifecycleId == cb.context.lifecycleId
  {
  }

  lemma {:induction false} ReplayPartitions(rows: seq<Row>)
    requires Replay(rows).Ok?
    ensures BookKept(Replay(rows).value)
  {
    if rows != [] {
      ReplayPartitions(Front(rows));
      var b, row := Replay(Front(rows)).value, Last(rows);
      FoldStateKeeps(StateOf(b, row.Lifecycle()), row);
    }
  }

  /** Once a lifecycle is finalized no row of it is ever accepted again. */
  lemma FinalizedIsClosed(rows: seq<Row>, lifecycle: string, row: Row)
    requires Replay(rows).Ok? && lifecycle in Replay(rows).value.states
    requires Replay(rows).value.states[lifecycle].finalized && row.Lifecycle() == lifecycle
    ensures Replay(rows + [row]).Err?
  {
    FrontOfAppend(rows, row);
  }

  // ---- locality ----------------------------------------------------------------------

  function Mine(rows: seq<Row>, lifecycle: string): seq<Row> {
    if rows == [] then []
    else Mine(Front(rows), lifecycle) + (if Last(rows).Lifecycle() == lifecycle then [Last(rows)] else [])
  }

  predicate DistinctEvents(rows: seq<Row>) {
    forall i, j :: 0 <= i < j < |rows| ==> rows[i].Event() != rows[j].Event()
  }

  lemma {:induction false} EventsOfReplay(rows: seq<Row>)
    requires Replay(rows).Ok?
    ensures Replay(rows).value.events == set row <- rows :: row.Event()
    ensures DistinctEvents(rows)
  {
    if rows != [] {
      EventsOfReplay(Front(rows));
      SplitLast(rows);
      assert forall row :: row in rows <==> row in Front(rows) || row == Last(rows);
      assert forall i :: 0 <= i < |rows| - 1 ==> rows[i] == Front(rows)[i] && rows[i] in Front(rows);
    }
  }

  /** Replaying everything and looking up one lifecycle is replaying only its own rows. */
  lemma {:induction false} ReplayIsLocal(rows: seq<Row>, lifecycle: string)
    requires Replay(rows).Ok?
    ensures Replay(Mine(rows, lifecycle)).Ok?
    ensures StateOf(Replay(rows).value, lifecycle) == StateOf(Replay(Mine(rows, lifecycle)).value, lifecycle)
    ensures Replay(Mine(rows, lifecycle)).value.events <= Replay(rows).value.events
  {
    hide FoldState, RowValid;
    if rows != [] {
      ReplayIsLocal(Front(rows), lifecycle);
      if Last(rows).Lifecycle() == lifecycle {
        FrontOfAppend(Mine(Front(rows), lifecycle), Last(rows));
      } else {
        assert Mine(rows, lifecycle) == Mine(Front(rows), lifecycle);
      }
    }
  }

  /** Conversely, rows that are acceptable lifecycle by lifecycle, with globally distinct
      event ids, are accepted in whatever order they are interleaved. */
  lemma {:induction false} InterleavingsAreAccepted(rows: seq<Row>)
    requires DistinctEvents(rows)
    requires forall lifecycle :: Replay(Mine(rows, lifecycle)).Ok?
    ensures Replay(rows).Ok?
  {
    if rows != [] {
      var before, row := Front(rows), Last(rows);
      forall lifecycle ensures Replay(Mine(before, lifecycle)).Ok? {
        assert Mine(rows, lifecycle)[..|Mine(before, lifecycle)|] == Mine(before, lifecycle);
        PrefixAccepted(Mine(rows, lifecycle), |Mine(before, lifecycle)|);
      }
      InterleavingsAreAccepted(before);
      ReplayIsLocal(before, row.Lifecycle());
      FrontOfAppend(Mine(before, row.Lifecycle()), row);
      EventsOfReplay(before);
      assert Replay(Mine(rows, row.Lifecycle())).Ok?;
    }
  }

  ghost predicate LocallyAccepted(rows: seq<Row>) {
    DistinctEvents(rows) && forall lifecycle :: Replay(Mine(rows, lifecycle)).Ok?
  }

  /** Both directions: a shared ledger is accepted exactly when its event ids are distinct
      and each lifecycle's own rows are accepted. */
  lemma AcceptedIffLocallyAccepted(rows: seq<Row>)
    ensures Replay(rows).Ok? <==> LocallyAccepted(rows)
  {
    if Replay(rows).Ok? {
      EventsOfReplay(rows);
      forall lifecycle ensures Replay(Mine(rows, lifecycle)).Ok? { ReplayIsLocal(rows, lifecycle); }
    }
    if LocallyAccepted(rows) {
      InterleavingsAreAccepted(rows);
    }
  }
}
