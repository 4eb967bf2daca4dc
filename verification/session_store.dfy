/** The session store as the host uses it: mutable lifecycle states rebuilt from the ledger
    by every call, changed in place, and appended row by row (session.py:415-1397). */
module SessionStores {
  import opened Basics
  import opened SessionModel
  import opened SessionReplay
  import opened SessionAttempts
  import opened SessionCrash

  /** One lifecycle, updated in place by callbacks and terminals. */
  class LifecycleState {
    const sessionId: string
    const lifecycleId: string
    const supported: set<Hook>
    var callbacks: seq<Callback>
    var hooks: seq<Hook>
    var gates: set<Hook>
    var turns: map<string, Option<Outcome>>
    var terminals: map<string, Terminal>
    var terminalTurnIds: seq<string>
    var abandonedTurnIds: seq<string>
    var settledTurnIds: seq<string>
    var current: Option<string>
    var finalized: bool
    var privateSources: set<string>
    var privateContactCount: nat

    function Value(): Life
      reads this
    {
      Life(sessionId, lifecycleId, supported, callbacks, hooks, gates, turns, terminals,
           terminalTurnIds, abandonedTurnIds, settledTurnIds, current, finalized, privateSources, privateContactCount)
    }

    constructor (c: Context)
      ensures Value() == NewLife(c)
    {
      sessionId, lifecycleId, supported := c.sessionId, c.lifecycleId, c.supported;
      callbacks, hooks, gates, turns, terminals := [], [], {}, map[], map[];
      terminalTurnIds, abandonedTurnIds, settledTurnIds := [], [], [];
      current, finalized, privateSources, privateContactCount := None, false, {}, 0;
    }

    method ApplyHook(cb: Callback) returns (e: Option<SessionError>)
      modifies this
      ensures match HookEffect(old(Value()), cb)
              case Err(x) => e == Some(x) && Value() == old(Value())
              case Ok(s) => e == None && Value() == s
    {
      hide Compatible, ChildReason;
      match cb.hook {
        case PreGatewayDispatch =>
          if PreGatewayDispatch in gates { return Some(GateRepeated); }
          gates := gates + {PreGatewayDispatch};
        case OnSessionStart =>
          if OnSessionStart in gates { return Some(GateRepeated); }
          if PreGatewayDispatch in supported && PreGatewayDispatch !in gates { return Some(GateMissing); }
          gates := gates + {OnSessionStart};
        case PreLlmCall =>
          if cb.context.turnId.None? { return Some(TurnIdMissing); }
          if PreGatewayDispatch in supported && PreGatewayDispatch !in gates { return Some(GateMissing); }
          if OnSessionStart in supported && OnSessionStart !in gates { return Some(GateMissing); }
          if current.Some? { return Some(TurnOpen); }
          if cb.context.turnId.value in turns { return Some(TurnReused); }
          turns := turns[cb.context.turnId.value := None];
          current := cb.context.turnId;
        case PostLlmCall =>
          if cb.context.turnId.None? { return Some(TurnIdMissing); }
          var turn := cb.context.turnId.value;
          if turn in turns && turns[turn].Some? { return Some(TurnTerminal); }
          if current != Some(turn) || turn !in turns { return Some(NotCurrentTurn); }
          if cb.settled {
            turns := turns[turn := Some(Completed)];
            terminalTurnIds := terminalTurnIds + [turn];
            settledTurnIds := settledTurnIds + [turn];
            current := None;
          }
        case OnSessionEnd =>
          if cb.context.turnId.None? { return Some(TurnIdMissing); }
          if cb.context.turnId.value !in turns { return Some(TurnUnknown); }
          if turns[cb.context.turnId.value].None? { return Some(NoTerminalEvidence); }
        case SubagentStop =>
          if cb.context.turnId.None? { return Some(TurnIdMissing); }
          if cb.terminalReason.None? || !ChildReason(cb.terminalReason.value) { return Some(ReasonConflict); }
          var turn := cb.context.turnId.value;
          if turn !in turns || turn !in terminals || turns[turn] != Some(Abandoned) { return Some(NoTerminalEvidence); }
          if !Compatible(terminals[turn].reason, cb.terminalReason.value) { return Some(ReasonConflict); }
        case OnSessionFinalize =>
          if PreGatewayDispatch in supported && PreGatewayDispatch !in gates { return Some(GateMissing); }
          if OnSessionStart in supported && OnSessionStart !in gates { return Some(GateMissing); }
          if PreLlmCall in supported && turns == map[] { return Some(TurnUnknown); }
          var open := AnyOpenTurn();
          if current.Some? || open { return Some(TurnsNotSettled); }
          finalized := true;
      }
      return None;
    }

    method AnyOpenTurn() returns (b: bool)
      ensures b <==> exists t :: t in turns && turns[t].None?
    {
      var todo := turns.Keys;
      while todo != {}
        invariant todo <= turns.Keys
        invariant forall t <- turns.Keys - todo :: turns[t].Some?
      {
        var t :| t in todo;
        if turns[t].None? { return true; }
        todo := todo - {t};
      }
      return false;
    }

    /** _apply: a rejected callback leaves the state as it was. */
    method ApplyCallback(cb: Callback, allowDuplicate: bool) returns (r: Result<bool, SessionError>)
      modifies this
      ensures match Apply(old(Value()), cb, allowDuplicate)
              case Err(e) => r == Err(e) && Value() == old(Value())
              case Ok((duplicate, s)) => r == Ok(duplicate) && Value() == s
    {
      hide HookEffect;
      if cb.context.lifecycleId != lifecycleId || cb.context.sessionId != sessionId || cb.context.supported != supported {
        return Err(IdentityChanged);
      }
      if InputsRejected(cb.context, cb.hook, cb.settled) { return Err(BadInputs); }
      var existing := Lookup(callbacks, cb.Key());
      if existing.Some? {
        if allowDuplicate && SameCallback(existing.value, cb) { return Ok(true); }
        return Err(CallbackConflict);
      }
      if finalized { return Err(AlreadyFinalized); }
      if cb.hook !in supported { return Err(UnsupportedHook); }
      var e := ApplyHook(cb);
      if e.Some? { return Err(e.value); }
      callbacks := callbacks + [cb];
      hooks := hooks + [cb.hook];
      if cb.context.isFresh && cb.context.sourceKind.PrivateInbound? {
        privateSources := privateSources + {cb.context.sourceId};
        privateContactCount := |privateSources|;
      }
      return Ok(false);
    }

    /** _apply_terminal. */
    method CloseTurn(t: Terminal) returns (e: Option<SessionError>)
      modifies this
      ensures match ApplyTerminal(old(Value()), t)
              case Err(x) => e == Some(x) && Value() == old(Value())
              case Ok(s) => e == None && Value() == s
    {
      if t.lifecycleId != lifecycleId || t.sessionId != sessionId { return Some(IdentityChanged); }
      if finalized { return Some(AlreadyFinalized); }
      if t.turnId in terminals { return Some(TurnTerminal); }
      if t.turnId !in turns { return Some(TurnUnknown); }
      if turns[t.turnId].Some? { return Some(TurnTerminal); }
      if current != Some(t.turnId) { return Some(NotCurrentTurn); }
      turns := turns[t.turnId := Some(Abandoned)];
      terminals := terminals[t.turnId := t];
      terminalTurnIds := terminalTurnIds + [t.turnId];
      abandonedTurnIds := abandonedTurnIds + [t.turnId];
      current := None;
      return None;
    }
  }

  /** Rows appended one by one until the first failed append; the planned answer is given
      exactly when none failed. */
  ghost predicate Appended(before: seq<Row>, after: seq<Row>, a: Attempt, r: Result<Reply, SessionError>) {
    exists k :: 0 <= k <= |a.appends| && after == before + a.appends[..k] &&
      (if k < |a.appends| then r == Err(WriteFailed) else r == a.reply)
  }

  /** What one call may leave behind of an attempt. */
  ghost predicate Carried(before: seq<Row>, after: seq<Row>, a: Attempt, r: Result<Reply, SessionError>) {
    (a.appends == [] && after == before && r == a.reply) || Appended(before, after, a, r)
  }

  lemma NothingCarried(rows: seq<Row>, a: Attempt)
    ensures a.appends == [] ==> Carried(rows, rows, a, a.reply)
  {
  }

  lemma AppendedSome(before: seq<Row>, a: Attempt, r: Result<Reply, SessionError>, k: nat)
    requires k <= |a.appends|
    requires if k < |a.appends| then r == Err(WriteFailed) else r == a.reply
    ensures Appended(before, before + a.appends[..k], a, r)
  {
  }

  class SessionLifecycleStore {
    var rows: seq<Row>

    constructor ()
      ensures rows == []
    {
      rows := [];
    }

    /** The ledger is one the replay accepts. */
    ghost predicate Valid()
      reads this
    {
      Replay(rows).Ok?
    }

    /** One durable append; it may fail, and then nothing was written. */
    method Append(row: Row) returns (ok: bool)
      modifies this
      ensures rows == if ok then old(rows) + [row] else old(rows)
    {
      ok := *;
      if ok { rows := rows + [row]; }
    }

    /** Objects standing for the replayed states, all newly allocated. */
    ghost predicate Mirrors(states: map<string, LifecycleState>, b: Book)
      reads states.Values
    {
      && states.Keys == b.states.Keys
      && forall l <- states :: states[l].lifecycleId == l && states[l].Value() == b.states[l]
    }

    /** _replay_unlocked: a dictionary of states filled row by row. */
    method ReplayUnlocked() returns (r: Result<map<string, LifecycleState>, ReplayError>)
      ensures match Replay(rows)
              case Err(e) => r == Err(e)
              case Ok(b) => r.Ok? && Mirrors(r.value, b) && fresh(r.value.Values)
    {
      var states: map<string, LifecycleState> := map[];
      var events: set<string> := {};
      var i := 0;
      while i < |rows|
        invariant 0 <= i <= |rows|
        invariant Replay(rows[..i]).Ok? && events == Replay(rows[..i]).value.events
        invariant Mirrors(states, Replay(rows[..i]).value) && fresh(states.Values)
      {
        var row := rows[i];
        ghost var b := Replay(rows[..i]).value;
        assert Front(rows[..i + 1]) == rows[..i] && Last(rows[..i + 1]) == row;
        var error: Option<SessionError> := None;
        if !RowValid(row) {
          error := Some(InvalidRow);
        } else if row.Event() in events {
          error := Some(DuplicateEvent);
        } else {
          error, states := FoldInto(states, row, b);
        }
        if error.Some? {
          FailureIsPermanent(rows[..i + 1], rows[i + 1..]);
          assert rows[..i + 1] + rows[i + 1..] == rows;
          return Err(ReplayError(i + 1, error.value));
        }
        events := events + {row.Event()};
        i := i + 1;
      }
      assert rows[..i] == rows;
      return Ok(states);
    }

    /** Apply one valid row to the dictionary. */
    method FoldInto(states: map<string, LifecycleState>, row: Row, ghost b: Book)
        returns (error: Option<SessionError>, after: map<string, LifecycleState>)
      requires Mirrors(states, b)
      modifies states.Values
      ensures match FoldState(StateOf(b, row.Lifecycle()), row)
              case Err(e) => error == Some(e)
              case Ok(s) => error == None && Mirrors(after, b.(states := b.states[row.Lifecycle() := s]))
      ensures forall o <- after.Values :: o in states.Values || fresh(o)
    {
      hide Apply, ApplyTerminal;
      after := states;
      match row {
        case HookRow(cb) =>
          var l := cb.context.lifecycleId;
          if l !in states {
            var created := new LifecycleState(cb.context);
            after := states[l := created];
          }
          var state := after[l];
          var r := state.ApplyCallback(cb, false);
          if r.Err? { return Some(r.error), after; }
          ApplyKeepsId(if l in b.states then b.states[l] else NewLife(cb.context), cb, false);
        case TerminalRow(t) =>
          if t.lifecycleId !in states { return Some(UnknownLifecycle), after; }
          var state := states[t.lifecycleId];
          var e := state.CloseTurn(t);
          if e.Some? { return e, after; }
      }
      return None, after;
    }

    /** The state a call starts from: replayed, or new. */
    method StateFor(c: Context, ghost b: Book) returns (state: LifecycleState)
      requires Replay(rows) == Ok(b)
      ensures fresh(state) && state.Value() == LifeFor(b, c)
    {
      var replayed := ReplayUnlocked();
      if c.lifecycleId in replayed.value {
        state := replayed.value[c.lifecycleId];
        assert state in replayed.value.Values;
      } else {
        state := new LifecycleState(c);
      }
    }

    /** Append one or two rows in order, then answer; the in-memory state already holds both
        changes. */
    method AppendAll(planned: seq<Row>, reply: Reply) returns (r: Result<Reply, SessionError>)
      modifies this
      ensures Carried(old(rows), rows, Attempt(planned, Ok(reply)), r)
    {
      ghost var before := rows;
      for i := 0 to |planned|
        invariant rows == before + planned[..i]
      {
        var ok := Append(planned[i]);
        if !ok {
          AppendedSome(before, Attempt(planned, Ok(reply)), Err(WriteFailed), i);
          return Err(WriteFailed);
        }
        assert planned[..i + 1] == planned[..i] + [planned[i]];
      }
      AppendedSome(before, Attempt(planned, Ok(reply)), Ok(reply), |planned|);
      return Ok(reply);
    }

    /** Apply a callback in memory, then append its row. */
    method RecordCallback(state: LifecycleState, cb: Callback, allowDuplicate: bool)
        returns (r: Result<Reply, SessionError>)
      modifies this, state
      ensures var a := Record(old(state.Value()), cb, allowDuplicate, [], []);
              Carried(old(rows), rows, a, r)
    {
      hide Apply, Appended;
      var applied := state.ApplyCallback(cb, allowDuplicate);
      if applied.Err? { return Err(applied.error); }
      assert [] + [HookRow(cb)] == [HookRow(cb)];
      r := AppendAll([HookRow(cb)], HookReply(cb, false, state.Value()));
    }

    /** The old turn's terminal is durable before the successor is applied and appended. */
    method Supersede(state: LifecycleState, cb: Callback, terminal: Terminal) returns (r: Result<Reply, SessionError>)
      requires Partitioned(state.Value()) && SameLifecycle(state.Value(), cb.context) && cb.hook.PreLlmCall?
      requires !InputsRejected(cb.context, PreLlmCall, cb.settled)
      requires Lookup(state.callbacks, cb.Key()).None? && NewPreError(state.Value(), cb).None?
      requires state.current == Some(terminal.turnId)
      requires terminal.sessionId == state.sessionId && terminal.lifecycleId == state.lifecycleId
      modifies this, state
      ensures ApplyTerminal(old(state.Value()), terminal).Ok?
      ensures Carried(old(rows), rows,
                Record(ApplyTerminal(old(state.Value()), terminal).value, cb, true, [TerminalRow(terminal)], [TerminalRow(terminal)]), r)
    {
      SupersedingPreCannotFail(state.Value(), cb, terminal);
      hide Apply, ApplyTerminal;
      ghost var before := rows;
      ghost var a := Record(ApplyTerminal(state.Value(), terminal).value, cb, true, [TerminalRow(terminal)], [TerminalRow(terminal)]);
      assert a.appends == [TerminalRow(terminal), HookRow(cb)];
      var closeError := state.CloseTurn(terminal);
      var closed := Append(TerminalRow(terminal));
      if !closed {
        AppendedSome(before, a, Err(WriteFailed), 0);
        assert rows == before + a.appends[..0];
        return Err(WriteFailed);
      }
      var applied := state.ApplyCallback(cb, true);
      var ok := Append(HookRow(cb));
      r := if ok then Ok(HookReply(cb, false, state.Value())) else Err(WriteFailed);
      assert a.appends[..1] == [TerminalRow(terminal)] && a.appends[..2] == a.appends;
      assert rows == before + a.appends[..if ok then 2 else 1];
      AppendedSome(before, a, r, if ok then 2 else 1);
    }

    /** record_hook: the old turn's terminal is durable before the successor is applied. */
    method RecordHook(c: Context, hook: Hook, settled: bool, ids: Ids) returns (r: Result<Reply, SessionError>)
      requires Valid() && FreshIds(Replay(rows).value, ids)
      modifies this
      ensures Carried(old(rows), rows, AttemptHook(old(Replay(rows).value), c, hook, settled, ids), r)
      ensures Valid()
    {
      hide Apply, ApplyTerminal, Appended;
      CallKeepsLedger(rows, HookCall(c, hook, settled), ids, AttemptHook(Replay(rows).value, c, hook, settled, ids));
      ReplayPartitions(rows);
      ghost var b := Replay(rows).value;
      if InputsRejected(c, hook, settled) { return Err(BadInputs); }
      var cb := Callback(c, hook, settled, ids.callback, None);
      var state := StateFor(c, b);
      ghost var s := state.Value();
      var existing := Lookup(state.callbacks, cb.Key());
      if existing.Some? {
        var applied := state.ApplyCallback(cb, true);
        r := if applied.Err? then Err(applied.error) else Ok(HookReply(existing.value, true, state.Value()));
        DuplicateLeavesState(s, cb);
        return;
      }
      if hook.PreLlmCall? {
        if !SameLifecycle(state.Value(), c) { return Err(IdentityChanged); }
        var e := NewPreError(state.Value(), cb);
        if e.Some? { return Err(e.value); }
        if state.current.Some? {
          var terminal := Closing(state.Value(), state.current.value, SupersededByNewPre, c.turnId, c.observedAt, ids);
          r := Supersede(state, cb, terminal);
          return;
        }
      }
      r := RecordCallback(state, cb, true);
    }

    /** abandon_open_turn. */
    method AbandonOpenTurn(lifecycle: string, turn: string, at: int, ids: Ids) returns (r: Result<Reply, SessionError>)
      requires Valid() && FreshIds(Replay(rows).value, ids)
      modifies this
      ensures Carried(old(rows), rows, AttemptAbandon(old(Replay(rows).value), lifecycle, turn, at, ids), r)
      ensures Valid()
    {
      hide ApplyTerminal, Appended;
      CallKeepsLedger(rows, AbandonCall(lifecycle, turn, at), ids, AttemptAbandon(Replay(rows).value, lifecycle, turn, at, ids));
      ghost var b := Replay(rows).value;
      var replayed := ReplayUnlocked();
      if lifecycle !in replayed.value { return Err(UnknownLifecycle); }
      var state := replayed.value[lifecycle];
      assert state in replayed.value.Values;
      if turn in state.terminals {
        r := Ok(TerminalReply(state.terminals[turn], true, state.Value()));
        return;
      }
      if turn !in state.turns { return Err(TurnUnknown); }
      if state.turns[turn].Some? { return Err(TurnTerminal); }
      if state.current != Some(turn) { return Err(NotCurrentTurn); }
      r := CloseAndAppend(state, turn, OperatorRepair, at, ids);
    }

    /** Close the current turn in memory, then append its terminal. */
    method CloseAndAppend(state: LifecycleState, turn: string, reason: Reason, at: int, ids: Ids)
        returns (r: Result<Reply, SessionError>)
      modifies this, state
      ensures Carried(old(rows), rows, Close(old(state.Value()), turn, reason, at, ids), r)
    {
      hide ApplyTerminal, Appended;
      var terminal := Closing(state.Value(), turn, reason, None, at, ids);
      var e := state.CloseTurn(terminal);
      if e.Some? { return Err(e.value); }
      r := AppendAll([TerminalRow(terminal)], TerminalReply(terminal, false, state.Value()));
    }

    /** record_host_turn_end. */
    method RecordHostTurnEnd(c: Context, reason: Reason, ids: Ids) returns (r: Result<Reply, SessionError>)
      requires Valid() && FreshIds(Replay(rows).value, ids)
      modifies this
      ensures Carried(old(rows), rows, AttemptTurnEnd(old(Replay(rows).value), c, reason, ids), r)
      ensures Valid()
    {
      hide Apply, ApplyTerminal, Appended;
      CallKeepsLedger(rows, TurnEndCall(c, reason), ids, AttemptTurnEnd(Replay(rows).value, c, reason, ids));
      ghost var b := Replay(rows).value;
      if InputsRejected(c, OnSessionEnd, false) || !HostTurn(reason) {
        return Err(BadInputs);
      }
      var replayed := ReplayUnlocked();
      if c.lifecycleId !in replayed.value { return Ok(NoReply); }
      var state := replayed.value[c.lifecycleId];
      assert state in replayed.value.Values;
      ghost var s := state.Value();
      if c.turnId.None? { return Err(TurnIdMissing); }
      var turn := c.turnId.value;
      if turn !in state.turns { return Err(TurnUnknown); }
      var cb := Callback(c, OnSessionEnd, false, ids.callback, Some(reason));
      var records := OnSessionEnd in state.supported;
      var existing := FirstEnd(state.callbacks, turn);
      if existing.Some? {
        r := if SameCallback(existing.value, cb) then Ok(HookReply(existing.value, true, state.Value()))
             else Err(ReasonConflict);
        return;
      }
      if turn in state.terminals {
        if !Compatible(state.terminals[turn].reason, reason) {
          return Err(ReasonConflict);
        }
        if !records {
          r := Ok(TerminalReply(state.terminals[turn], true, state.Value()));
          return;
        }
      }
      if state.turns[turn] == Some(Completed) && reason.HostTurnInterrupted? {
        return Err(ReasonConflict);
      }
      var first: seq<Row> := [];
      var terminal := Closing(state.Value(), turn, reason, None, c.observedAt, ids);
      if state.turns[turn].None? {
        if state.current != Some(turn) { return Err(NotCurrentTurn); }
        var e := state.CloseTurn(terminal);
        if e.Some? { return Err(e.value); }
        first := [TerminalRow(terminal)];
      }
      if !records {
        if first == [] { return Ok(NoReply); }
        r := AppendAll(first, TerminalReply(terminal, false, state.Value()));
        return;
      }
      var applied := state.ApplyCallback(cb, false);
      if applied.Err? { return Err(applied.error); }
      r := AppendAll(first + [HookRow(cb)], HookReply(cb, false, state.Value()));
    }

    /** record_host_shutdown. */
    method RecordHostShutdown(c: Context, ids: Ids) returns (r: Result<Reply, SessionError>)
      requires Valid() && FreshIds(Replay(rows).value, ids)
      modifies this
      ensures Carried(old(rows), rows, AttemptShutdown(old(Replay(rows).value), c, ids), r)
      ensures Valid()
    {
      hide ApplyTerminal, Appended;
      CallKeepsLedger(rows, ShutdownCall(c), ids, AttemptShutdown(Replay(rows).value, c, ids));
      ghost var b := Replay(rows).value;
      if InputsRejected(c, OnSessionFinalize, false) { return Err(BadInputs); }
      var replayed := ReplayUnlocked();
      if c.lifecycleId !in replayed.value || replayed.value[c.lifecycleId].current.None? {
        return Ok(NoReply);
      }
      var state := replayed.value[c.lifecycleId];
      assert state in replayed.value.Values;
      r := CloseAndAppend(state, state.current.value, HostShutdown, c.observedAt, ids);
    }

    /** record_host_finalize. */
    method RecordHostFinalize(c: Context, ids: Ids) returns (r: Result<Reply, SessionError>)
      requires Valid() && FreshIds(Replay(rows).value, ids)
      modifies this
      ensures Carried(old(rows), rows, AttemptFinalize(old(Replay(rows).value), c, ids), r)
      ensures Valid()
    {
      hide Apply, ApplyTerminal, Appended;
      CallKeepsLedger(rows, FinalizeCall(c), ids, AttemptFinalize(Replay(rows).value, c, ids));
      ghost var b := Replay(rows).value;
      if InputsRejected(c, OnSessionFinalize, false) { return Err(BadInputs); }
      var cb := Callback(c, OnSessionFinalize, false, ids.callback, None);
      var state := StateFor(c, b);
      ghost var s := state.Value();
      var existing := Lookup(state.callbacks, cb.Key());
      if existing.Some? {
        var applied := state.ApplyCallback(cb, true);
        r := if applied.Err? then Err(applied.error) else Ok(HookReply(existing.value, true, state.Value()));
        DuplicateLeavesState(s, cb);
        return;
      }
      var first: seq<Row> := [];
      if state.current.Some? {
        var terminal := Closing(state.Value(), state.current.value, HostSessionFinalized, None, c.observedAt, ids);
        var e := state.CloseTurn(terminal);
        if e.Some? { return Err(e.value); }
        first := [TerminalRow(terminal)];
      }
      var applied := state.ApplyCallback(cb, true);
      if applied.Err? { return Err(applied.error); }
      r := AppendAll(first + [HookRow(cb)], HookReply(cb, false, state.Value()));
    }

    method MatchingStates(states: map<string, LifecycleState>, session: string, ghost b: Book) returns (matches: set<string>)
      requires Mirrors(states, b)
      ensures matches == Matching(b, session)
    {
      matches := set l | l in states && states[l].sessionId == session;
      forall l ensures l in matches <==> l in Matching(b, session) {
        if l in states { assert states[l].Value() == b.states[l]; }
      }
    }

    /** record_host_child_stop. */
    method RecordHostChildStop(session: string, reason: Reason, at: int, ids: Ids) returns (r: Result<Reply, SessionError>)
      requires Valid() && FreshIds(Replay(rows).value, ids)
      modifies this
      ensures Carried(old(rows), rows, AttemptChildStop(old(Replay(rows).value), session, reason, at, ids), r)
      ensures Valid()
    {
      hide Apply, ApplyTerminal, Carried, AttemptChildStopOn, Partitioned;
      CallKeepsLedger(rows, ChildStopCall(session, reason, at), ids, AttemptChildStop(Replay(rows).value, session, reason, at, ids));
      ReplayPartitions(rows);
      ghost var b := Replay(rows).value;
      NothingCarried(rows, AttemptChildStop(b, session, reason, at, ids));
      if !ChildReason(reason) { return Err(BadInputs); }
      var replayed := ReplayUnlocked();
      var matches := MatchingStates(replayed.value, session, b);
      if |matches| > 1 { return Err(AmbiguousChild); }
      if matches == {} { return Ok(NoReply); }
      var l :| l in matches;
      assert matches == {l} by { assert |matches - {l}| == 0; }
      var state := replayed.value[l];
      assert state in replayed.value.Values;
      r := StopChild(state, session, reason, at, ids);
    }

    method StopChild(state: LifecycleState, session: string, reason: Reason, at: int, ids: Ids)
        returns (r: Result<Reply, SessionError>)
      requires Partitioned(state.Value())
      modifies this, state
      ensures Carried(old(rows), rows, AttemptChildStopOn(old(state.Value()), session, reason, at, ids), r)
    {
      hide Apply, ApplyTerminal, Appended;
      var children := ChildCallbacks(state.callbacks);
      if |children| > 1 { return Err(AmbiguousChild); }
      if |children| == 1 {
        var cb := children[0];
        if cb.terminalReason != Some(reason) { return Err(ReasonConflict); }
        if cb.context.turnId.None? { return Err(TurnIdMissing); }
        var turn := cb.context.turnId.value;
        r := if turn in state.terminals && turn in state.turns && state.turns[turn] == Some(Abandoned)
                && Compatible(state.terminals[turn].reason, reason)
             then Ok(HookReply(cb, true, state.Value())) else Err(ReasonConflict);
        return;
      }
      if state.current.None? && |state.turns| != 1 { return Err(AmbiguousChild); }
      var turn;
      if state.current.Some? {
        turn := state.current.value;
      } else {
        turn :| turn in state.turns.Keys;
        assert turn == OnlyTurn(state.Value()) by {
          assert |state.turns.Keys - {turn}| == 0;
        }
      }
      if state.turns[turn] == Some(Completed) { return Err(ReasonConflict); }
      var created := state.turns[turn].None?;
      if created {
        if state.current != Some(turn) { return Err(NotCurrentTurn); }
        var terminal := Closing(state.Value(), turn, reason, None, at, ids);
        var e := state.CloseTurn(terminal);
        if e.Some? { return Err(e.value); }
        r := StopClosedChild(state, session, turn, terminal, true, reason, at, ids);
      } else {
        if turn !in state.terminals || !Compatible(state.terminals[turn].reason, reason) {
          return Err(ReasonConflict);
        }
        r := StopClosedChild(state, session, turn, state.terminals[turn], false, reason, at, ids);
      }
    }

    method StopClosedChild(state: LifecycleState, session: string, turn: string, terminal: Terminal, created: bool,
                           reason: Reason, at: int, ids: Ids) returns (r: Result<Reply, SessionError>)
      modifies this, state
      ensures Carried(old(rows), rows,
                AttemptChildCallback(old(state.Value()), session, turn, terminal, created, reason, at, ids), r)
    {
      hide Apply, Appended;
      if state.finalized {
        r := Ok(TerminalReply(terminal, true, state.Value()));
        return;
      }
      var first := if created then [TerminalRow(terminal)] else [];
      if SubagentStop !in state.supported {
        r := AppendAll(first, TerminalReply(terminal, !created, state.Value()));
        return;
      }
      var context: Context := ChildContext(state.Value(), session, turn, at);
      var cb := Callback(context, SubagentStop, false, ids.callback, Some(reason));
      var applied := state.ApplyCallback(cb, false);
      if applied.Err? { return Err(applied.error); }
      r := AppendAll(first + [HookRow(cb)], HookReply(cb, false, state.Value()));
    }
  }

  lemma DuplicateLeavesState(s: Life, cb: Callback)
    requires Lookup(s.callbacks, cb.Key()).Some?
    ensures Apply(s, cb, true).Ok? ==> Apply(s, cb, true).value == (true, s)
  {
  }

  /** Whatever part of a call was carried out, the ledger still replays. */
  lemma CallKeepsLedger(before: seq<Row>, call: Call, ids: Ids, a: Attempt)
    requires Replay(before).Ok? && FreshIds(Replay(before).value, ids)
    requires a == AttemptOf(Replay(before).value, call, ids)
    ensures forall after, r :: Carried(before, after, a, r) ==> Replay(after).Ok?
  {
    hide AttemptOf;
    ReplayPartitions(before);
    AttemptCrashClosed(Replay(before).value, call, ids);
    forall after, r | Carried(before, after, a, r) ensures Replay(after).Ok? {
      if after != before {
        var k :| 0 <= k <= |a.appends| && after == before + a.appends[..k] &&
          (if k < |a.appends| then r == Err(WriteFailed) else r == a.reply);
        if k == |a.appends| { assert a.appends[..k] == a.appends; }
        ReplayThenFold(before, a.appends[..k]);
      }
    }
  }
}
