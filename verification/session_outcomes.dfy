/** What one completed call of each session mutator does: the rows it appends, the answer it gives
    and the lifecycle it leaves, stated on the replays before and after it and on the history of
    the lifecycle (moonbite_plugin/session.py:932-1397). */
module SessionOutcomes {
  import opened Basics
  import opened SessionModel
  import opened SessionReplay
  import opened SessionAttempts
  import opened SessionCrash
  import opened SessionRuns
  import opened SessionHistory

  /** The lifecycle of a call after a turn was given up: this turn ended with this terminal, no turn
      is open, and everything else is as it was. */
  predicate GaveUp(s: Life, u: Life, t: Terminal) {
    && u.turns == s.turns[t.turnId := Some(Abandoned)] && u.terminals == s.terminals[t.turnId := t]
    && u.terminalTurnIds == s.terminalTurnIds + [t.turnId] && u.abandonedTurnIds == s.abandonedTurnIds + [t.turnId]
    && u.settledTurnIds == s.settledTurnIds && u.current == None
    && u.sessionId == s.sessionId && u.lifecycleId == s.lifecycleId && u.supported == s.supported
    && u.callbacks == s.callbacks && u.hooks == s.hooks && u.gates == s.gates && u.finalized == s.finalized
    && u.privateSources == s.privateSources && u.privateContactCount == s.privateContactCount
  }

  /** The ledger after the call replays, to the lifecycle it answered with and all others as before,
      and that lifecycle remembers exactly its rows. */
  ghost predicate Shown(rows: seq<Row>, a: Attempt) {
    && Replay(rows).Ok? && Replay(rows + a.appends).Ok?
    && (a.reply.Err? ==> a.appends == [])
    && (a.reply == Ok(NoReply) ==> a.appends == [])
    && (a.reply.Ok? && !a.reply.value.NoReply? ==>
          var life := a.reply.value.life;
          && Replay(rows + a.appends).value.states == Replay(rows).value.states[life.lifecycleId := life]
          && Remembers(life, Mine(rows + a.appends, life.lifecycleId)))
  }

  lemma CallIsShown(rows: seq<Row>, call: Call, ids: Ids)
    requires Replay(rows).Ok? && FreshIds(Replay(rows).value, ids)
    ensures Shown(rows, AttemptOf(Replay(rows).value, call, ids))
  {
    hide AttemptOf, Remembers, BookKept, CrashClosed, FoldRows;
    var b := Replay(rows).value;
    var a := AttemptOf(b, call, ids);
    CompletedCallMatchesReplay(rows, call, ids);
    ReplayPartitions(rows);
    AttemptCrashClosed(b, call, ids);
    NothingForNoReply(b, a);
    if a.reply.Ok? && !a.reply.value.NoReply? { StateRemembersHistory(rows + a.appends, a.reply.value.life.lifecycleId); }
  }

  lemma NothingForNoReply(b: Book, a: Attempt)
    requires CrashClosed(b, a)
    ensures a.reply.Ok? && a.reply.value.NoReply? ==> a.appends == []
  {
    hide FoldRows;
  }

  /** The open turn of a lifecycle, if there is one. */
  function OpenTurn(b: Book, l: string): Option<string> { if l in b.states then b.states[l].current else None }

  /** The rows that give up the open turn of a lifecycle for a reason. */
  function GivingUp(b: Book, l: string, reason: Reason, successor: Option<string>, at: int, id: string): seq<Row> {
    if OpenTurn(b, l).None? then []
    else [TerminalRow(Terminal(id, b.states[l].sessionId, l, OpenTurn(b, l).value, reason, successor, at))]
  }

  lemma OpenTurnGivesUp(s: Life, t: Terminal)
    requires Partitioned(s) && s.current == Some(t.turnId) && t.sessionId == s.sessionId && t.lifecycleId == s.lifecycleId
    ensures ApplyTerminal(s, t).Ok? && GaveUp(s, ApplyTerminal(s, t).value, t)
    ensures Partitioned(ApplyTerminal(s, t).value)
  {
    ApplyTerminalKeepsPartition(s, t);
  }

  /** Recording a callback succeeds exactly when the history admits it. */
  lemma RecordedIff(s: Life, mine: seq<Row>, cb: Callback, allowDuplicate: bool, already: seq<Row>, onError: seq<Row>)
    requires Partitioned(s) && Remembers(s, mine) && cb.context.lifecycleId == s.lifecycleId
    requires mine == [] ==> s == NewLife(cb.context)
    requires ReasonFits(cb.hook, cb.terminalReason) || cb.terminalReason.None?
    requires !KeyUsed(mine, cb.Key())
    ensures var a := Record(s, cb, allowDuplicate, already, onError);
            && (a.reply.Ok? <==> Admissible(mine, HookRow(cb)))
            && (a.reply.Ok? ==> a.appends == already + [HookRow(cb)] && a.reply.value.HookReply?
                                && a.reply.value.callback == cb && !a.reply.value.deduplicated)
            && (a.reply.Err? ==> a.appends == onError)
  {
    hide HookEffect, Recorded, InputsRejected, Remembers, Partitioned, Admissible, RowValid, KeyUsed;
    CallbackAcceptedIff(s, mine, cb);
    NoKey(s, mine, cb.Key());
    if Apply(s, cb, false).Ok? {
      if ReasonFits(cb.hook, cb.terminalReason) { ReasonFitsIff(cb); } else { AppliedCallbackIsValidRow(s, cb, false); }
    }
  }

  lemma NoKey(s: Life, mine: seq<Row>, key: Key)
    requires Remembers(s, mine) && !KeyUsed(mine, key)
    ensures Lookup(s.callbacks, key).None?
  {
    KeyUsedIsFound(mine, key);
  }

  /** The state of a call's lifecycle remembers its history, also when it is new. */
  lemma LifeForRemembers(rows: seq<Row>, c: Context)
    requires Replay(rows).Ok?
    ensures var s, mine := LifeFor(Replay(rows).value, c), Mine(rows, c.lifecycleId);
            && Partitioned(s) && Remembers(s, mine) && s.lifecycleId == c.lifecycleId && (mine == [] ==> s == NewLife(c))
            && (mine != [] <==> c.lifecycleId in Replay(rows).value.states)
  {
    hide Partitioned, Remembers;
    ReplayPartitions(rows);
    StateRemembersHistory(rows, c.lifecycleId);
    NewLifeRemembersNothing(c);
    NewLifeIsPartitioned(c);
    if c.lifecycleId in Replay(rows).value.states { StateIsKept(Replay(rows).value, c.lifecycleId); }
  }

  // ---- shutdown and abandon --------------------------------------------------------------

  /** A shutdown closes the open turn, if there is one, and nothing else. */
  lemma ShutdownMeans(rows: seq<Row>, c: Context, ids: Ids)
    requires Replay(rows).Ok? && FreshIds(Replay(rows).value, ids)
    ensures var b, l := Replay(rows).value, c.lifecycleId;
            var a := AttemptOf(b, ShutdownCall(c), ids);
            && Shown(rows, a)
            && (a.reply.Err? <==> !c.sourceKind.System?) && (a.reply.Err? ==> a.reply == Err(BadInputs))
            && (a.reply == Ok(NoReply) <==> c.sourceKind.System? && OpenTurn(b, l).None?)
            && (c.sourceKind.System? && OpenTurn(b, l).Some? ==>
                  AnsweredGivingUp(b, l, GivingUp(b, l, HostShutdown, None, c.observedAt, ids.terminal), a))
  {
    hide Shown, ApplyTerminal, GaveUp, Partitioned;
    var b, l := Replay(rows).value, c.lifecycleId;
    CallIsShown(rows, ShutdownCall(c), ids);
    ReplayPartitions(rows);
    if OpenTurn(b, l).Some? {
      StateIsKept(b, l);
      OpenTurnGivesUp(b.states[l], Closing(b.states[l], OpenTurn(b, l).value, HostShutdown, None, c.observedAt, ids));
    }
  }

  /** The turn is given up, for a reason, by one terminal row. */
  predicate AnsweredGivingUp(b: Book, l: string, closing: seq<Row>, a: Attempt) {
    && a.appends == closing && |closing| == 1 && l in b.states
    && a.reply.Ok? && a.reply.value.TerminalReply? && TerminalRow(a.reply.value.terminal) == closing[0]
    && !a.reply.value.deduplicated && GaveUp(b.states[l], a.reply.value.life, a.reply.value.terminal)
  }

  /** The call is answered with the terminal the turn already has. */
  predicate AnsweredGivenUp(b: Book, l: string, turn: string, a: Attempt) {
    && l in b.states && turn in b.states[l].terminals
    && a == Attempt([], Ok(TerminalReply(b.states[l].terminals[turn], true, b.states[l])))
  }

  /** An operator repair is a compare-and-set on the open turn; repeated, it answers with the terminal
      the turn already has. */
  lemma AbandonMeans(rows: seq<Row>, l: string, turn: string, at: int, ids: Ids)
    requires Replay(rows).Ok? && FreshIds(Replay(rows).value, ids)
    ensures var b := Replay(rows).value;
            var a := AttemptOf(b, AbandonCall(l, turn, at), ids);
            && Shown(rows, a)
            && (a.reply.Ok? <==> l in b.states && turn in b.states[l].turns && b.states[l].turns[turn] != Some(Completed))
            && (OpenTurn(b, l) == Some(turn) ==>
                  AnsweredGivingUp(b, l, GivingUp(b, l, OperatorRepair, None, at, ids.terminal), a))
            && (a.reply.Ok? && OpenTurn(b, l) != Some(turn) ==> AnsweredGivenUp(b, l, turn, a))
            && (l !in b.states ==> a.reply == Err(UnknownLifecycle))
            && (l in b.states && a.reply.Err? ==> a.reply.error == if turn in b.states[l].turns then TurnTerminal else TurnUnknown)
  {
    hide Shown, GaveUp, BookKept, Replay, Partitioned, FreshIds, ApplyTerminal;
    CallIsShown(rows, AbandonCall(l, turn, at), ids);
    ReplayPartitions(rows);
    var b := Replay(rows).value;
    if l in b.states { AbandonOn(b, l, turn, at, ids); }
  }

  lemma AbandonOn(b: Book, l: string, turn: string, at: int, ids: Ids)
    requires BookKept(b) && l in b.states
    ensures var a, s := AttemptAbandon(b, l, turn, at, ids), b.states[l];
            && (a.reply.Ok? <==> turn in s.turns && s.turns[turn] != Some(Completed))
            && (s.current == Some(turn) ==> AnsweredGivingUp(b, l, GivingUp(b, l, OperatorRepair, None, at, ids.terminal), a))
            && (a.reply.Ok? && s.current != Some(turn) ==> AnsweredGivenUp(b, l, turn, a))
            && (a.reply.Err? ==> a.reply.error == if turn in s.turns then TurnTerminal else TurnUnknown)
  {
    hide ApplyTerminal, GaveUp, Partitioned;
    ConsistentTurns(b, l);
    StateIsKept(b, l);
    CurrentIsKnown(b.states[l]);
    assert turn in b.states[l].turns && b.states[l].turns[turn].Some? ==>
      b.states[l].turns[turn].value.Completed? || b.states[l].turns[turn].value.Abandoned?;
    if b.states[l].current == Some(turn) {
      OpenTurnGivesUp(b.states[l], Closing(b.states[l], turn, OperatorRepair, None, at, ids));
    }
  }

  lemma CurrentIsKnown(s: Life)
    requires Partitioned(s)
    ensures s.current.Some? ==> s.current.value in s.turns && s.turns[s.current.value].None? && s.current.value !in s.terminals
    ensures forall t <- s.terminals :: t in s.turns && s.turns[t] == Some(Abandoned)
  {
  }

  // ---- hooks and finalize ----------------------------------------------------------------

  /** The same callback reported again; the time and the event id may differ. */
  predicate Again(earlier: Callback, cb: Callback) {
    && earlier.hook == cb.hook && earlier.settled == cb.settled && earlier.terminalReason == cb.terminalReason
    && earlier.context.sessionId == cb.context.sessionId && earlier.context.lifecycleId == cb.context.lifecycleId
    && earlier.context.sourceId == cb.context.sourceId && earlier.context.turnId == cb.context.turnId
    && earlier.context.sourceKind == cb.context.sourceKind && earlier.context.isFresh == cb.context.isFresh
    && earlier.context.supported == cb.context.supported
  }

  /** The answer to a callback whose hook, source and turn the lifecycle has seen. */
  ghost predicate AnsweredAgain(b: Book, mine: seq<Row>, cb: Callback, a: Attempt) {
    && a.appends == []
    && (a.reply.Ok? ==>
          && a.reply.value.HookReply? && a.reply.value.deduplicated && HookRow(a.reply.value.callback) in mine
          && Again(a.reply.value.callback, cb)
          && cb.context.lifecycleId in b.states && a.reply.value.life == b.states[cb.context.lifecycleId])
    && (a.reply.Err? ==> !Fits(cb.context, cb.hook, cb.settled) || exists row :: row in mine && CarriesKey(row, cb.Key()) && !Again(row.callback, cb))
  }

  /** The answer to a new callback: recorded, after the rows that give way to it, exactly when the
      history then admits it. */
  ghost predicate AnsweredNew(mine: seq<Row>, closing: seq<Row>, cb: Callback, a: Attempt) {
    && (a.reply.Ok? <==> Admissible(mine + closing, HookRow(cb)))
    && (a.reply.Ok? ==>
          && a.appends == closing + [HookRow(cb)]
          && a.reply.value.HookReply? && a.reply.value.callback == cb && !a.reply.value.deduplicated)
  }

  lemma AgainIff(earlier: Callback, cb: Callback)
    ensures Again(earlier, cb) <==> SameCallback(earlier, cb)
  {
  }

  /** What is applied again, with its duplicate tolerated, is answered as such. */
  lemma AppliedAgain(s: Life, mine: seq<Row>, cb: Callback, b: Book, a: Attempt)
    requires Remembers(s, mine) && KeyUsed(mine, cb.Key()) && s.lifecycleId == cb.context.lifecycleId
    requires s.lifecycleId in b.states && b.states[s.lifecycleId] == s && Lookup(s.callbacks, cb.Key()).Some?
    requires !InputsRejected(cb.context, cb.hook, cb.settled)
    requires a == match Apply(s, cb, true)
                  case Err(e) => Refuse(e)
                  case Ok(_) => Answer(HookReply(Lookup(s.callbacks, cb.Key()).value, true, s))
    ensures AnsweredAgain(b, mine, cb, a)
  {
    hide HookEffect, InputsRejected, KeyUsed, TurnsMean, TerminalsMean, Recorded;
    KeyUsedIsFound(mine, cb.Key());
    var earlier := Lookup(s.callbacks, cb.Key()).value;
    AgainIff(earlier, cb);
    FitsIff(cb.context, cb.hook, cb.settled);
    assert CarriesKey(HookRow(earlier), cb.Key()) && FromSession(HookRow(earlier), s.sessionId, s.supported);
  }

  /** A callback is answered again if it was seen; a new one is recorded if it is admitted. A new
      pre_llm_call first gives up the turn that is still open. */
  lemma HookMeans(rows: seq<Row>, c: Context, hook: Hook, settled: bool, ids: Ids)
    requires Replay(rows).Ok? && FreshIds(Replay(rows).value, ids)
    ensures var b, mine, cb := Replay(rows).value, Mine(rows, c.lifecycleId), Callback(c, hook, settled, ids.callback, None);
            var a := AttemptOf(b, HookCall(c, hook, settled), ids);
            var closing := if hook.PreLlmCall? then GivingUp(b, c.lifecycleId, SupersededByNewPre, c.turnId, c.observedAt, ids.terminal) else [];
            && Shown(rows, a)
            && if KeyUsed(mine, cb.Key()) then AnsweredAgain(b, mine, cb, a) else AnsweredNew(mine, closing, cb, a)
  {
    hide Shown, Apply, ApplyTerminal, AnsweredAgain, AnsweredNew, Remembers, Partitioned, KeyUsed, InputsRejected, Admissible, Lookup;
    var b, mine, cb := Replay(rows).value, Mine(rows, c.lifecycleId), Callback(c, hook, settled, ids.callback, None);
    var call := HookCall(c, hook, settled);
    CallIsShown(rows, call, ids);
    LifeForRemembers(rows, c);
    if KeyUsed(mine, cb.Key()) {
      SeenHook(b, mine, c, hook, settled, ids);
    } else if hook.PreLlmCall? && OpenTurn(b, c.lifecycleId).Some? {
      NewPre(b, mine, c, settled, ids);
    } else {
      NewHook(b, mine, c, hook, settled, ids);
      assert mine + [] == mine;
    }
  }

  lemma SeenHook(b: Book, mine: seq<Row>, c: Context, hook: Hook, settled: bool, ids: Ids)
    requires var s := LifeFor(b, c); Partitioned(s) && Remembers(s, mine) && s.lifecycleId == c.lifecycleId
    requires mine != [] <==> c.lifecycleId in b.states
    requires KeyUsed(mine, Callback(c, hook, settled, ids.callback, None).Key())
    ensures AnsweredAgain(b, mine, Callback(c, hook, settled, ids.callback, None), AttemptHook(b, c, hook, settled, ids))
  {
    hide Apply, ApplyTerminal, Remembers, Partitioned, InputsRejected, Lookup;
    var s, cb := LifeFor(b, c), Callback(c, hook, settled, ids.callback, None);
    SeenIsFound(s, mine, cb.Key());
    FitsIff(c, hook, settled);
    var row :| row in mine && CarriesKey(row, cb.Key());
    if !InputsRejected(c, hook, settled) {
      AppliedAgain(s, mine, cb, b, AttemptHook(b, c, hook, settled, ids));
    }
  }

  lemma SeenIsFound(s: Life, mine: seq<Row>, key: Key)
    requires Remembers(s, mine) && KeyUsed(mine, key)
    ensures Lookup(s.callbacks, key).Some?
  {
    KeyUsedIsFound(mine, key);
  }

  lemma NewHook(b: Book, mine: seq<Row>, c: Context, hook: Hook, settled: bool, ids: Ids)
    requires var s := LifeFor(b, c); Partitioned(s) && Remembers(s, mine) && s.lifecycleId == c.lifecycleId && (mine == [] ==> s == NewLife(c))
    requires !KeyUsed(mine, Callback(c, hook, settled, ids.callback, None).Key())
    requires hook.PreLlmCall? ==> LifeFor(b, c).current.None?
    ensures AnsweredNew(mine, [], Callback(c, hook, settled, ids.callback, None), AttemptHook(b, c, hook, settled, ids))
  {
    hide Remembers, Partitioned, KeyUsed, Lookup, Admissible, Recorded, Record;
    var s, cb := LifeFor(b, c), Callback(c, hook, settled, ids.callback, None);
    assert mine + [] == mine && [] + [HookRow(cb)] == [HookRow(cb)];
    NoKey(s, mine, cb.Key());
    RecordedIff(s, mine, cb, true, [], []);
    CallbackAcceptedIff(s, mine, cb);
  }

  lemma NewPre(b: Book, mine: seq<Row>, c: Context, settled: bool, ids: Ids)
    requires c.lifecycleId in b.states && LifeFor(b, c).current.Some?
    requires var s := LifeFor(b, c); Partitioned(s) && Remembers(s, mine) && s.lifecycleId == c.lifecycleId && mine != []
    requires !KeyUsed(mine, Callback(c, PreLlmCall, settled, ids.callback, None).Key())
    ensures AnsweredNew(mine, GivingUp(b, c.lifecycleId, SupersededByNewPre, c.turnId, c.observedAt, ids.terminal),
                        Callback(c, PreLlmCall, settled, ids.callback, None), AttemptHook(b, c, PreLlmCall, settled, ids))
  {
    hide Remembers, Partitioned, KeyUsed, Lookup, Admissible, Recorded, Record, ApplyTerminal;
    var s, cb := LifeFor(b, c), Callback(c, PreLlmCall, settled, ids.callback, None);
    var t := Closing(s, s.current.value, SupersededByNewPre, c.turnId, c.observedAt, ids);
    NoKey(s, mine, cb.Key());
    OpenTurnGivesUp(s, t);
    TerminalIsRemembered(s, mine, t);
    NoNewKey(mine, t, cb.Key());
    var closed := ApplyTerminal(s, t).value;
    NoKey(closed, mine + [TerminalRow(t)], cb.Key());
    RecordedIff(closed, mine + [TerminalRow(t)], cb, true, [TerminalRow(t)], [TerminalRow(t)]);
    CallbackAcceptedIff(closed, mine + [TerminalRow(t)], cb);
  }

  lemma NoNewKey(mine: seq<Row>, t: Terminal, key: Key)
    requires !KeyUsed(mine, key)
    ensures !KeyUsed(mine + [TerminalRow(t)], key)
  {
    OneMore(mine, TerminalRow(t));
  }

  /** A finalize gives up the open turn, if there is one, and closes the lifecycle for good. */
  lemma FinalizeMeans(rows: seq<Row>, c: Context, ids: Ids)
    requires Replay(rows).Ok? && FreshIds(Replay(rows).value, ids)
    ensures var b, mine, cb := Replay(rows).value, Mine(rows, c.lifecycleId), Callback(c, OnSessionFinalize, false, ids.callback, None);
            var a := AttemptOf(b, FinalizeCall(c), ids);
            var closing := GivingUp(b, c.lifecycleId, HostSessionFinalized, None, c.observedAt, ids.terminal);
            && Shown(rows, a)
            && (if KeyUsed(mine, cb.Key()) then AnsweredAgain(b, mine, cb, a) else AnsweredNew(mine, closing, cb, a))
            && (a.reply.Ok? ==> a.reply.value.life.finalized && a.reply.value.life.current.None?)
  {
    hide Shown, Apply, ApplyTerminal, AnsweredAgain, AnsweredNew, AboutFinalize, Remembers, Partitioned, KeyUsed, InputsRejected, Admissible, Lookup, AttemptFinalize;
    var b, mine, cb := Replay(rows).value, Mine(rows, c.lifecycleId), Callback(c, OnSessionFinalize, false, ids.callback, None);
    var a := AttemptOf(b, FinalizeCall(c), ids);
    CallIsShown(rows, FinalizeCall(c), ids);
    LifeForRemembers(rows, c);
    if KeyUsed(mine, cb.Key()) {
      SeenFinalize(b, mine, c, ids);
    } else {
      NewFinalize(b, mine, c, ids);
    }
    if a.reply.Ok? { FinalizedIsShown(rows, cb, a); }
  }

  /** The answer is about a finalize of this lifecycle, recorded now or before. */
  predicate AboutFinalize(mine: seq<Row>, cb: Callback, a: Attempt) {
    && cb.hook.OnSessionFinalize? && a.reply.Ok? && a.reply.value.HookReply?
    && a.reply.value.life.lifecycleId == cb.context.lifecycleId
    && if a.appends == [] then HookRow(a.reply.value.callback) in mine && a.reply.value.callback.hook.OnSessionFinalize?
       else Last(a.appends) == HookRow(cb)
  }

  /** Whoever answers a finalize shows a finalized lifecycle. */
  lemma FinalizedIsShown(rows: seq<Row>, cb: Callback, a: Attempt)
    requires Shown(rows, a) && AboutFinalize(Mine(rows, cb.context.lifecycleId), cb, a)
    ensures a.reply.value.life.finalized && a.reply.value.life.current.None?
  {
    hide Replay, Belongs, TurnsMean, TerminalsMean, Partitioned, Fired;
    var life, longer := a.reply.value.life, rows + a.appends;
    ReplayPartitions(longer);
    assert life == Replay(longer).value.states[life.lifecycleId];
    StateIsKept(Replay(longer).value, life.lifecycleId);
    if a.appends == [] {
      assert longer == rows;
      HasFired(Mine(longer, life.lifecycleId), HookRow(a.reply.value.callback));
    } else {
      assert Last(longer) == HookRow(cb);
      HasFired(Mine(longer, life.lifecycleId), HookRow(cb));
    }
    FinalizedIsNotOpen(life);
  }

  lemma HasFired(mine: seq<Row>, row: Row)
    requires row in mine && row.HookRow?
    ensures Fired(mine, row.callback.hook)
  {
    assert Fires(row, row.callback.hook);
  }

  lemma FinalizedIsNotOpen(s: Life)
    requires Partitioned(s) && s.finalized
    ensures s.current.None?
  {
  }

  lemma SeenFinalize(b: Book, mine: seq<Row>, c: Context, ids: Ids)
    requires var s := LifeFor(b, c); Partitioned(s) && Remembers(s, mine) && s.lifecycleId == c.lifecycleId
    requires mine != [] <==> c.lifecycleId in b.states
    requires KeyUsed(mine, Callback(c, OnSessionFinalize, false, ids.callback, None).Key())
    ensures AnsweredAgain(b, mine, Callback(c, OnSessionFinalize, false, ids.callback, None), AttemptFinalize(b, c, ids))
    ensures AttemptFinalize(b, c, ids).reply.Ok? ==>
              AboutFinalize(mine, Callback(c, OnSessionFinalize, false, ids.callback, None), AttemptFinalize(b, c, ids))
  {
    hide Apply, ApplyTerminal, Remembers, Partitioned, InputsRejected, Lookup;
    var s, cb := LifeFor(b, c), Callback(c, OnSessionFinalize, false, ids.callback, None);
    SeenIsFound(s, mine, cb.Key());
    FitsIff(c, OnSessionFinalize, false);
    var row :| row in mine && CarriesKey(row, cb.Key());
    if !InputsRejected(c, OnSessionFinalize, false) {
      AppliedAgain(s, mine, cb, b, AttemptFinalize(b, c, ids));
    }
  }

  lemma NewFinalize(b: Book, mine: seq<Row>, c: Context, ids: Ids)
    requires var s := LifeFor(b, c); Partitioned(s) && Remembers(s, mine) && s.lifecycleId == c.lifecycleId && (mine == [] ==> s == NewLife(c))
    requires mine != [] <==> c.lifecycleId in b.states
    requires !KeyUsed(mine, Callback(c, OnSessionFinalize, false, ids.callback, None).Key())
    ensures AnsweredNew(mine, GivingUp(b, c.lifecycleId, HostSessionFinalized, None, c.observedAt, ids.terminal),
                        Callback(c, OnSessionFinalize, false, ids.callback, None), AttemptFinalize(b, c, ids))
    ensures AttemptFinalize(b, c, ids).reply.Ok? ==>
              AboutFinalize(mine, Callback(c, OnSessionFinalize, false, ids.callback, None), AttemptFinalize(b, c, ids))
  {
    hide Remembers, Partitioned, KeyUsed, Lookup, Admissible, Recorded, ApplyTerminal, HookEffect;
    var s, cb := LifeFor(b, c), Callback(c, OnSessionFinalize, false, ids.callback, None);
    NoKey(s, mine, cb.Key());
    if s.current.Some? {
      var t := Closing(s, s.current.value, HostSessionFinalized, None, c.observedAt, ids);
      OpenTurnGivesUp(s, t);
      TerminalIsRemembered(s, mine, t);
      NoNewKey(mine, t, cb.Key());
      var closed := ApplyTerminal(s, t).value;
      RecordedIff(closed, mine + [TerminalRow(t)], cb, true, [TerminalRow(t)], []);
      CallbackAcceptedIff(closed, mine + [TerminalRow(t)], cb);
      if Apply(closed, cb, true).Ok? { ApplyKeepsId(closed, cb, true); }
    } else {
      assert mine + [] == mine && [] + [HookRow(cb)] == [HookRow(cb)];
      RecordedIff(s, mine, cb, true, [], []);
      CallbackAcceptedIff(s, mine, cb);
      if Apply(s, cb, true).Ok? { ApplyKeepsId(s, cb, true); }
    }
  }

  // ---- turn end --------------------------------------------------------------------------

  /** A recorded end of a turn. */
  predicate EndsTurn(row: Row, turn: string) { Fires(row, OnSessionEnd) && row.callback.context.turnId == Some(turn) }

  lemma {:induction false} FirstEndMeans(callbacks: seq<Callback>, turn: string)
    ensures FirstEnd(callbacks, turn).Some? <==> exists cb :: cb in callbacks && EndsTurn(HookRow(cb), turn)
    ensures FirstEnd(callbacks, turn).Some? ==>
              FirstEnd(callbacks, turn).value in callbacks && EndsTurn(HookRow(FirstEnd(callbacks, turn).value), turn)
    decreases |callbacks|
  {
    if callbacks != [] {
      FirstEndMeans(callbacks[1..], turn);
      assert forall cb :: cb in callbacks <==> cb == callbacks[0] || cb in callbacks[1..];
      if EndsTurn(HookRow(callbacks[0]), turn) { assert callbacks[0] in callbacks; }
    }
  }

  lemma {:induction false} CallbacksInAre(mine: seq<Row>)
    ensures forall cb :: cb in CallbacksIn(mine) <==> HookRow(cb) in mine
  {
    if mine != [] {
      CallbacksInAre(Front(mine));
      SplitLast(mine);
      assert forall row :: row in mine <==> row in Front(mine) || row == Last(mine);
    }
  }

  /** The host's verdict contradicts what is known of a turn: an earlier terminal, or a completion
      where the host reports an interruption. */
  predicate Contradicts(s: Life, turn: string, reason: Reason) {
    || (turn in s.terminals && !Compatibly(s.terminals[turn].reason, reason))
    || (turn in s.turns && s.turns[turn] == Some(Completed) && reason.HostTurnInterrupted?)
  }

  /** What a turn end answers for a known turn: a turn that has its end recorded is answered with it;
      otherwise an open turn is given up for the host's reason, and the end is recorded if the
      lifecycle records ends. */
  ghost predicate TurnEndAnswer(b: Book, mine: seq<Row>, s: Life, turn: string, cb: Callback, closing: seq<Row>, a: Attempt)
    requires cb.terminalReason.Some?
  {
    if exists row :: row in mine && EndsTurn(row, turn) then
      && a.appends == []
      && (a.reply.Ok? ==>
            && a.reply.value.HookReply? && HookRow(a.reply.value.callback) in mine && Again(a.reply.value.callback, cb)
            && a.reply.value == HookReply(a.reply.value.callback, true, s))
      && (a.reply.Err? ==> a.reply == Err(ReasonConflict) && exists row :: row in mine && EndsTurn(row, turn) && !Again(row.callback, cb))
    else if Contradicts(s, turn, cb.terminalReason.value) then a == Attempt([], Err(ReasonConflict))
    else if OnSessionEnd in s.supported then AnsweredNew(mine, closing, cb, a)
    else if closing != [] then AnsweredGivingUp(b, s.lifecycleId, closing, a)
    else if turn in s.terminals then AnsweredGivenUp(b, s.lifecycleId, turn, a)
    else a == Attempt([], Ok(NoReply))
  }

  lemma TurnEndMeans(rows: seq<Row>, c: Context, reason: Reason, ids: Ids)
    requires Replay(rows).Ok? && FreshIds(Replay(rows).value, ids)
    ensures var b, l, mine := Replay(rows).value, c.lifecycleId, Mine(rows, c.lifecycleId);
            var a := AttemptOf(b, TurnEndCall(c, reason), ids);
            && Shown(rows, a)
            && (!c.sourceKind.System? || !HostTurn(reason) ==> a.reply == Err(BadInputs))
            && (c.sourceKind.System? && HostTurn(reason) && l !in b.states ==> a.reply == Ok(NoReply))
            && (c.sourceKind.System? && HostTurn(reason) && l in b.states && c.turnId.None? ==> a.reply == Err(TurnIdMissing))
            && (c.sourceKind.System? && HostTurn(reason) && l in b.states && c.turnId.Some? ==>
                  if c.turnId.value !in b.states[l].turns then a.reply == Err(TurnUnknown)
                  else TurnEndAnswer(b, mine, b.states[l], c.turnId.value, Callback(c, OnSessionEnd, false, ids.callback, Some(reason)),
                                     if OpenTurn(b, l) == c.turnId then GivingUp(b, l, reason, None, c.observedAt, ids.terminal) else [], a))
  {
    hide Shown, TurnEndAnswer, Replay, Partitioned, Remembers, FreshIds, ApplyTerminal, Apply, BookKept, FirstEnd, Record, AttemptTurnEnd;
    CallIsShown(rows, TurnEndCall(c, reason), ids);
    LifeForRemembers(rows, c);
    ReplayPartitions(rows);
    var b, l := Replay(rows).value, c.lifecycleId;
    if c.sourceKind.System? && HostTurn(reason) && l in b.states && c.turnId.Some? && c.turnId.value in b.states[l].turns {
      TurnEndOn(b, Mine(rows, l), c, reason, ids);
    } else {
      TurnEndRefused(b, c, reason, ids);
    }
  }

  lemma TurnEndRefused(b: Book, c: Context, reason: Reason, ids: Ids)
    ensures var a, l := AttemptTurnEnd(b, c, reason, ids), c.lifecycleId;
            && (!c.sourceKind.System? || !HostTurn(reason) ==> a.reply == Err(BadInputs))
            && (c.sourceKind.System? && HostTurn(reason) && l !in b.states ==> a.reply == Ok(NoReply))
            && (c.sourceKind.System? && HostTurn(reason) && l in b.states && c.turnId.None? ==> a.reply == Err(TurnIdMissing))
            && (c.sourceKind.System? && HostTurn(reason) && l in b.states && c.turnId.Some? && c.turnId.value !in b.states[l].turns ==>
                  a.reply == Err(TurnUnknown))
  {
    hide ApplyTerminal, Apply, FirstEnd, Record;
  }

  lemma TurnEndOn(b: Book, mine: seq<Row>, c: Context, reason: Reason, ids: Ids)
    requires BookKept(b) && c.sourceKind.System? && HostTurn(reason) && c.lifecycleId in b.states && mine != []
    requires var s := b.states[c.lifecycleId]; Partitioned(s) && Remembers(s, mine) && s.lifecycleId == c.lifecycleId
    requires c.turnId.Some? && c.turnId.value in b.states[c.lifecycleId].turns
    ensures TurnEndAnswer(b, mine, b.states[c.lifecycleId], c.turnId.value, Callback(c, OnSessionEnd, false, ids.callback, Some(reason)),
                          if OpenTurn(b, c.lifecycleId) == c.turnId
                          then GivingUp(b, c.lifecycleId, reason, None, c.observedAt, ids.terminal) else [],
                          AttemptTurnEnd(b, c, reason, ids))
  {
    hide Partitioned, ApplyTerminal, Apply, Record, TurnEndAnswer, Remembers, AnsweredGivingUp, AnsweredNew, BookKept;
    var s, turn := b.states[c.lifecycleId], c.turnId.value;
    FindsEnd(s, mine, turn);
    if FirstEnd(s.callbacks, turn).Some? {
      EndedTurnEnd(b, mine, c, reason, ids);
    } else {
      UnendedTurnEnd(b, mine, c, reason, ids);
    }
  }

  lemma FindsEnd(s: Life, mine: seq<Row>, turn: string)
    requires Remembers(s, mine)
    ensures FirstEnd(s.callbacks, turn).Some? <==> exists row :: row in mine && EndsTurn(row, turn)
    ensures FirstEnd(s.callbacks, turn).Some? ==>
              HookRow(FirstEnd(s.callbacks, turn).value) in mine && EndsTurn(HookRow(FirstEnd(s.callbacks, turn).value), turn)
  {
    hide TurnsMean, TerminalsMean, Belongs, FirstEnd;
    CallbacksInAre(mine);
    FirstEndMeans(s.callbacks, turn);
    if exists row :: row in mine && EndsTurn(row, turn) {
      var row :| row in mine && EndsTurn(row, turn);
      assert row == HookRow(row.callback) && row.callback in s.callbacks;
    }
  }

  lemma EndedTurnEnd(b: Book, mine: seq<Row>, c: Context, reason: Reason, ids: Ids)
    requires c.sourceKind.System? && HostTurn(reason) && c.lifecycleId in b.states
    requires var s := b.states[c.lifecycleId]; Remembers(s, mine) && s.lifecycleId == c.lifecycleId
    requires c.turnId.Some? && c.turnId.value in b.states[c.lifecycleId].turns
    requires FirstEnd(b.states[c.lifecycleId].callbacks, c.turnId.value).Some?
    ensures TurnEndAnswer(b, mine, b.states[c.lifecycleId], c.turnId.value, Callback(c, OnSessionEnd, false, ids.callback, Some(reason)),
                          if OpenTurn(b, c.lifecycleId) == c.turnId
                          then GivingUp(b, c.lifecycleId, reason, None, c.observedAt, ids.terminal) else [],
                          AttemptTurnEnd(b, c, reason, ids))
  {
    hide ApplyTerminal, Apply, Record, Remembers, AnsweredGivingUp, AnsweredNew, FirstEnd, Contradicts, AnsweredGivenUp;
    var s, turn, cb := b.states[c.lifecycleId], c.turnId.value, Callback(c, OnSessionEnd, false, ids.callback, Some(reason));
    FindsEnd(s, mine, turn);
    AgainIff(FirstEnd(s.callbacks, turn).value, cb);
  }

  lemma UnendedTurnEnd(b: Book, mine: seq<Row>, c: Context, reason: Reason, ids: Ids)
    requires BookKept(b) && c.sourceKind.System? && HostTurn(reason) && c.lifecycleId in b.states && mine != []
    requires var s := b.states[c.lifecycleId]; Partitioned(s) && Remembers(s, mine) && s.lifecycleId == c.lifecycleId
    requires c.turnId.Some? && c.turnId.value in b.states[c.lifecycleId].turns
    requires FirstEnd(b.states[c.lifecycleId].callbacks, c.turnId.value).None?
    ensures TurnEndAnswer(b, mine, b.states[c.lifecycleId], c.turnId.value, Callback(c, OnSessionEnd, false, ids.callback, Some(reason)),
                          if OpenTurn(b, c.lifecycleId) == c.turnId
                          then GivingUp(b, c.lifecycleId, reason, None, c.observedAt, ids.terminal) else [],
                          AttemptTurnEnd(b, c, reason, ids))
  {
    hide Partitioned, ApplyTerminal, Apply, Record, Remembers, FirstEnd, Admissible, KeyUsed, GaveUp, BookKept, Again;
    var s, turn, cb := b.states[c.lifecycleId], c.turnId.value, Callback(c, OnSessionEnd, false, ids.callback, Some(reason));
    ConsistentTurns(b, c.lifecycleId);
    FindsEnd(s, mine, turn);
    NoEndNoKey(mine, turn, cb.Key());
    assert ReasonFits(cb.hook, cb.terminalReason);
    if s.current == Some(turn) {
      var t := Closing(s, turn, reason, None, c.observedAt, ids);
      OpenTurnGivesUp(s, t);
      TerminalIsRemembered(s, mine, t);
      NoNewKey(mine, t, cb.Key());
      RecordedIff(ApplyTerminal(s, t).value, mine + [TerminalRow(t)], cb, false, [TerminalRow(t)], []);
    } else {
      assert mine + [] == mine && [] + [HookRow(cb)] == [HookRow(cb)];
      RecordedIff(s, mine, cb, false, [], []);
    }
  }

  lemma NoEndNoKey(mine: seq<Row>, turn: string, key: Key)
    requires forall row :: row in mine ==> !EndsTurn(row, turn)
    requires key.0.OnSessionEnd? && key.2 == Some(turn)
    ensures !KeyUsed(mine, key)
  {
  }

  // ---- child stop ------------------------------------------------------------------------

  /** The child stops recorded for a lifecycle, in order. */
  function StopsIn(mine: seq<Row>): seq<Callback> {
    if mine == [] then [] else StopsIn(Front(mine)) + (if Fires(Last(mine), SubagentStop) then [Last(mine).callback] else [])
  }

  lemma {:induction false} ChildCallbackAppended(callbacks: seq<Callback>, cb: Callback)
    ensures ChildCallbacks(callbacks + [cb]) == ChildCallbacks(callbacks) + (if cb.hook.SubagentStop? then [cb] else [])
    decreases |callbacks|
  {
    if callbacks == [] {
      assert [] + [cb] == [cb] && [cb][1..] == [];
    } else {
      var first := if callbacks[0].hook.SubagentStop? then [callbacks[0]] else [];
      var last := if cb.hook.SubagentStop? then [cb] else [];
      assert (callbacks + [cb])[0] == callbacks[0] && (callbacks + [cb])[1..] == callbacks[1..] + [cb];
      ChildCallbackAppended(callbacks[1..], cb);
      assert first + (ChildCallbacks(callbacks[1..]) + last) == (first + ChildCallbacks(callbacks[1..])) + last;
    }
  }

  lemma {:induction false} ChildCallbacksAre(mine: seq<Row>)
    ensures ChildCallbacks(CallbacksIn(mine)) == StopsIn(mine)
    ensures forall cb <- StopsIn(mine) :: HookRow(cb) in mine && cb.hook.SubagentStop?
    ensures StopsIn(mine) == [] <==> !Fired(mine, SubagentStop)
  {
    if mine != [] {
      ChildCallbacksAre(Front(mine));
      SplitLast(mine);
      OneMore(Front(mine), Last(mine));
      if Last(mine).HookRow? {
        ChildCallbackAppended(CallbacksIn(Front(mine)), Last(mine).callback);
      } else {
        assert CallbacksIn(mine) == CallbacksIn(Front(mine)) && StopsIn(mine) == StopsIn(Front(mine));
      }
    }
  }

  /** The stop is about a turn that was given up for a compatible reason. */
  predicate Backed(mine: seq<Row>, cb: Callback) {
    && cb.context.turnId.Some? && cb.terminalReason.Some?
    && exists row :: row in mine && Abandons(row, cb.context.turnId.value) && Compatibly(row.terminal.reason, cb.terminalReason.value)
  }

  lemma BackedStaysBacked(mine: seq<Row>, row: Row, cb: Callback)
    requires Backed(mine, cb)
    ensures Backed(mine + [row], cb)
  {
    var terminal :| terminal in mine && Abandons(terminal, cb.context.turnId.value)
                    && Compatibly(terminal.terminal.reason, cb.terminalReason.value);
    assert terminal in mine + [row];
  }

  lemma AdmittedStopIsBacked(mine: seq<Row>, cb: Callback)
    requires cb.hook.SubagentStop? && Admissible(mine, HookRow(cb))
    ensures Backed(mine, cb)
  {
    hide Fired, KeyUsed;
    var row :| row in mine && row.TerminalRow? && cb.context.turnId == Some(row.terminal.turnId)
               && Compatibly(row.terminal.reason, cb.terminalReason.value);
    assert Abandons(row, cb.context.turnId.value);
  }

  /** Every child stop in an accepted ledger is backed by a terminal of its turn. */
  lemma {:induction false} StopsAreBacked(rows: seq<Row>, l: string)
    requires Replay(rows).Ok?
    ensures forall cb <- StopsIn(Mine(rows, l)) :: Backed(Mine(rows, l), cb)
  {
    hide Admissible, Backed, FoldRow;
    if rows != [] {
      var row, before := Last(rows), Mine(Front(rows), l);
      StopsAreBacked(Front(rows), l);
      SplitLast(rows);
      AcceptedIff(Front(rows), row);
      if row.Lifecycle() == l {
        FrontOfAppend(before, row);
        assert Mine(rows, l) == before + [row];
        forall cb | cb in StopsIn(before + [row]) ensures Backed(before + [row], cb) {
          if !(cb in StopsIn(before)) {
            assert cb == row.callback;
            AdmittedStopIsBacked(before, cb);
          }
          BackedStaysBacked(before, row, cb);
        }
      } else {
        assert Mine(rows, l) == before;
      }
    }
  }

  function StopCallback(s: Life, session: string, turn: string, reason: Reason, at: int, id: string): Callback
    requires SubagentStop in s.supported
  {
    Callback(Context(s.sessionId, s.lifecycleId, session, Some(turn), System, at, false, s.supported), SubagentStop, false, id, Some(reason))
  }

  /** What a first child stop answers for the turn it is about: an open turn is given up for the
      reason, one given up compatibly is accepted, and the stop is recorded if the lifecycle is not
      finalized and records stops. */
  ghost predicate StopAnswer(b: Book, s: Life, session: string, turn: string, reason: Reason, at: int, ids: Ids, closing: seq<Row>, a: Attempt) {
    if turn in s.turns && s.turns[turn] == Some(Completed) then a == Attempt([], Err(ReasonConflict))
    else if turn in s.terminals && !Compatibly(s.terminals[turn].reason, reason) then a == Attempt([], Err(ReasonConflict))
    else if SubagentStop in s.supported && !s.finalized then
      var cb := StopCallback(s, session, turn, reason, at, ids.callback);
      && a.appends == closing + [HookRow(cb)]
      && a.reply.Ok? && a.reply.value.HookReply? && a.reply.value.callback == cb && !a.reply.value.deduplicated
    else if closing != [] then AnsweredGivingUp(b, s.lifecycleId, closing, a)
    else AnsweredGivenUp(b, s.lifecycleId, turn, a)
  }

  /** The turn a child stop without a recorded stop is about: the open one, or the only one. */
  predicate Concerns(s: Life, turn: string) { s.current == Some(turn) || (s.current.None? && s.turns.Keys == {turn}) }

  ghost predicate ChildStopAnswer(b: Book, mine: seq<Row>, s: Life, session: string, reason: Reason, at: int, ids: Ids, a: Attempt) {
    var stops := StopsIn(mine);
    if |stops| > 1 then a == Attempt([], Err(AmbiguousChild))
    else if |stops| == 1 then
      a == Attempt([], if stops[0].terminalReason == Some(reason) then Ok(HookReply(stops[0], true, s)) else Err(ReasonConflict))
    else
      && ((forall turn :: !Concerns(s, turn)) ==> a == Attempt([], Err(AmbiguousChild)))
      && (forall turn :: Concerns(s, turn) ==>
            StopAnswer(b, s, session, turn, reason, at, ids, GivingUp(b, s.lifecycleId, reason, None, at, ids.terminal), a))
  }

  /** A child stop is resolved to the one lifecycle that carries the child's session. */
  lemma ChildStopMeans(rows: seq<Row>, session: string, reason: Reason, at: int, ids: Ids)
    requires Replay(rows).Ok? && FreshIds(Replay(rows).value, ids)
    ensures var b := Replay(rows).value;
            var a := AttemptOf(b, ChildStopCall(session, reason, at), ids);
            var named := set l | l in b.states && b.states[l].sessionId == session;
            var fits := reason in {HostTurnFailed, HostTurnInterrupted};
            && Shown(rows, a)
            && (!fits ==> a.reply == Err(BadInputs))
            && (fits && named == {} ==> a.reply == Ok(NoReply))
            && (fits && |named| > 1 ==> a.reply == Err(AmbiguousChild))
            && (fits ==> forall l :: named == {l} ==> ChildStopAnswer(b, Mine(rows, l), b.states[l], session, reason, at, ids, a))
  {
    hide Shown, Replay, FreshIds, AttemptChildStopOn, ChildStopAnswer, BookKept, Remembers, Partitioned, Backed;
    var b := Replay(rows).value;
    var named := set l | l in b.states && b.states[l].sessionId == session;
    CallIsShown(rows, ChildStopCall(session, reason, at), ids);
    ReplayPartitions(rows);
    assert Matching(b, session) == named;
    if reason in {HostTurnFailed, HostTurnInterrupted} {
      forall l | named == {l} ensures ChildStopAnswer(b, Mine(rows, l), b.states[l], session, reason, at, ids, AttemptChildStop(b, session, reason, at, ids)) {
        assert l in named;
        StateIsKept(b, l);
        StateRemembersHistory(rows, l);
        StopsAreBacked(rows, l);
        ChildStopOn(b, Mine(rows, l), b.states[l], session, reason, at, ids);
      }
    }
  }

  lemma ChildStopOn(b: Book, mine: seq<Row>, s: Life, session: string, reason: Reason, at: int, ids: Ids)
    requires BookKept(b) && reason in {HostTurnFailed, HostTurnInterrupted} && mine != []
    requires s.lifecycleId in b.states && b.states[s.lifecycleId] == s && Partitioned(s) && Remembers(s, mine)
    requires forall cb <- StopsIn(mine) :: Backed(mine, cb)
    ensures ChildStopAnswer(b, mine, s, session, reason, at, ids, AttemptChildStopOn(s, session, reason, at, ids))
  {
    hide Partitioned, Remembers, BookKept, Backed, StopAnswer, AttemptChildCallback, ApplyTerminal, ChildCallbacks;
    StopsAreFound(s, mine);
    if |StopsIn(mine)| == 1 {
      BackedStopStands(b, s, mine, StopsIn(mine)[0]);
    } else if StopsIn(mine) == [] {
      var a := AttemptChildStopOn(s, session, reason, at, ids);
      forall turn | Concerns(s, turn)
        ensures StopAnswer(b, s, session, turn, reason, at, ids, GivingUp(b, s.lifecycleId, reason, None, at, ids.terminal), a)
      {
        FirstStop(b, mine, s, session, turn, reason, at, ids);
      }
      if forall turn :: !Concerns(s, turn) { NoConcern(s); }
    }
  }

  lemma StopsAreFound(s: Life, mine: seq<Row>)
    requires Remembers(s, mine)
    ensures ChildCallbacks(s.callbacks) == StopsIn(mine)
  {
    ChildCallbacksAre(mine);
  }

  lemma NoConcern(s: Life)
    requires forall turn :: !Concerns(s, turn)
    ensures s.current.None? && |s.turns| != 1
  {
    if s.current.Some? { assert Concerns(s, s.current.value); }
    if |s.turns| == 1 {
      assert |s.turns.Keys| == 1;
      OnlyElement(s.turns.Keys, OnlyTurn(s));
      assert Concerns(s, OnlyTurn(s));
    }
  }

  lemma BackedStopStands(b: Book, s: Life, mine: seq<Row>, cb: Callback)
    requires BookKept(b) && s.lifecycleId in b.states && b.states[s.lifecycleId] == s && Remembers(s, mine) && Backed(mine, cb)
    ensures cb.context.turnId.Some? && cb.terminalReason.Some? && cb.context.turnId.value in s.terminals
    ensures var turn := cb.context.turnId.value;
            turn in s.turns && s.turns[turn] == Some(Abandoned) && Compatible(s.terminals[turn].reason, cb.terminalReason.value)
  {
    hide BookKept, Belongs, RestMeans, Opened, Settled, GivenUp;
    var row :| row in mine && Abandons(row, cb.context.turnId.value) && Compatibly(row.terminal.reason, cb.terminalReason.value);
    StateIsKept(b, s.lifecycleId);
    CurrentIsKnown(s);
  }

  lemma FirstStop(b: Book, mine: seq<Row>, s: Life, session: string, turn: string, reason: Reason, at: int, ids: Ids)
    requires BookKept(b) && reason in {HostTurnFailed, HostTurnInterrupted} && mine != []
    requires s.lifecycleId in b.states && b.states[s.lifecycleId] == s && Partitioned(s) && Remembers(s, mine)
    requires ChildCallbacks(s.callbacks) == [] && Concerns(s, turn)
    ensures StopAnswer(b, s, session, turn, reason, at, ids, GivingUp(b, s.lifecycleId, reason, None, at, ids.terminal),
                       AttemptChildStopOn(s, session, reason, at, ids))
  {
    hide Partitioned, Remembers, BookKept, ApplyTerminal, Apply, GaveUp, ChildCallbacks;
    ConsistentTurns(b, s.lifecycleId);
    CurrentIsKnown(s);
    if s.current.None? {
      assert |s.turns| == |s.turns.Keys| == 1;
      OnlyElement(s.turns.Keys, turn);
      assert OnlyTurn(s) == turn;
    }
    assert turn in s.turns && s.turns[turn].Some? ==> s.turns[turn].value.Completed? || s.turns[turn].value.Abandoned?;
    NoChildInList(s.callbacks, (SubagentStop, session, Some(turn)));
    if s.current == Some(turn) {
      var t := Closing(s, turn, reason, None, at, ids);
      NotFinalizedYet(s);
      OpenTurnGivesUp(s, t);
      ClosedFacts(s, t);
      if SubagentStop in s.supported { StopIsApplied(ApplyTerminal(s, t).value, session, turn, reason, at, ids.callback); }
    } else if turn in s.terminals && SubagentStop in s.supported && !s.finalized && Compatibly(s.terminals[turn].reason, reason) {
      StopIsApplied(s, session, turn, reason, at, ids.callback);
      assert [] + [HookRow(StopCallback(s, session, turn, reason, at, ids.callback))] == [HookRow(StopCallback(s, session, turn, reason, at, ids.callback))];
    }
  }

  lemma NotFinalizedYet(s: Life)
    requires Partitioned(s) && s.current.Some?
    ensures !s.finalized
  {
  }

  lemma StopIsApplied(s: Life, session: string, turn: string, reason: Reason, at: int, id: string)
    requires SubagentStop in s.supported && !s.finalized && reason in {HostTurnFailed, HostTurnInterrupted}
    requires turn in s.turns && s.turns[turn] == Some(Abandoned) && turn in s.terminals && Compatibly(s.terminals[turn].reason, reason)
    requires Lookup(s.callbacks, (SubagentStop, session, Some(turn))).None?
    ensures Apply(s, StopCallback(s, session, turn, reason, at, id), false).Ok?
  {
  }
}
