/** Crash consistency and retry convergence of the session mutators. */
module SessionCrash {
  import opened Basics
  import opened SessionModel
  import opened SessionReplay
  import opened SessionAttempts

  /** The two event ids are new and different. */
  predicate FreshIds(b: Book, ids: Ids) {
    ids.terminal !in b.events && ids.callback !in b.events && ids.terminal != ids.callback
  }

  /** Rows folded one after the other. */
  function FoldRows(b: Book, rows: seq<Row>): Result<Book, SessionError> {
    if rows == [] then Ok(b)
    else
      match FoldRows(b, Front(rows))
      case Err(e) => Err(e)
      case Ok(c) => FoldRow(c, Last(rows))
  }

  lemma {:induction false} ReplayThenFold(rows: seq<Row>, more: seq<Row>)
    requires Replay(rows).Ok?
    ensures Replay(rows + more).Ok? <==> FoldRows(Replay(rows).value, more).Ok?
    ensures Replay(rows + more).Ok? ==> Replay(rows + more).value == FoldRows(Replay(rows).value, more).value
    decreases |more|
  {
    if more == [] {
      assert rows + more == rows;
    } else {
      ReplayThenFold(rows, Front(more));
      assert Front(rows + more) == rows + Front(more);
    }
  }

  /** Every crash prefix of an attempt folds; a refusal appends nothing; and an answer shows
      the lifecycle exactly as the folded rows leave it. */
  ghost predicate CrashClosed(b: Book, a: Attempt) {
    && |a.appends| <= 2
    && (a.reply.Err? ==> a.appends == [])
    && FoldRows(b, a.appends).Ok?
    && (forall k :: 0 <= k < |a.appends| ==> FoldRows(b, a.appends[..k]).Ok?)
    && (a.reply.Ok? && !a.reply.value.NoReply? ==>
          var s := a.reply.value.life;
          && FoldRows(b, a.appends).value.states == b.states[s.lifecycleId := s]
          && (a.appends == [] ==> s.lifecycleId in b.states && b.states[s.lifecycleId] == s))
    && (a.reply.Ok? && a.reply.value.NoReply? ==> a.appends == [])
  }

  lemma NothingAppended(b: Book, a: Attempt)
    requires a.appends == []
    requires a.reply.Ok? && !a.reply.value.NoReply? ==>
               a.reply.value.life.lifecycleId in b.states && b.states[a.reply.value.life.lifecycleId] == a.reply.value.life
    ensures CrashClosed(b, a)
  {
  }

  lemma OneAppended(b: Book, row: Row, reply: Reply)
    requires FoldRow(b, row).Ok? && !reply.NoReply? && reply.life.lifecycleId == row.Lifecycle()
    requires FoldRow(b, row).value.states == b.states[row.Lifecycle() := reply.life]
    ensures CrashClosed(b, Attempt([row], Ok(reply)))
  {
    assert Front([row]) == [] && [row][..0] == [];
  }

  lemma TwoAppended(b: Book, first: Row, second: Row, reply: Reply)
    requires FoldRow(b, first).Ok?
    requires FoldRow(FoldRow(b, first).value, second).Ok?
    requires !reply.NoReply? && reply.life.lifecycleId == second.Lifecycle()
    requires FoldRow(FoldRow(b, first).value, second).value.states == b.states[second.Lifecycle() := reply.life]
    ensures CrashClosed(b, Attempt([first, second], Ok(reply)))
  {
    var rows := [first, second];
    assert Front(rows) == [first] && Front([first]) == [];
    assert FoldRows(b, [first]) == FoldRow(b, first);
    assert forall k :: 0 <= k < |rows| ==> rows[..k] == [] || rows[..k] == [first];
  }

  /** A terminal a mutator builds for a lifecycle folds to the state it computed. */
  lemma ClosingFolds(b: Book, s: Life, t: Terminal)
    requires s.lifecycleId in b.states && b.states[s.lifecycleId] == s
    requires RowValid(TerminalRow(t)) && t.eventId !in b.events && ApplyTerminal(s, t).Ok?
    ensures FoldRow(b, TerminalRow(t)) ==
            Ok(Book(b.states[s.lifecycleId := ApplyTerminal(s, t).value], b.events + {t.eventId}))
  {
  }

  /** A callback a mutator applied, duplicates tolerated or not, folds on replay. */
  lemma CallbackFolds(b: Book, s: Life, cb: Callback, allowDuplicate: bool)
    requires if cb.context.lifecycleId in b.states then b.states[cb.context.lifecycleId] == s else s == NewLife(cb.context)
    requires Lookup(s.callbacks, cb.Key()).None?
    requires RowValid(HookRow(cb)) && cb.eventId !in b.events && Apply(s, cb, allowDuplicate).Ok?
    ensures s.lifecycleId == cb.context.lifecycleId
    ensures Apply(s, cb, allowDuplicate).value.1.lifecycleId == s.lifecycleId
    ensures FoldRow(b, HookRow(cb)) ==
            Ok(Book(b.states[s.lifecycleId := Apply(s, cb, allowDuplicate).value.1], b.events + {cb.eventId}))
  {
    ApplyKeepsId(s, cb, allowDuplicate);
    ApplyKeepsId(s, cb, false);
  }

  /** Only a child stop, and only with a child reason, may carry that reason into a row. */
  lemma AppliedCallbackIsValidRow(s: Life, cb: Callback, allowDuplicate: bool)
    requires Apply(s, cb, allowDuplicate).Ok? && Lookup(s.callbacks, cb.Key()).None?
    requires cb.terminalReason.Some? ==> cb.hook in {OnSessionEnd, SubagentStop} && HostTurn(cb.terminalReason.value)
    ensures RowValid(HookRow(cb))
  {
  }

  /** Closing a turn and then recording a callback of the same lifecycle. */
  lemma ClosedThenRecorded(b: Book, s: Life, t: Terminal, cb: Callback, allowDuplicate: bool)
    requires s.lifecycleId in b.states && b.states[s.lifecycleId] == s && s.lifecycleId == cb.context.lifecycleId
    requires RowValid(TerminalRow(t)) && ApplyTerminal(s, t).Ok?
    requires t.eventId !in b.events && cb.eventId !in b.events && t.eventId != cb.eventId
    requires Lookup(s.callbacks, cb.Key()).None?
    requires cb.terminalReason.Some? ==> cb.hook in {OnSessionEnd, SubagentStop} && HostTurn(cb.terminalReason.value)
    requires Apply(ApplyTerminal(s, t).value, cb, allowDuplicate).Ok?
    ensures CrashClosed(b, Record(ApplyTerminal(s, t).value, cb, allowDuplicate, [TerminalRow(t)], []))
    ensures Record(ApplyTerminal(s, t).value, cb, allowDuplicate, [TerminalRow(t)], []).appends == [TerminalRow(t), HookRow(cb)]
  {
    hide HookEffect, Recorded, FoldRow;
    var closed := ApplyTerminal(s, t).value;
    ClosingFolds(b, s, t);
    var b1 := FoldRow(b, TerminalRow(t)).value;
    AppliedCallbackIsValidRow(closed, cb, allowDuplicate);
    CallbackFolds(b1, closed, cb, allowDuplicate);
    var after := Apply(closed, cb, allowDuplicate).value.1;
    assert b.states[s.lifecycleId := closed][s.lifecycleId := after] == b.states[s.lifecycleId := after];
    TwoAppended(b, TerminalRow(t), HookRow(cb), HookReply(cb, false, after));
    assert [TerminalRow(t)] + [HookRow(cb)] == [TerminalRow(t), HookRow(cb)];
  }

  /** Recording a callback alone. */
  lemma JustRecorded(b: Book, s: Life, cb: Callback, allowDuplicate: bool)
    requires if cb.context.lifecycleId in b.states then b.states[cb.context.lifecycleId] == s else s == NewLife(cb.context)
    requires cb.eventId !in b.events && Lookup(s.callbacks, cb.Key()).None?
    requires cb.terminalReason.Some? ==> cb.hook in {OnSessionEnd, SubagentStop} && HostTurn(cb.terminalReason.value)
    ensures CrashClosed(b, Record(s, cb, allowDuplicate, [], []))
  {
    hide HookEffect, Recorded, FoldRow;
    match Apply(s, cb, allowDuplicate)
    case Err(_) => NothingAppended(b, Record(s, cb, allowDuplicate, [], []));
    case Ok((_, after)) =>
      AppliedCallbackIsValidRow(s, cb, allowDuplicate);
      CallbackFolds(b, s, cb, allowDuplicate);
      assert [] + [HookRow(cb)] == [HookRow(cb)];
      OneAppended(b, HookRow(cb), HookReply(cb, false, after));
  }

  lemma JustClosed(b: Book, s: Life, turn: string, reason: Reason, at: int, ids: Ids)
    requires s.lifecycleId in b.states && b.states[s.lifecycleId] == s && FreshIds(b, ids)
    requires !reason.SupersededByNewPre?
    ensures CrashClosed(b, Close(s, turn, reason, at, ids))
  {
    var t := Closing(s, turn, reason, None, at, ids);
    match ApplyTerminal(s, t)
    case Err(_) => NothingAppended(b, Close(s, turn, reason, at, ids));
    case Ok(closed) =>
      ClosingFolds(b, s, t);
      OneAppended(b, TerminalRow(t), TerminalReply(t, false, closed));
  }

  /** The superseding pre is fully validated before the old turn's terminal is appended:
      once that terminal is written, applying the pre cannot fail. */
  lemma SupersedingPreCannotFail(s: Life, cb: Callback, t: Terminal)
    requires Partitioned(s) && SameLifecycle(s, cb.context) && cb.hook.PreLlmCall?
    requires !InputsRejected(cb.context, PreLlmCall, cb.settled)
    requires Lookup(s.callbacks, cb.Key()).None? && NewPreError(s, cb).None?
    requires s.current == Some(t.turnId) && t.sessionId == s.sessionId && t.lifecycleId == s.lifecycleId
    ensures ApplyTerminal(s, t).Ok?
    ensures Apply(ApplyTerminal(s, t).value, cb, true).Ok?
  {
  }

  lemma HookCrashClosed(b: Book, c: Context, hook: Hook, settled: bool, ids: Ids)
    requires BookKept(b) && FreshIds(b, ids)
    ensures CrashClosed(b, AttemptHook(b, c, hook, settled, ids))
  {
    hide HookEffect, Recorded, FoldRow, FoldRows, CrashClosed;
    var a := AttemptHook(b, c, hook, settled, ids);
    var cb := Callback(c, hook, settled, ids.callback, None);
    var s := LifeFor(b, c);
    if InputsRejected(c, hook, settled) {
      NothingAppended(b, a);
    } else if Lookup(s.callbacks, cb.Key()).Some? {
      NothingAppended(b, a);
    } else if hook.PreLlmCall? && (!SameLifecycle(s, c) || NewPreError(s, cb).Some?) {
      NothingAppended(b, a);
    } else if hook.PreLlmCall? && s.current.Some? {
      var t := Closing(s, s.current.value, SupersededByNewPre, c.turnId, c.observedAt, ids);
      SupersedingPreCannotFail(s, cb, t);
      ClosedThenRecorded(b, s, t, cb, true);
    } else {
      JustRecorded(b, s, cb, true);
    }
  }

  lemma AbandonCrashClosed(b: Book, lifecycle: string, turn: string, at: int, ids: Ids)
    requires BookKept(b) && FreshIds(b, ids)
    ensures CrashClosed(b, AttemptAbandon(b, lifecycle, turn, at, ids))
  {
    hide FoldRow, FoldRows, CrashClosed;
    if lifecycle in b.states {
      JustClosed(b, b.states[lifecycle], turn, OperatorRepair, at, ids);
    }
    if AttemptAbandon(b, lifecycle, turn, at, ids).appends == [] {
      NothingAppended(b, AttemptAbandon(b, lifecycle, turn, at, ids));
    }
  }

  lemma TurnEndCrashClosed(b: Book, c: Context, reason: Reason, ids: Ids)
    requires BookKept(b) && FreshIds(b, ids)
    ensures CrashClosed(b, AttemptTurnEnd(b, c, reason, ids))
  {
    hide HookEffect, Recorded, FoldRow, FoldRows, CrashClosed, BookKept, Apply, ApplyTerminal, Lookup, FirstEnd, Partitioned;
    var a := AttemptTurnEnd(b, c, reason, ids);
    if c.lifecycleId in b.states { StateIsKept(b, c.lifecycleId); }
    if HostTurn(reason) && c.lifecycleId in b.states && c.turnId.Some? && c.turnId.value in b.states[c.lifecycleId].turns {
      var s, turn := b.states[c.lifecycleId], c.turnId.value;
      var cb := Callback(c, OnSessionEnd, false, ids.callback, Some(reason));
      var t := Closing(s, turn, reason, None, c.observedAt, ids);
      if a.appends != [] {
        if s.turns[turn].None? {
          if OnSessionEnd in s.supported {
            NoEndUnderKey(s, cb, turn);
            ClosedThenRecorded(b, s, t, cb, false);
          } else {
            JustClosed(b, s, turn, reason, c.observedAt, ids);
          }
        } else {
          NoEndUnderKey(s, cb, turn);
          JustRecorded(b, s, cb, false);
        }
      }
    }
    if a.appends == [] {
      NothingAppended(b, a);
    }
  }

  lemma {:induction false} NoEndInList(callbacks: seq<Callback>, key: Key, turn: string)
    requires FirstEnd(callbacks, turn).None? && key.0.OnSessionEnd? && key.2 == Some(turn)
    ensures Lookup(callbacks, key).None?
    decreases |callbacks|
  {
    if callbacks != [] {
      NoEndInList(callbacks[1..], key, turn);
    }
  }

  lemma NoEndUnderKey(s: Life, cb: Callback, turn: string)
    requires FirstEnd(s.callbacks, turn).None? && cb.hook.OnSessionEnd? && cb.context.turnId == Some(turn)
    ensures Lookup(s.callbacks, cb.Key()).None?
  {
    NoEndInList(s.callbacks, cb.Key(), turn);
  }

  lemma {:induction false} NoChildInList(callbacks: seq<Callback>, key: Key)
    requires ChildCallbacks(callbacks) == [] && key.0.SubagentStop?
    ensures Lookup(callbacks, key).None?
    decreases |callbacks|
  {
    if callbacks != [] {
      NoChildInList(callbacks[1..], key);
    }
  }

  lemma ChildStopCrashClosed(b: Book, session: string, reason: Reason, at: int, ids: Ids)
    requires BookKept(b) && FreshIds(b, ids)
    ensures CrashClosed(b, AttemptChildStop(b, session, reason, at, ids))
  {
    var a := AttemptChildStop(b, session, reason, at, ids);
    if ChildReason(reason) && |Matching(b, session)| <= 1 && Matching(b, session) != {} {
      forall l | l in Matching(b, session)
        ensures CrashClosed(b, AttemptChildStopOn(b.states[l], session, reason, at, ids))
      {
        ChildStopOnCrashClosed(b, b.states[l], session, reason, at, ids);
      }
    } else {
      NothingAppended(b, a);
    }
  }

  lemma ChildStopOnCrashClosed(b: Book, s: Life, session: string, reason: Reason, at: int, ids: Ids)
    requires BookKept(b) && FreshIds(b, ids) && ChildReason(reason)
    requires s.lifecycleId in b.states && b.states[s.lifecycleId] == s
    ensures CrashClosed(b, AttemptChildStopOn(s, session, reason, at, ids))
  {
    hide HookEffect, Recorded, FoldRow, FoldRows, CrashClosed, ApplyTerminal, Apply, Closing, AttemptChildCallback, Lookup, BookKept;
    var a := AttemptChildStopOn(s, session, reason, at, ids);
    if a.appends == [] {
      NothingAppendedByChildStop(b, s, session, reason, at, ids);
    } else {
      assert ChildCallbacks(s.callbacks) == [];
      var turn := if s.current.Some? then s.current.value else OnlyTurn(s);
      NoChildInList(s.callbacks, (SubagentStop, session, Some(turn)));
      if s.turns[turn].None? {
        ChildClosesTurn(b, s, session, turn, reason, at, ids);
      } else {
        ChildOfClosedTurn(b, s, session, turn, reason, at, ids);
      }
    }
  }

  lemma NothingAppendedByChildStop(b: Book, s: Life, session: string, reason: Reason, at: int, ids: Ids)
    requires s.lifecycleId in b.states && b.states[s.lifecycleId] == s
    requires AttemptChildStopOn(s, session, reason, at, ids).appends == []
    ensures CrashClosed(b, AttemptChildStopOn(s, session, reason, at, ids))
  {
    hide HookEffect, Recorded, Apply;
    NothingAppended(b, AttemptChildStopOn(s, session, reason, at, ids));
  }

  lemma ChildClosesTurn(b: Book, s: Life, session: string, turn: string, reason: Reason, at: int, ids: Ids)
    requires FreshIds(b, ids) && ChildReason(reason)
    requires s.lifecycleId in b.states && b.states[s.lifecycleId] == s
    requires Lookup(s.callbacks, (SubagentStop, session, Some(turn))).None? && s.current == Some(turn)
    requires ApplyTerminal(s, Closing(s, turn, reason, None, at, ids)).Ok?
    ensures var t := Closing(s, turn, reason, None, at, ids);
            CrashClosed(b, AttemptChildCallback(ApplyTerminal(s, t).value, session, turn, t, true, reason, at, ids))
  {
    hide HookEffect, Recorded, FoldRow, FoldRows, CrashClosed;
    var t := Closing(s, turn, reason, None, at, ids);
    var closed := ApplyTerminal(s, t).value;
    if SubagentStop in s.supported {
      var context: Context := ChildContext(closed, session, turn, at);
      var cb := Callback(context, SubagentStop, false, ids.callback, Some(reason));
      if Apply(closed, cb, false).Ok? {
        ClosedThenRecorded(b, s, t, cb, false);
      } else {
        NothingAppended(b, AttemptChildCallback(closed, session, turn, t, true, reason, at, ids));
      }
    } else {
      JustClosed(b, s, turn, reason, at, ids);
    }
  }

  lemma ChildOfClosedTurn(b: Book, s: Life, session: string, turn: string, reason: Reason, at: int, ids: Ids)
    requires FreshIds(b, ids) && ChildReason(reason) && turn in s.terminals
    requires s.lifecycleId in b.states && b.states[s.lifecycleId] == s
    requires Lookup(s.callbacks, (SubagentStop, session, Some(turn))).None?
    ensures CrashClosed(b, AttemptChildCallback(s, session, turn, s.terminals[turn], false, reason, at, ids))
  {
    hide HookEffect, Recorded, FoldRow, FoldRows, CrashClosed, Apply;
    var a := AttemptChildCallback(s, session, turn, s.terminals[turn], false, reason, at, ids);
    if !s.finalized && SubagentStop in s.supported {
      var context: Context := ChildContext(s, session, turn, at);
      JustRecorded(b, s, Callback(context, SubagentStop, false, ids.callback, Some(reason)), false);
    } else {
      NothingAppended(b, a);
    }
  }

  lemma ShutdownCrashClosed(b: Book, c: Context, ids: Ids)
    requires BookKept(b) && FreshIds(b, ids)
    ensures CrashClosed(b, AttemptShutdown(b, c, ids))
  {
    hide FoldRow, FoldRows, CrashClosed;
    var a := AttemptShutdown(b, c, ids);
    if a.appends == [] {
      NothingAppended(b, a);
    } else {
      var s := b.states[c.lifecycleId];
      JustClosed(b, s, s.current.value, HostShutdown, c.observedAt, ids);
    }
  }

  lemma FinalizeCrashClosed(b: Book, c: Context, ids: Ids)
    requires BookKept(b) && FreshIds(b, ids)
    ensures CrashClosed(b, AttemptFinalize(b, c, ids))
  {
    hide HookEffect, Recorded, FoldRow, FoldRows, CrashClosed, ApplyTerminal, BookKept, Partitioned, InputsRejected;
    if c.lifecycleId in b.states { StateIsKept(b, c.lifecycleId); }
    var a := AttemptFinalize(b, c, ids);
    var cb := Callback(c, OnSessionFinalize, false, ids.callback, None);
    var s := LifeFor(b, c);
    if a.appends == [] {
      NothingAppended(b, a);
    } else if s.current.Some? {
      ClosedThenRecorded(b, s, Closing(s, s.current.value, HostSessionFinalized, None, c.observedAt, ids), cb, true);
    } else {
      JustRecorded(b, s, cb, true);
    }
  }

  lemma AttemptCrashClosed(b: Book, call: Call, ids: Ids)
    requires BookKept(b) && FreshIds(b, ids)
    ensures CrashClosed(b, AttemptOf(b, call, ids))
  {
    hide CrashClosed, AttemptHook, AttemptAbandon, AttemptTurnEnd, AttemptChildStop, AttemptShutdown, AttemptFinalize;
    match call
    case HookCall(c, hook, settled) => HookCrashClosed(b, c, hook, settled, ids);
    case AbandonCall(l, turn, at) => AbandonCrashClosed(b, l, turn, at, ids);
    case TurnEndCall(c, reason) => TurnEndCrashClosed(b, c, reason, ids);
    case ChildStopCall(session, reason, at) => ChildStopCrashClosed(b, session, reason, at, ids);
    case ShutdownCall(c) => ShutdownCrashClosed(b, c, ids);
    case FinalizeCall(c) => FinalizeCrashClosed(b, c, ids);
  }
}
