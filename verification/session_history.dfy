/** The session replay read as history: what a lifecycle's state says about its rows, and which row
    a ledger admits next, both without running the replay (moonbite_plugin/session.py:468-889). */
module SessionHistory {
  import opened Basics
  import opened SessionModel
  import opened SessionReplay

  // ---- facts about the rows of one lifecycle ---------------------------------------------

  predicate Fires(row: Row, hook: Hook) { row.HookRow? && row.callback.hook == hook }

  predicate Opens(row: Row, turn: string) { Fires(row, PreLlmCall) && row.callback.context.turnId == Some(turn) }

  predicate Settles(row: Row, turn: string) {
    Fires(row, PostLlmCall) && row.callback.settled && row.callback.context.turnId == Some(turn)
  }

  predicate Abandons(row: Row, turn: string) { row.TerminalRow? && row.terminal.turnId == turn }

  predicate Contacts(row: Row, source: string) {
    && row.HookRow? && row.callback.context.isFresh && row.callback.context.sourceKind.PrivateInbound?
    && row.callback.context.sourceId == source
  }

  predicate CarriesKey(row: Row, key: Key) { row.HookRow? && row.callback.Key() == key }

  predicate Fired(mine: seq<Row>, hook: Hook) { exists row :: row in mine && Fires(row, hook) }
  predicate Opened(mine: seq<Row>, turn: string) { exists row :: row in mine && Opens(row, turn) }
  predicate Settled(mine: seq<Row>, turn: string) { exists row :: row in mine && Settles(row, turn) }
  predicate GivenUp(mine: seq<Row>, turn: string) { exists row :: row in mine && Abandons(row, turn) }
  predicate Contacted(mine: seq<Row>, source: string) { exists row :: row in mine && Contacts(row, source) }
  predicate KeyUsed(mine: seq<Row>, key: Key) { exists row :: row in mine && CarriesKey(row, key) }
  predicate Ended(mine: seq<Row>, turn: string) { Settled(mine, turn) || GivenUp(mine, turn) }
  predicate IsOpen(mine: seq<Row>, turn: string) { Opened(mine, turn) && !Ended(mine, turn) }

  /** Which turn a row ends, if it ends one. */
  function EndedBy(row: Row): seq<string> {
    match row
    case TerminalRow(t) => [t.turnId]
    case HookRow(cb) => if cb.hook.PostLlmCall? && cb.settled && cb.context.turnId.Some? then [cb.context.turnId.value] else []
  }

  function EndedIn(mine: seq<Row>): seq<string> { if mine == [] then [] else EndedIn(Front(mine)) + EndedBy(Last(mine)) }

  function CallbacksIn(mine: seq<Row>): seq<Callback> {
    if mine == [] then []
    else CallbacksIn(Front(mine)) + (if Last(mine).HookRow? then [Last(mine).callback] else [])
  }

  /** A row of the session and capabilities a lifecycle was opened with. */
  predicate FromSession(row: Row, session: string, supported: set<Hook>) {
    match row
    case HookRow(cb) => cb.context.sessionId == session && cb.context.supported == supported
    case TerminalRow(t) => t.sessionId == session
  }

  lemma OneMore(mine: seq<Row>, row: Row)
    ensures forall hook :: Fired(mine + [row], hook) <==> Fired(mine, hook) || Fires(row, hook)
    ensures forall t :: Opened(mine + [row], t) <==> Opened(mine, t) || Opens(row, t)
    ensures forall t :: Settled(mine + [row], t) <==> Settled(mine, t) || Settles(row, t)
    ensures forall t :: GivenUp(mine + [row], t) <==> GivenUp(mine, t) || Abandons(row, t)
    ensures forall x :: Contacted(mine + [row], x) <==> Contacted(mine, x) || Contacts(row, x)
    ensures forall key :: KeyUsed(mine + [row], key) <==> KeyUsed(mine, key) || CarriesKey(row, key)
  {
    hide Fires, Opens, Settles, Abandons, Contacts, CarriesKey;
    assert forall r :: r in mine + [row] <==> r in mine || r == row;
  }

  // ---- what a state says about the history -----------------------------------------------

  predicate Belongs(s: Life, mine: seq<Row>) {
    && (forall row <- mine :: row.Lifecycle() == s.lifecycleId && FromSession(row, s.sessionId, s.supported))
    && (mine != [] ==> exists row :: row in mine && row.HookRow?)
  }

  ghost predicate TurnsMean(s: Life, mine: seq<Row>) {
    && (forall t :: t in s.turns <==> Opened(mine, t))
    && (forall t :: GivenUp(mine, t) <==> t in s.turns && s.turns[t] == Some(Abandoned))
    && (forall t :: Settled(mine, t) <==> t in s.turns && s.turns[t] == Some(Completed))
    && (forall t :: s.current == Some(t) <==> IsOpen(mine, t))
  }

  ghost predicate TerminalsMean(s: Life, mine: seq<Row>) {
    && (forall t :: t in s.terminals <==> GivenUp(mine, t))
    && (forall row <- mine :: row.TerminalRow? ==> row.terminal.turnId in s.terminals && s.terminals[row.terminal.turnId] == row.terminal)
    && s.terminalTurnIds == EndedIn(mine)
  }

  ghost predicate RestMeans(s: Life, mine: seq<Row>) {
    && s.callbacks == CallbacksIn(mine)
    && (forall hook :: hook in s.gates <==> hook in {PreGatewayDispatch, OnSessionStart} && Fired(mine, hook))
    && (s.finalized <==> Fired(mine, OnSessionFinalize))
    && (forall x :: x in s.privateSources <==> Contacted(mine, x))
  }

  /** Every field of a lifecycle's state, as a fact about its rows. */
  ghost predicate Remembers(s: Life, mine: seq<Row>) {
    Belongs(s, mine) && TurnsMean(s, mine) && TerminalsMean(s, mine) && RestMeans(s, mine)
  }

  lemma NewLifeRemembersNothing(c: Context)
    ensures Remembers(NewLife(c), [])
  {
  }

  lemma LastOfOneMore(mine: seq<Row>, row: Row)
    ensures CallbacksIn(mine + [row]) == CallbacksIn(mine) + (if row.HookRow? then [row.callback] else [])
    ensures EndedIn(mine + [row]) == EndedIn(mine) + EndedBy(row)
  {
    FrontOfAppend(mine, row);
  }

  lemma TerminalIsRemembered(s: Life, mine: seq<Row>, t: Terminal)
    requires Partitioned(s) && Remembers(s, mine) && ApplyTerminal(s, t).Ok?
    ensures Remembers(ApplyTerminal(s, t).value, mine + [TerminalRow(t)])
  {
    hide Fired, Opened, Settled, GivenUp, Contacted, KeyUsed, Belongs, TurnsMean, TerminalsMean, RestMeans;
    TerminalEndsTurn(s, mine, t);
    TerminalIsKept(s, mine, t);
  }

  lemma TerminalEndsTurn(s: Life, mine: seq<Row>, t: Terminal)
    requires Partitioned(s) && TurnsMean(s, mine) && ApplyTerminal(s, t).Ok?
    ensures TurnsMean(ApplyTerminal(s, t).value, mine + [TerminalRow(t)])
  {
    hide Fired, Opened, Settled, GivenUp, Contacted, KeyUsed;
    OneMore(mine, TerminalRow(t));
  }

  lemma TerminalIsKept(s: Life, mine: seq<Row>, t: Terminal)
    requires Belongs(s, mine) && TerminalsMean(s, mine) && RestMeans(s, mine) && TurnsMean(s, mine) && ApplyTerminal(s, t).Ok?
    ensures var u, longer := ApplyTerminal(s, t).value, mine + [TerminalRow(t)];
            Belongs(u, longer) && TerminalsMean(u, longer) && RestMeans(u, longer)
  {
    hide Belongs, TerminalsMean, RestMeans, Opened;
    var u := ApplyTerminal(s, t).value;
    assert Opened(mine, t.turnId);
    TerminalBelongs(s, u, mine, t);
    TerminalIsNoted(s, u, mine, t);
    TerminalIsNoCallback(s, u, mine, t);
  }

  lemma TerminalBelongs(s: Life, u: Life, mine: seq<Row>, t: Terminal)
    requires Belongs(s, mine) && Opened(mine, t.turnId) && t.lifecycleId == s.lifecycleId && t.sessionId == s.sessionId
    requires u.sessionId == s.sessionId && u.lifecycleId == s.lifecycleId && u.supported == s.supported
    ensures Belongs(u, mine + [TerminalRow(t)])
  {
    var opening :| opening in mine && Opens(opening, t.turnId);
    assert opening in mine + [TerminalRow(t)];
  }

  lemma TerminalIsNoted(s: Life, u: Life, mine: seq<Row>, t: Terminal)
    requires TerminalsMean(s, mine) && t.turnId !in s.terminals && u.terminals == s.terminals[t.turnId := t]
    requires u.terminalTurnIds == s.terminalTurnIds + [t.turnId]
    ensures TerminalsMean(u, mine + [TerminalRow(t)])
  {
    hide Fired, Opened, Settled, GivenUp, Contacted, KeyUsed;
    OneMore(mine, TerminalRow(t));
    LastOfOneMore(mine, TerminalRow(t));
  }

  lemma TerminalIsNoCallback(s: Life, u: Life, mine: seq<Row>, t: Terminal)
    requires RestMeans(s, mine) && u.callbacks == s.callbacks && u.gates == s.gates
    requires u.finalized == s.finalized && u.privateSources == s.privateSources
    ensures RestMeans(u, mine + [TerminalRow(t)])
  {
    hide Fired, Opened, Settled, GivenUp, Contacted, KeyUsed;
    OneMore(mine, TerminalRow(t));
    LastOfOneMore(mine, TerminalRow(t));
  }

  lemma CallbackIsRemembered(s: Life, mine: seq<Row>, cb: Callback)
    requires Partitioned(s) && Remembers(s, mine) && Apply(s, cb, false).Ok?
    ensures Remembers(Apply(s, cb, false).value.1, mine + [HookRow(cb)])
  {
    hide Lookup, TurnsMean, TerminalsMean, RestMeans, Belongs, HookEffect, Partitioned, InputsRejected;
    CallbackMovesTurns(s, mine, cb);
    CallbackIsKept(s, mine, cb);
  }

  lemma CallbackMovesTurns(s: Life, mine: seq<Row>, cb: Callback)
    requires Partitioned(s) && TurnsMean(s, mine) && HookEffect(s, cb).Ok?
    ensures TurnsMean(Recorded(HookEffect(s, cb).value, cb), mine + [HookRow(cb)])
  {
    hide TurnsMean, Partitioned;
    var u := Recorded(HookEffect(s, cb).value, cb);
    if cb.hook.PreLlmCall? {
      TurnIsOpened(s, u, mine, cb);
    } else if cb.hook.PostLlmCall? && cb.settled {
      TurnIsSettled(s, u, mine, cb);
    } else {
      TurnsAreLeft(s, u, mine, cb);
    }
  }

  lemma TurnIsOpened(s: Life, u: Life, mine: seq<Row>, cb: Callback)
    requires TurnsMean(s, mine) && cb.hook.PreLlmCall? && cb.context.turnId.Some?
    requires s.current.None? && cb.context.turnId.value !in s.turns
    requires u.turns == s.turns[cb.context.turnId.value := None] && u.current == cb.context.turnId
    ensures TurnsMean(u, mine + [HookRow(cb)])
  {
    hide Fired, Opened, Settled, GivenUp, Contacted, KeyUsed;
    OneMore(mine, HookRow(cb));
  }

  lemma TurnIsSettled(s: Life, u: Life, mine: seq<Row>, cb: Callback)
    requires TurnsMean(s, mine) && cb.hook.PostLlmCall? && cb.settled && cb.context.turnId.Some?
    requires s.current == cb.context.turnId && cb.context.turnId.value in s.turns
    requires u.turns == s.turns[cb.context.turnId.value := Some(Completed)] && u.current.None?
    ensures TurnsMean(u, mine + [HookRow(cb)])
  {
    hide Fired, Opened, Settled, GivenUp, Contacted, KeyUsed;
    OneMore(mine, HookRow(cb));
  }

  lemma TurnsAreLeft(s: Life, u: Life, mine: seq<Row>, cb: Callback)
    requires TurnsMean(s, mine) && !cb.hook.PreLlmCall? && !(cb.hook.PostLlmCall? && cb.settled)
    requires u.turns == s.turns && u.current == s.current
    ensures TurnsMean(u, mine + [HookRow(cb)])
  {
    hide Fired, Opened, Settled, GivenUp, Contacted, KeyUsed;
    OneMore(mine, HookRow(cb));
  }

  lemma CallbackIsKept(s: Life, mine: seq<Row>, cb: Callback)
    requires Belongs(s, mine) && TerminalsMean(s, mine) && RestMeans(s, mine)
    requires HookEffect(s, cb).Ok? && SameLifecycle(s, cb.context)
    ensures var u, longer := Recorded(HookEffect(s, cb).value, cb), mine + [HookRow(cb)];
            Belongs(u, longer) && TerminalsMean(u, longer) && RestMeans(u, longer)
  {
    hide TerminalsMean, RestMeans, HookEffect, Belongs;
    var u, longer := Recorded(HookEffect(s, cb).value, cb), mine + [HookRow(cb)];
    LeftByHook(s, cb);
    StillBelongs(s, u, mine, cb);
    CallbackIsNoTerminal(s, u, mine, cb);
    CallbackIsNoted(s, u, mine, cb);
  }

  lemma LeftByHook(s: Life, cb: Callback)
    requires HookEffect(s, cb).Ok?
    ensures var t := HookEffect(s, cb).value;
            && t.sessionId == s.sessionId && t.lifecycleId == s.lifecycleId && t.supported == s.supported
            && t.callbacks == s.callbacks && t.terminals == s.terminals && t.privateSources == s.privateSources
            && t.terminalTurnIds == s.terminalTurnIds + EndedBy(HookRow(cb))
            && t.gates == s.gates + (if cb.hook in {PreGatewayDispatch, OnSessionStart} then {cb.hook} else {})
            && t.finalized == (s.finalized || cb.hook.OnSessionFinalize?)
  {
  }

  lemma StillBelongs(s: Life, u: Life, mine: seq<Row>, cb: Callback)
    requires Belongs(s, mine) && SameLifecycle(s, cb.context)
    requires u.sessionId == s.sessionId && u.lifecycleId == s.lifecycleId && u.supported == s.supported
    ensures Belongs(u, mine + [HookRow(cb)])
  {
    assert HookRow(cb) in mine + [HookRow(cb)];
  }

  lemma CallbackIsNoTerminal(s: Life, u: Life, mine: seq<Row>, cb: Callback)
    requires TerminalsMean(s, mine) && u.terminals == s.terminals
    requires u.terminalTurnIds == s.terminalTurnIds + EndedBy(HookRow(cb))
    ensures TerminalsMean(u, mine + [HookRow(cb)])
  {
    hide Fired, Opened, Settled, GivenUp, Contacted, KeyUsed;
    OneMore(mine, HookRow(cb));
    LastOfOneMore(mine, HookRow(cb));
  }

  lemma CallbackIsNoted(s: Life, u: Life, mine: seq<Row>, cb: Callback)
    requires RestMeans(s, mine) && u.callbacks == s.callbacks + [cb]
    requires u.gates == s.gates + (if cb.hook in {PreGatewayDispatch, OnSessionStart} then {cb.hook} else {})
    requires u.finalized == (s.finalized || cb.hook.OnSessionFinalize?)
    requires u.privateSources == s.privateSources +
             (if cb.context.isFresh && cb.context.sourceKind.PrivateInbound? then {cb.context.sourceId} else {})
    ensures RestMeans(u, mine + [HookRow(cb)])
  {
    hide Fired, Opened, Settled, GivenUp, Contacted, KeyUsed;
    OneMore(mine, HookRow(cb));
    LastOfOneMore(mine, HookRow(cb));
  }

  /** After any accepted ledger each lifecycle's state remembers exactly its own rows. */
  lemma {:induction false} StateRemembersHistory(rows: seq<Row>, lifecycle: string)
    requires Replay(rows).Ok?
    ensures lifecycle in Replay(rows).value.states <==> Mine(rows, lifecycle) != []
    ensures lifecycle in Replay(rows).value.states ==> Remembers(Replay(rows).value.states[lifecycle], Mine(rows, lifecycle))
  {
    hide Apply, ApplyTerminal, Remembers, Partitioned;
    if rows == [] {
    } else {
      StateRemembersHistory(Front(rows), lifecycle);
      ReplayPartitions(Front(rows));
      var b, row := Replay(Front(rows)).value, Last(rows);
      var mine := Mine(Front(rows), lifecycle);
      if row.Lifecycle() == lifecycle {
        match row
        case HookRow(cb) =>
          NewLifeRemembersNothing(cb.context);
          NewLifeIsPartitioned(cb.context);
          CallbackIsRemembered(if lifecycle in b.states then b.states[lifecycle] else NewLife(cb.context), mine, cb);
        case TerminalRow(t) =>
          TerminalIsRemembered(b.states[lifecycle], mine, t);
      } else {
        assert Mine(rows, lifecycle) == mine;
      }
    }
  }

  // ---- which row comes next --------------------------------------------------------------

  /** The hook fits where its context says it comes from. */
  predicate Fits(c: Context, hook: Hook, settled: bool) {
    && (hook.OnSessionStart? ==> c.sourceKind.SessionStart?)
    && (hook.PostLlmCall? ==> c.sourceKind.AssistantResponse?)
    && (hook in {OnSessionEnd, OnSessionFinalize, SubagentStop} ==> c.sourceKind.System?)
    && (c.sourceKind in {SessionStart, AssistantResponse} ==> hook !in {PreGatewayDispatch, PreLlmCall})
    && (c.sourceKind.PrivateInbound? ==> c.isFresh)
    && (settled ==> hook.PostLlmCall?)
  }

  predicate GatesPassed(mine: seq<Row>, supported: set<Hook>) {
    forall gate <- {PreGatewayDispatch, OnSessionStart} :: gate in supported ==> Fired(mine, gate)
  }

  ghost predicate AllEnded(mine: seq<Row>) { forall t :: Opened(mine, t) ==> Ended(mine, t) }

  predicate Compatibly(a: Reason, b: Reason) {
    a == b || (a.HostTurnFailed? && b.HostTurnIncomplete?) || (a.HostTurnIncomplete? && b.HostTurnFailed?)
  }

  /** The reason a callback may carry: a session end any the host gives for a turn, a child stop
      one of two, other hooks none. */
  predicate ReasonFits(hook: Hook, reason: Option<Reason>) {
    match hook
    case OnSessionEnd => reason.None? || HostTurn(reason.value)
    case SubagentStop => reason in {Some(HostTurnFailed), Some(HostTurnInterrupted)}
    case _ => reason.None?
  }

  /** What each hook needs of the rows before it. */
  ghost predicate Timely(mine: seq<Row>, cb: Callback) {
    match cb.hook
    case PreGatewayDispatch => !Fired(mine, PreGatewayDispatch)
    case OnSessionStart =>
      !Fired(mine, OnSessionStart) && (PreGatewayDispatch in cb.context.supported ==> Fired(mine, PreGatewayDispatch))
    case PreLlmCall =>
      && cb.context.turnId.Some? && GatesPassed(mine, cb.context.supported)
      && AllEnded(mine) && !Opened(mine, cb.context.turnId.value)
    case PostLlmCall => cb.context.turnId.Some? && IsOpen(mine, cb.context.turnId.value)
    case OnSessionEnd => cb.context.turnId.Some? && Ended(mine, cb.context.turnId.value)
    case SubagentStop =>
      cb.terminalReason.Some? && exists row :: row in mine && row.TerminalRow? && cb.context.turnId == Some(row.terminal.turnId)
                                               && Compatibly(row.terminal.reason, cb.terminalReason.value)
    case OnSessionFinalize =>
      && GatesPassed(mine, cb.context.supported) && AllEnded(mine)
      && (PreLlmCall in cb.context.supported ==> exists t :: Opened(mine, t))
  }

  /** The next row a lifecycle with this history admits. */
  ghost predicate Admissible(mine: seq<Row>, row: Row) {
    && !Fired(mine, OnSessionFinalize)
    && match row
       case TerminalRow(t) =>
         && (t.reason.SupersededByNewPre? <==> t.successor.Some?) && t.successor != Some(t.turnId)
         && (forall earlier <- mine :: SessionOf(earlier) == t.sessionId)
         && IsOpen(mine, t.turnId)
       case HookRow(cb) =>
         && ReasonFits(cb.hook, cb.terminalReason) && Fits(cb.context, cb.hook, cb.settled)
         && (forall earlier <- mine :: FromSession(earlier, cb.context.sessionId, cb.context.supported))
         && !KeyUsed(mine, cb.Key()) && cb.hook in cb.context.supported
         && Timely(mine, cb)
  }

  function SessionOf(row: Row): string {
    match row case HookRow(cb) => cb.context.sessionId case TerminalRow(t) => t.sessionId
  }

  lemma FitsIff(c: Context, hook: Hook, settled: bool)
    ensures Fits(c, hook, settled) <==> !InputsRejected(c, hook, settled)
  {
  }

  lemma ReasonFitsIff(cb: Callback)
    ensures ReasonFits(cb.hook, cb.terminalReason) <==> RowValid(HookRow(cb))
  {
  }

  lemma OpenTurnIsCurrent(s: Life, mine: seq<Row>)
    requires Partitioned(s) && TurnsMean(s, mine)
    ensures AllEnded(mine) <==> s.current.None?
    ensures (exists t :: Opened(mine, t)) <==> s.turns != map[]
    ensures (exists t :: t in s.turns && s.turns[t].None?) <==> s.current.Some?
  {
    hide Opened, Settled, GivenUp;
    if s.current.Some? { assert IsOpen(mine, s.current.value); }
    if s.turns != map[] {
      var t :| t in s.turns;
      assert Opened(mine, t);
    }
    forall t | Opened(mine, t) && !Ended(mine, t) ensures s.current == Some(t) { assert IsOpen(mine, t); }
  }

  /** A hook is accepted by the state exactly when it is timely in its history. */
  lemma TimelyIff(s: Life, mine: seq<Row>, cb: Callback)
    requires Partitioned(s) && Remembers(s, mine) && SameLifecycle(s, cb.context) && ReasonFits(cb.hook, cb.terminalReason)
    ensures HookEffect(s, cb).Ok? <==> Timely(mine, cb)
  {
    hide Fired, Opened, Settled, GivenUp, Contacted, KeyUsed, AllEnded, EndedIn, CallbacksIn;
    OpenTurnIsCurrent(s, mine);
    GatesIff(s, mine);
    if cb.hook.SubagentStop? { ChildIsTimelyIff(s, mine, cb); }
  }

  lemma GatesIff(s: Life, mine: seq<Row>)
    requires RestMeans(s, mine)
    ensures GatesPassed(mine, s.supported) <==> GateOpen(s, PreGatewayDispatch) && GateOpen(s, OnSessionStart)
  {
    hide Fired;
    if GatesPassed(mine, s.supported) {
      assert PreGatewayDispatch in {PreGatewayDispatch, OnSessionStart} && OnSessionStart in {PreGatewayDispatch, OnSessionStart};
    }
  }

  lemma ChildIsTimelyIff(s: Life, mine: seq<Row>, cb: Callback)
    requires TurnsMean(s, mine) && TerminalsMean(s, mine) && cb.hook.SubagentStop? && ReasonFits(cb.hook, cb.terminalReason)
    ensures HookEffect(s, cb).Ok? <==> Timely(mine, cb)
  {
    hide Fired, Opened, Settled, Contacted, KeyUsed, EndedIn;
    if cb.context.turnId.Some? && GivenUp(mine, cb.context.turnId.value) {
      var row :| row in mine && Abandons(row, cb.context.turnId.value);
      assert s.terminals[cb.context.turnId.value] == row.terminal;
    }
    if Timely(mine, cb) {
      var row :| row in mine && row.TerminalRow? && cb.context.turnId == Some(row.terminal.turnId)
                 && Compatibly(row.terminal.reason, cb.terminalReason.value);
      assert Abandons(row, cb.context.turnId.value);
    }
  }

  lemma SameSessionIff(s: Life, mine: seq<Row>, c: Context)
    requires Belongs(s, mine) && mine != [] && c.lifecycleId == s.lifecycleId
    ensures SameLifecycle(s, c) <==> forall earlier <- mine :: FromSession(earlier, c.sessionId, c.supported)
  {
    var row :| row in mine && row.HookRow?;
  }

  /** One callback against a lifecycle: accepted exactly when its history admits it. */
  lemma CallbackAcceptedIff(s: Life, mine: seq<Row>, cb: Callback)
    requires Partitioned(s) && Remembers(s, mine) && cb.context.lifecycleId == s.lifecycleId
    requires mine == [] ==> s == NewLife(cb.context)
    ensures RowValid(HookRow(cb)) && Apply(s, cb, false).Ok? <==> Admissible(mine, HookRow(cb))
  {
    hide Fired, HookEffect, Timely, Partitioned, TurnsMean, TerminalsMean, InputsRejected, Fits, RowValid, ReasonFits;
    FitsIff(cb.context, cb.hook, cb.settled);
    ReasonFitsIff(cb);
    KeyUsedIsFound(mine, cb.Key());
    if mine != [] { SameSessionIff(s, mine, cb.context); }
    if SameLifecycle(s, cb.context) && ReasonFits(cb.hook, cb.terminalReason) { TimelyIff(s, mine, cb); }
  }

  lemma TerminalAcceptedIff(s: Life, mine: seq<Row>, t: Terminal)
    requires Partitioned(s) && Remembers(s, mine) && t.lifecycleId == s.lifecycleId && mine != []
    ensures RowValid(TerminalRow(t)) && ApplyTerminal(s, t).Ok? <==> Admissible(mine, TerminalRow(t))
  {
    hide Fired, Opened, Settled, GivenUp, Contacted;
    assert mine[0] in mine;
    assert IsOpen(mine, t.turnId) <==> s.current == Some(t.turnId);
  }

  /** The whole replay, without running it: after an accepted ledger the next row is accepted exactly
      when its event id is new and the history of its own lifecycle admits it. */
  lemma AcceptedIff(rows: seq<Row>, row: Row)
    requires Replay(rows).Ok?
    ensures Replay(rows + [row]).Ok? <==>
            (forall earlier <- rows :: earlier.Event() != row.Event()) && Admissible(Mine(rows, row.Lifecycle()), row)
  {
    hide Apply, ApplyTerminal, Remembers, Partitioned, Admissible, RowValid;
    var b, l := Replay(rows).value, row.Lifecycle();
    FrontOfAppend(rows, row);
    EventsOfReplay(rows);
    ReplayPartitions(rows);
    StateRemembersHistory(rows, l);
    match row
    case HookRow(cb) =>
      NewLifeRemembersNothing(cb.context);
      NewLifeIsPartitioned(cb.context);
      CallbackAcceptedIff(if l in b.states then b.states[l] else NewLife(cb.context), Mine(rows, l), cb);
    case TerminalRow(t) =>
      if l in b.states { TerminalAcceptedIff(b.states[l], Mine(rows, l), t); } else { NothingOpen(t); }
  }

  lemma NothingOpen(t: Terminal)
    ensures !Admissible([], TerminalRow(t))
  {
  }

  lemma {:induction false} KeyUsedIsFound(mine: seq<Row>, key: Key)
    ensures Lookup(CallbacksIn(mine), key).Some? <==> KeyUsed(mine, key)
    ensures Lookup(CallbacksIn(mine), key).Some? ==>
              Lookup(CallbacksIn(mine), key).value.Key() == key && HookRow(Lookup(CallbacksIn(mine), key).value) in mine
  {
    if mine != [] {
      KeyUsedIsFound(Front(mine), key);
      SplitLast(mine);
      OneMore(Front(mine), Last(mine));
      if Last(mine).HookRow? {
        LookupAppended(CallbacksIn(Front(mine)), Last(mine).callback, key);
      } else {
        assert CallbacksIn(mine) == CallbacksIn(Front(mine));
      }
    }
  }

  lemma {:induction false} LookupAppended(callbacks: seq<Callback>, cb: Callback, key: Key)
    ensures Lookup(callbacks + [cb], key) ==
            if Lookup(callbacks, key).Some? then Lookup(callbacks, key)
            else if cb.Key() == key then Some(cb) else None
    decreases |callbacks|
  {
    if callbacks == [] {
      assert [] + [cb] == [cb] && [cb][1..] == [];
    } else {
      assert (callbacks + [cb])[1..] == callbacks[1..] + [cb];
      LookupAppended(callbacks[1..], cb, key);
    }
  }
}
