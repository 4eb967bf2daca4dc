/** Whole runs of the session store, with crashes allowed between any two appends, and what
    repeating an interrupted call achieves. */
module SessionRuns {
  import opened Basics
  import opened SessionModel
  import opened SessionReplay
  import opened SessionAttempts
  import opened SessionCrash

  /** One call of a run, the ids it draws, and how many rows it gets to append before its
      process stops; two or more means it completes. */
  datatype Event = Event(call: Call, ids: Ids, written: nat)

  ghost function Rows(rows: seq<Row>, e: Event): seq<Row> {
    match Replay(rows)
    case Err(_) => rows
    case Ok(b) =>
      var appends := AttemptOf(b, e.call, e.ids).appends;
      rows + (if e.written < |appends| then appends[..e.written] else appends)
  }

  ghost function Run(events: seq<Event>): seq<Row> {
    if events == [] then [] else Rows(Run(Front(events)), Last(events))
  }

  /** Event ids are drawn once. */
  predicate FreshRun(events: seq<Event>) {
    && (forall i, j :: 0 <= i < |events| && 0 <= j < |events| ==> events[i].ids.terminal != events[j].ids.callback)
    && (forall i, j :: 0 <= i < j < |events| ==>
          && events[i].ids.terminal != events[j].ids.terminal
          && events[i].ids.callback != events[j].ids.callback)
  }

  function DrawnIds(events: seq<Event>): set<string> {
    (set e <- events :: e.ids.terminal) + (set e <- events :: e.ids.callback)
  }

  predicate OwnIds(a: Attempt, ids: Ids) {
    forall row <- a.appends :: row.Event() in {ids.terminal, ids.callback}
  }

  lemma AppendsCarryOwnIds(b: Book, call: Call, ids: Ids)
    ensures OwnIds(AttemptOf(b, call, ids), ids)
  {
    hide OwnIds, AttemptHook, AttemptTurnEnd, AttemptChildStop;
    match call
    case HookCall(c, hook, settled) => HookCarriesOwnIds(b, c, hook, settled, ids);
    case TurnEndCall(c, reason) => TurnEndCarriesOwnIds(b, c, reason, ids);
    case ChildStopCall(session, reason, at) => ChildStopCarriesOwnIds(b, session, reason, at, ids);
    case _ => OtherCallsCarryOwnIds(b, call, ids);
  }

  lemma HookCarriesOwnIds(b: Book, c: Context, hook: Hook, settled: bool, ids: Ids)
    ensures OwnIds(AttemptHook(b, c, hook, settled, ids), ids)
  {
    hide Apply, ApplyTerminal, Lookup, NewPreError, InputsRejected;
  }

  lemma TurnEndCarriesOwnIds(b: Book, c: Context, reason: Reason, ids: Ids)
    ensures OwnIds(AttemptTurnEnd(b, c, reason, ids), ids)
  {
    hide Apply, ApplyTerminal, FirstEnd, SameCallback, InputsRejected;
  }

  lemma ChildStopCarriesOwnIds(b: Book, session: string, reason: Reason, at: int, ids: Ids)
    ensures OwnIds(AttemptChildStop(b, session, reason, at, ids), ids)
  {
    hide Apply, ApplyTerminal, ChildCallbacks;
  }

  lemma OtherCallsCarryOwnIds(b: Book, call: Call, ids: Ids)
    requires call.AbandonCall? || call.ShutdownCall? || call.FinalizeCall?
    ensures OwnIds(AttemptOf(b, call, ids), ids)
  {
    hide Apply, ApplyTerminal, Lookup, InputsRejected;
  }

  lemma CrashPrefixFolds(b: Book, a: Attempt, written: nat)
    requires CrashClosed(b, a)
    ensures FoldRows(b, if written < |a.appends| then a.appends[..written] else a.appends).Ok?
  {
    hide FoldRows;
  }

  /** One call, interrupted or not, leaves a ledger the replay accepts. */
  lemma CallStaysReadable(rows: seq<Row>, e: Event)
    requires Replay(rows).Ok? && FreshIds(Replay(rows).value, e.ids)
    ensures Replay(Rows(rows, e)).Ok?
    ensures Replay(Rows(rows, e)).value.events <= Replay(rows).value.events + {e.ids.terminal, e.ids.callback}
  {
    hide AttemptOf, BookKept, FreshIds, FoldRow, FoldRows, CrashClosed;
    var b := Replay(rows).value;
    var a := AttemptOf(b, e.call, e.ids);
    ReplayPartitions(rows);
    AttemptCrashClosed(b, e.call, e.ids);
    AppendsCarryOwnIds(b, e.call, e.ids);
    var written := if e.written < |a.appends| then a.appends[..e.written] else a.appends;
    CrashPrefixFolds(b, a, e.written);
    ReplayThenFold(rows, written);
    EventsOfReplay(rows);
    EventsOfReplay(rows + written);
    forall row | row in rows + written
      ensures row.Event() in b.events + {e.ids.terminal, e.ids.callback}
    {
      assert row in rows || row in a.appends;
    }
  }

  /** Crash-closed ledger: after any run of the six mutators, with a crash allowed between
      any two appends, the replay accepts the ledger and every lifecycle in it is
      partitioned. */
  lemma {:induction false} RunsStayReadable(events: seq<Event>)
    requires FreshRun(events)
    ensures Replay(Run(events)).Ok?
    ensures BookKept(Replay(Run(events)).value)
    ensures Replay(Run(events)).value.events <= DrawnIds(events)
  {
    hide FreshRun, DrawnIds, BookKept, Rows, FoldRow;
    if events == [] {
      assert Replay(Run(events)) == Ok(Book(map[], {}));
    } else {
      var before := Front(events);
      assert before == events[..|events| - 1];
      NewIds(events, |events| - 1);
      RunsStayReadable(before);
      CallStaysReadable(Run(before), Last(events));
    }
    ReplayPartitions(Run(events));
  }

  /** The ids of an event are none of those drawn before. */
  lemma NewIds(events: seq<Event>, k: nat)
    requires FreshRun(events) && k < |events|
    ensures FreshRun(events[..k])
    ensures events[k].ids.terminal !in DrawnIds(events[..k]) && events[k].ids.callback !in DrawnIds(events[..k])
    ensures events[k].ids.terminal != events[k].ids.callback
    ensures DrawnIds(events[..k]) + {events[k].ids.terminal, events[k].ids.callback} <= DrawnIds(events)
  {
    assert events[k] in events && forall e <- events[..k] :: e in events;
    forall e | e in events[..k]
      ensures events[k].ids.terminal !in {e.ids.terminal, e.ids.callback} && events[k].ids.callback !in {e.ids.terminal, e.ids.callback}
    {
      var i :| 0 <= i < k && events[..k][i] == e;
      assert events[i] == e;
    }
  }

  /** A completed call: the ledger replays to exactly the lifecycle the caller was shown,
      every other lifecycle is as before, and a refused call leaves the ledger alone. */
  lemma CompletedCallMatchesReplay(rows: seq<Row>, call: Call, ids: Ids)
    requires Replay(rows).Ok? && FreshIds(Replay(rows).value, ids)
    ensures var b := Replay(rows).value;
            var a := AttemptOf(b, call, ids);
            && Replay(rows + a.appends).Ok?
            && (a.reply.Err? ==> a.appends == [])
            && (a.reply.Ok? && !a.reply.value.NoReply? ==>
                  Replay(rows + a.appends).value.states == b.states[a.reply.value.life.lifecycleId := a.reply.value.life])
  {
    var b := Replay(rows).value;
    ReplayPartitions(rows);
    AttemptCrashClosed(b, call, ids);
    hide AttemptOf;
    ReplayThenFold(rows, AttemptOf(b, call, ids).appends);
  }

  // ---- retry convergence -------------------------------------------------------------

  /** The book right after the first of two appends. */
  function Interrupted(b: Book, first: Attempt): Book
    requires |first.appends| == 2
  {
    match FoldRow(b, first.appends[0]) case Ok(c) => c case Err(_) => b
  }

  /** A book a repeat may find: whatever happened since, the interrupted lifecycle is as it was left. */
  predicate LeftAlone(b: Book, first: Attempt, later: Book)
    requires |first.appends| == 2
  {
    var l := first.appends[0].Lifecycle();
    StateOf(later, l) == StateOf(Interrupted(b, first), l)
  }

  /** The same call, made at another time. */
  function Retimed(call: Call, at: int): Call {
    match call
    case HookCall(c, hook, settled) => HookCall(c.(observedAt := at), hook, settled)
    case AbandonCall(l, turn, _) => AbandonCall(l, turn, at)
    case TurnEndCall(c, reason) => TurnEndCall(c.(observedAt := at), reason)
    case ChildStopCall(session, reason, _) => ChildStopCall(session, reason, at)
    case ShutdownCall(c) => ShutdownCall(c.(observedAt := at))
    case FinalizeCall(c) => FinalizeCall(c.(observedAt := at))
  }

  function At(cb: Callback, at: int): Callback { cb.(context := cb.context.(observedAt := at)) }

  /** The ids of an uninterrupted call that would have drawn the retry's callback id. */
  function Mixed(ids: Ids, retry: Ids): Ids { Ids(ids.terminal, retry.callback) }

  /** `first` stopped after its first append and was repeated at time `at`: the repeat appends
      exactly the missing row and answers as the whole call would have, but for that time. */
  predicate Converges(first: Attempt, again: Attempt, whole: Attempt, at: int) {
    && |first.appends| == 2 && |whole.appends| == 2 && whole.appends[0] == first.appends[0]
    && whole.appends[1].HookRow? && whole.reply.Ok? && whole.reply.value.HookReply?
    && var cb, life := whole.appends[1].callback, whole.reply.value.life;
       && whole.reply.value == HookReply(cb, false, life)
       && life.callbacks != [] && Last(life.callbacks) == cb
       && again.appends == [HookRow(At(cb, at))]
       && again.reply == Ok(HookReply(At(cb, at), false, life.(callbacks := Front(life.callbacks) + [At(cb, at)])))
  }

  /** Which event id and time a callback carries makes no difference to whether it is accepted, so
      the missing row of an interrupted call is the same whether it follows the terminal in
      one call or is appended alone by the repeat. */
  lemma MissingRow(s: Life, cb: Callback, id: string, at: int, allowDuplicate: bool, t: Terminal, onError: seq<Row>, first: Attempt)
    requires Lookup(s.callbacks, cb.Key()).None? && Apply(s, cb, allowDuplicate).Ok?
    requires |first.appends| == 2 && first.appends[0] == TerminalRow(t)
    ensures var whole := cb.(eventId := id);
            Converges(first, Record(s, At(whole, at), allowDuplicate, [], []),
                      Record(s, whole, allowDuplicate, [TerminalRow(t)], onError), at)
  {
    hide HookEffect, InputsRejected;
    var whole := cb.(eventId := id);
    var late := At(whole, at);
    assert late.Key() == cb.Key() && whole.Key() == cb.Key();
    SameEffect(s, cb, whole);
    SameEffect(s, cb, late);
    FrontOfAppend(s.callbacks, whole);
    assert [TerminalRow(t)] + [HookRow(whole)] == [TerminalRow(t), HookRow(whole)];
    assert [] + [HookRow(late)] == [HookRow(late)];
  }

  lemma SameEffect(s: Life, cb: Callback, other: Callback)
    requires other == At(cb, other.context.observedAt).(eventId := other.eventId)
    ensures HookEffect(s, other) == HookEffect(s, cb)
    ensures InputsRejected(other.context, other.hook, other.settled) == InputsRejected(cb.context, cb.hook, cb.settled)
    ensures HookEffect(s, cb).Ok? ==> HookEffect(s, cb).value.callbacks == s.callbacks
  {
  }

  /** What closing a turn leaves alone, and what it changes. */
  lemma ClosedFacts(s: Life, t: Terminal)
    requires ApplyTerminal(s, t).Ok?
    ensures var c := ApplyTerminal(s, t).value;
            && c.sessionId == s.sessionId && c.lifecycleId == s.lifecycleId && c.supported == s.supported
            && c.callbacks == s.callbacks && c.gates == s.gates && c.finalized == s.finalized && !c.finalized
            && c.current.None? && s.current == Some(t.turnId)
            && c.turns == s.turns[t.turnId := Some(Abandoned)] && c.turns.Keys == s.turns.Keys
            && c.terminals == s.terminals[t.turnId := t]
  {
  }

  lemma HookRetryConverges(b: Book, c: Context, hook: Hook, settled: bool, ids: Ids, later: Book, at: int, retry: Ids)
    requires BookKept(b) && FreshIds(b, ids)
    requires |AttemptHook(b, c, hook, settled, ids).appends| == 2
    requires LeftAlone(b, AttemptHook(b, c, hook, settled, ids), later)
    ensures FoldRow(b, AttemptHook(b, c, hook, settled, ids).appends[0]).Ok?
    ensures Converges(AttemptHook(b, c, hook, settled, ids), AttemptHook(later, c.(observedAt := at), hook, settled, retry),
                      AttemptHook(b, c, hook, settled, Mixed(ids, retry)), at)
  {
    hide Apply, ApplyTerminal, FoldRow;
    var s := LifeFor(b, c);
    var cb := Callback(c, hook, settled, ids.callback, None);
    assert s.current.Some? && hook.PreLlmCall?;
    var t := Closing(s, s.current.value, SupersededByNewPre, c.turnId, c.observedAt, ids);
    ClosedFacts(s, t);
    var closed := ApplyTerminal(s, t).value;
    ClosingFolds(b, s, t);
    MissingRow(closed, cb, retry.callback, at, true, t, [TerminalRow(t)], AttemptHook(b, c, hook, settled, ids));
    var whole := cb.(eventId := retry.callback);
    hide Record, Converges;
    assert LifeFor(later, c) == closed;
    assert AttemptHook(later, c.(observedAt := at), hook, settled, retry) == Record(closed, At(whole, at), true, [], []);
    assert AttemptHook(b, c, hook, settled, Mixed(ids, retry))
        == Record(closed, whole, true, [TerminalRow(t)], [TerminalRow(t)]);
  }

  /** The situation in which a turn end closes an open turn and also records its hook. */
  predicate EndsOpenTurn(b: Book, c: Context, reason: Reason) {
    && !InputsRejected(c, OnSessionEnd, false) && HostTurn(reason)
    && c.lifecycleId in b.states && c.turnId.Some?
    && var s := b.states[c.lifecycleId];
       && s.current == c.turnId && c.turnId.value in s.turns && s.turns[c.turnId.value].None?
       && c.turnId.value !in s.terminals
       && OnSessionEnd in s.supported
       && FirstEnd(s.callbacks, c.turnId.value).None?
  }

  lemma TurnEndFirst(b: Book, c: Context, reason: Reason, ids: Ids)
    requires BookKept(b)
    ensures |AttemptTurnEnd(b, c, reason, ids).appends| == 2 ==> EndsOpenTurn(b, c, reason)
    ensures EndsOpenTurn(b, c, reason) ==>
              var s := b.states[c.lifecycleId];
              var t := Closing(s, c.turnId.value, reason, None, c.observedAt, ids);
              AttemptTurnEnd(b, c, reason, ids) ==
                match ApplyTerminal(s, t)
                case Err(e) => Refuse(e)
                case Ok(closed) => Record(closed, Callback(c, OnSessionEnd, false, ids.callback, Some(reason)), false, [TerminalRow(t)], [])
  {
    hide Apply, ApplyTerminal, Lookup, SameCallback, FirstEnd, Compatible, InputsRejected, Partitioned, HostTurn;
    if c.lifecycleId in b.states { ConsistentTurns(b, c.lifecycleId); }
  }

  lemma ConsistentTurns(b: Book, l: string)
    requires BookKept(b) && l in b.states
    ensures var s := b.states[l];
            && s.lifecycleId == l
            && forall t :: t in s.turns ==> (s.turns[t].None? <==> s.current == Some(t)) && (t in s.terminals <==> s.turns[t] == Some(Abandoned))
  {
    StateIsKept(b, l);
  }

  lemma TurnEndAgain(b: Book, c: Context, reason: Reason, ids: Ids, s: Life)
    requires !InputsRejected(c, OnSessionEnd, false) && HostTurn(reason)
    requires c.lifecycleId in b.states && b.states[c.lifecycleId] == s && c.turnId.Some?
    requires c.turnId.value in s.turns && s.turns[c.turnId.value] == Some(Abandoned)
    requires c.turnId.value in s.terminals && s.terminals[c.turnId.value].reason == reason
    requires OnSessionEnd in s.supported && FirstEnd(s.callbacks, c.turnId.value).None?
    ensures AttemptTurnEnd(b, c, reason, ids) ==
            Record(s, Callback(c, OnSessionEnd, false, ids.callback, Some(reason)), false, [], [])
  {
    hide Record;
  }

  lemma TurnEndRetryConverges(b: Book, c: Context, reason: Reason, ids: Ids, later: Book, at: int, retry: Ids)
    requires BookKept(b) && FreshIds(b, ids)
    requires |AttemptTurnEnd(b, c, reason, ids).appends| == 2
    requires LeftAlone(b, AttemptTurnEnd(b, c, reason, ids), later)
    ensures FoldRow(b, AttemptTurnEnd(b, c, reason, ids).appends[0]).Ok?
    ensures Converges(AttemptTurnEnd(b, c, reason, ids), AttemptTurnEnd(later, c.(observedAt := at), reason, retry),
                      AttemptTurnEnd(b, c, reason, Mixed(ids, retry)), at)
  {
    hide Apply, ApplyTerminal, FoldRow, AttemptTurnEnd, InputsRejected;
    TurnEndFirst(b, c, reason, ids);
    TurnEndFirst(b, c, reason, Mixed(ids, retry));
    var s, turn := b.states[c.lifecycleId], c.turnId.value;
    var t := Closing(s, turn, reason, None, c.observedAt, ids);
    ClosedFacts(s, t);
    ClosingFolds(b, s, t);
    var closed := ApplyTerminal(s, t).value;
    SameInputs(c, at, OnSessionEnd);
    TurnEndAgain(later, c.(observedAt := at), reason, retry, closed);
    var cb := Callback(c, OnSessionEnd, false, ids.callback, Some(reason));
    NoEndUnderKey(closed, cb, turn);
    MissingRow(closed, cb, retry.callback, at, false, t, [], AttemptTurnEnd(b, c, reason, ids));
  }

  lemma SameInputs(c: Context, at: int, hook: Hook)
    ensures InputsRejected(c.(observedAt := at), hook, false) == InputsRejected(c, hook, false)
  {
  }

  lemma FinalizeRetryConverges(b: Book, c: Context, ids: Ids, later: Book, at: int, retry: Ids)
    requires BookKept(b) && FreshIds(b, ids)
    requires |AttemptFinalize(b, c, ids).appends| == 2
    requires LeftAlone(b, AttemptFinalize(b, c, ids), later)
    ensures FoldRow(b, AttemptFinalize(b, c, ids).appends[0]).Ok?
    ensures Converges(AttemptFinalize(b, c, ids), AttemptFinalize(later, c.(observedAt := at), retry),
                      AttemptFinalize(b, c, Mixed(ids, retry)), at)
  {
    hide Apply, ApplyTerminal, FoldRow, Partitioned, InputsRejected;
    var s := LifeFor(b, c);
    var cb := Callback(c, OnSessionFinalize, false, ids.callback, None);
    var t := Closing(s, s.current.value, HostSessionFinalized, None, c.observedAt, ids);
    ClosedFacts(s, t);
    var closed := ApplyTerminal(s, t).value;
    ClosingFolds(b, s, t);
    SameInputs(c, at, OnSessionFinalize);
    MissingRow(closed, cb, retry.callback, at, true, t, [], AttemptFinalize(b, c, ids));
    var whole := cb.(eventId := retry.callback);
    hide Record, Converges;
    assert LifeFor(later, c) == closed;
    assert AttemptFinalize(later, c.(observedAt := at), retry) == Record(closed, At(whole, at), true, [], []);
    assert AttemptFinalize(b, c, Mixed(ids, retry)) == Record(closed, whole, true, [TerminalRow(t)], []);
  }

  lemma OnlyElement(s: set<string>, x: string)
    requires |s| == 1 && x in s
    ensures s == {x}
  {
    assert |s - {x}| == 0;
    assert s == {x} + (s - {x});
  }

  /** The situation in which a child stop closes the open turn and also records its hook. */
  ghost predicate StopsOpenChild(b: Book, session: string, reason: Reason, l: string) {
    && ChildReason(reason) && Matching(b, session) == {l}
    && var s := b.states[l];
       && s.current.Some? && s.current.value in s.turns && s.turns[s.current.value].None?
       && ChildCallbacks(s.callbacks) == [] && SubagentStop in s.supported
  }

  lemma ChildStopFirst(b: Book, session: string, reason: Reason, at: int, ids: Ids, l: string)
    requires BookKept(b) && StopsOpenChild(b, session, reason, l)
    ensures var s := b.states[l];
            var t := Closing(s, s.current.value, reason, None, at, ids);
            AttemptChildStop(b, session, reason, at, ids) ==
              match ApplyTerminal(s, t)
              case Err(e) => Refuse(e)
              case Ok(closed) => AttemptChildCallback(closed, session, s.current.value, t, true, reason, at, ids)
  {
    hide Apply, ApplyTerminal, AttemptChildCallback;
    assert l in Matching(b, session);
  }

  lemma TwoRowsStopOn(s: Life, session: string, reason: Reason, at: int, ids: Ids)
    requires Partitioned(s) && |AttemptChildStopOn(s, session, reason, at, ids).appends| == 2
    ensures ChildCallbacks(s.callbacks) == [] && SubagentStop in s.supported
    ensures s.current.Some? && s.current.value in s.turns && s.turns[s.current.value].None?
  {
    hide Apply, ApplyTerminal, Compatible, ChildReason;
    if s.current.Some? && ApplyTerminal(s, Closing(s, s.current.value, reason, None, at, ids)).Ok? {
      ClosedFacts(s, Closing(s, s.current.value, reason, None, at, ids));
    }
  }

  lemma TwoRowsStopAnOpenChild(b: Book, session: string, reason: Reason, at: int, ids: Ids) returns (l: string)
    requires BookKept(b) && |AttemptChildStop(b, session, reason, at, ids).appends| == 2
    ensures StopsOpenChild(b, session, reason, l)
  {
    hide AttemptChildStopOn;
    l :| l in Matching(b, session);
    OnlyElement(Matching(b, session), l);
    assert AttemptChildStop(b, session, reason, at, ids) == AttemptChildStopOn(b.states[l], session, reason, at, ids);
    TwoRowsStopOn(b.states[l], session, reason, at, ids);
  }

  lemma ChildStopAgain(b: Book, s: Life, session: string, turn: string, reason: Reason, at: int, ids: Ids)
    requires ChildReason(reason) && Matching(b, session) == {s.lifecycleId}
    requires b.states[s.lifecycleId] == s && ChildCallbacks(s.callbacks) == []
    requires s.current.None? && turn in s.turns && s.turns[turn] == Some(Abandoned)
    requires turn in s.terminals && s.terminals[turn].reason == reason
    ensures AttemptChildStop(b, session, reason, at, ids) ==
            if |s.turns| == 1 then AttemptChildCallback(s, session, turn, s.terminals[turn], false, reason, at, ids)
            else Refuse(AmbiguousChild)
  {
    hide Apply, AttemptChildCallback;
    assert s.lifecycleId in Matching(b, session);
    assert AttemptChildStop(b, session, reason, at, ids) == AttemptChildStopOn(s, session, reason, at, ids);
    if |s.turns| == 1 {
      assert |s.turns.Keys| == 1;
      OnlyElement(s.turns.Keys, turn);
      assert OnlyTurn(s) == turn;
    }
  }

  /** One lifecycle carries the session, or several do. */
  lemma NotAlone(b: Book, session: string, l: string)
    requires l in b.states && b.states[l].sessionId == session && Matching(b, session) != {l}
    ensures |Matching(b, session)| > 1
  {
    assert l in Matching(b, session);
    if |Matching(b, session)| == 1 { OnlyElement(Matching(b, session), l); }
  }

  lemma ChildStopRetry(b: Book, session: string, reason: Reason, observedAt: int, ids: Ids, later: Book, at: int, retry: Ids)
    requires BookKept(b) && FreshIds(b, ids)
    requires |AttemptChildStop(b, session, reason, observedAt, ids).appends| == 2
    requires LeftAlone(b, AttemptChildStop(b, session, reason, observedAt, ids), later)
    ensures FoldRow(b, AttemptChildStop(b, session, reason, observedAt, ids).appends[0]).Ok?
    ensures AttemptChildStop(b, session, reason, observedAt, ids).appends[0].Lifecycle() in b.states
    ensures var first := AttemptChildStop(b, session, reason, observedAt, ids);
            var again := AttemptChildStop(later, session, reason, at, retry);
            var l := first.appends[0].Lifecycle();
            if |b.states[l].turns| == 1 && Matching(later, session) == {l}
            then Converges(first, again, AttemptChildStop(b, session, reason, observedAt, Mixed(ids, retry)), at)
            else again == Refuse(AmbiguousChild)
  {
    hide Apply, ApplyTerminal, FoldRow, AttemptChildStop, Converges;
    var l := TwoRowsStopAnOpenChild(b, session, reason, observedAt, ids);
    ChildStopFirst(b, session, reason, observedAt, ids, l);
    ChildStopFirst(b, session, reason, observedAt, Mixed(ids, retry), l);
    assert l in Matching(b, session);
    var s := b.states[l];
    var turn := s.current.value;
    var t := Closing(s, turn, reason, None, observedAt, ids);
    ClosedFacts(s, t);
    ClosingFolds(b, s, t);
    var closed := ApplyTerminal(s, t).value;
    assert later.states[l] == closed;
    if Matching(later, session) == {l} {
      ChildStopAgain(later, closed, session, turn, reason, at, retry);
    } else {
      NotAlone(later, session, l);
      SeveralChildren(later, session, reason, at, retry);
    }
    assert |closed.turns| == |closed.turns.Keys| == |s.turns.Keys| == |s.turns|;
    NoChildInList(closed.callbacks, (SubagentStop, session, Some(turn)));
    var context: Context := ChildContext(closed, session, turn, observedAt);
    MissingRow(closed, Callback(context, SubagentStop, false, ids.callback, Some(reason)), retry.callback, at, false, t, [],
               AttemptChildStop(b, session, reason, observedAt, ids));
  }

  lemma SeveralChildren(b: Book, session: string, reason: Reason, at: int, ids: Ids)
    requires ChildReason(reason) && |Matching(b, session)| > 1
    ensures AttemptChildStop(b, session, reason, at, ids) == Refuse(AmbiguousChild)
  {
  }

  lemma OneRowCalls(b: Book, call: Call, ids: Ids)
    requires call.AbandonCall? || call.ShutdownCall?
    ensures |AttemptOf(b, call, ids).appends| <= 1
  {
    hide ApplyTerminal;
  }

  /** What a child stop needs to find when it is repeated: its lifecycle has the one turn it closed,
      and no other lifecycle has come to carry the child's session. */
  ghost predicate Resolvable(b: Book, call: Call, first: Attempt, later: Book)
    requires |first.appends| == 2
  {
    call.ChildStopCall? ==>
      var l := first.appends[0].Lifecycle();
      l in b.states && |b.states[l].turns| == 1 && Matching(later, call.session) == {l}
  }

  /** Crash-retry convergence for every call that appends two rows, repeated at any time and
      whatever happened to other lifecycles since. For a child stop it holds exactly when the
      stop can still be resolved to its turn; otherwise the repeat is refused. */
  lemma RetryConverges(b: Book, call: Call, ids: Ids, later: Book, at: int, retry: Ids)
    requires BookKept(b) && FreshIds(b, ids)
    requires |AttemptOf(b, call, ids).appends| == 2
    requires LeftAlone(b, AttemptOf(b, call, ids), later)
    ensures FoldRow(b, AttemptOf(b, call, ids).appends[0]).Ok?
    ensures var first := AttemptOf(b, call, ids);
            var again := AttemptOf(later, Retimed(call, at), retry);
            && (Converges(first, again, AttemptOf(b, call, Mixed(ids, retry)), at) <==> Resolvable(b, call, first, later))
            && (!Resolvable(b, call, first, later) ==> again == Refuse(AmbiguousChild))
  {
    hide AttemptHook, AttemptTurnEnd, AttemptChildStop, AttemptFinalize, AttemptAbandon, AttemptShutdown, FoldRow, LeftAlone;
    match call
    case HookCall(c, hook, settled) => HookRetryConverges(b, c, hook, settled, ids, later, at, retry);
    case TurnEndCall(c, reason) => TurnEndRetryConverges(b, c, reason, ids, later, at, retry);
    case ChildStopCall(session, reason, observedAt) => ChildStopRetry(b, session, reason, observedAt, ids, later, at, retry);
    case FinalizeCall(c) => FinalizeRetryConverges(b, c, ids, later, at, retry);
    case AbandonCall(_, _, _) => OneRowCalls(b, call, ids);
    case ShutdownCall(_) => OneRowCalls(b, call, ids);
  }

  /** What the replay makes of a run's ledger; it never fails (RunsStayReadable). */
  ghost function BookAfter(events: seq<Event>): Book {
    match Replay(Run(events)) case Ok(b) => b case Err(_) => Book(map[], {})
  }

  /** What the k-th event of a run attempts. */
  ghost function AttemptAt(events: seq<Event>, k: nat): Attempt
    requires k < |events|
  {
    AttemptOf(BookAfter(events[..k]), events[k].call, events[k].ids)
  }

  /** Over whole runs: a call stopped between its two appends, and repeated after any other events,
      crashed ones included, that gave its lifecycle no row. */
  lemma RunsConverge(events: seq<Event>, k: nat, at: int, retry: Ids)
    requires FreshRun(events) && k < |events| && events[k].written == 1 && |AttemptAt(events, k).appends| == 2
    requires var l := AttemptAt(events, k).appends[0].Lifecycle(); Mine(Run(events), l) == Mine(Run(events[..k + 1]), l)
    ensures var b, later, call := BookAfter(events[..k]), BookAfter(events), events[k].call;
            var first, again := AttemptAt(events, k), AttemptOf(later, Retimed(call, at), retry);
            && (Converges(first, again, AttemptOf(b, call, Mixed(events[k].ids, retry)), at) <==> Resolvable(b, call, first, later))
            && (!Resolvable(b, call, first, later) ==> again == Refuse(AmbiguousChild))
  {
    hide AttemptOf, FreshRun, DrawnIds, Mine, BookKept, Converges, Resolvable, FoldRow, Retimed, Mixed;
    var rows, stopped, e, b, first := Run(events[..k]), Run(events[..k + 1]), events[k], BookAfter(events[..k]), AttemptAt(events, k);
    NewIds(events, k);
    RunsStayReadable(events[..k]);
    RunsStayReadable(events);
    assert FreshIds(b, e.ids);
    assert Front(events[..k + 1]) == events[..k] && Last(events[..k + 1]) == e;
    assert stopped == rows + first.appends[..1] && first.appends[..1] == [first.appends[0]];
    FrontOfAppend(rows, first.appends[0]);
    CallStaysReadable(rows, e);
    ReplayIsLocal(stopped, first.appends[0].Lifecycle());
    ReplayIsLocal(Run(events), first.appends[0].Lifecycle());
    RetryConverges(b, e.call, e.ids, BookAfter(events), at, retry);
  }

  lemma AppendCallback(rows: seq<Row>, b: Book, s: Life, cb: Callback)
    requires Replay(rows) == Ok(b) && cb.eventId !in b.events && Lookup(s.callbacks, cb.Key()).None?
    requires if cb.context.lifecycleId in b.states then b.states[cb.context.lifecycleId] == s else s == NewLife(cb.context)
    requires cb.terminalReason.None? && Apply(s, cb, false).Ok?
    ensures Replay(rows + [HookRow(cb)]) ==
            Ok(Book(b.states[s.lifecycleId := Apply(s, cb, false).value.1], b.events + {cb.eventId}))
  {
    hide Apply;
    AppliedCallbackIsValidRow(s, cb, false);
    CallbackFolds(b, s, cb, false);
    FrontOfAppend(rows, HookRow(cb));
  }

  const CHILD_HOOKS := {PreLlmCall, PostLlmCall, SubagentStop}

  function ChildTurn(turn: string, kind: SourceKind): Context {
    Context("s", "l", "o", Some(turn), kind, 0, false, CHILD_HOOKS)
  }

  /** The ledger of one lifecycle, one more callback later. */
  lemma OneMoreCallback(rows: seq<Row>, states: map<string, Life>, events: set<string>, s: Life, cb: Callback, after: Life)
    requires Replay(rows) == Ok(Book(states, events)) && cb.eventId !in events && Lookup(s.callbacks, cb.Key()).None?
    requires states == if s == NewLife(cb.context) then map[] else map["l" := s]
    requires cb.context.lifecycleId == s.lifecycleId == "l" && cb.terminalReason.None? && Apply(s, cb, false) == Ok((false, after))
    ensures Replay(rows + [HookRow(cb)]) == Ok(Book(map["l" := after], events + {cb.eventId}))
  {
    hide Replay, Apply, Lookup;
    AppendCallback(rows, Book(states, events), s, cb);
    assert states["l" := after] == map["l" := after];
  }

  /** A reachable child lifecycle with one settled turn and one open turn. */
  lemma TwoTurnChild() returns (rows: seq<Row>, s: Life)
    ensures Replay(rows) == Ok(Book(map["l" := s], {"1", "2", "3"}))
    ensures s.sessionId == "s" && s.lifecycleId == "l" && s.supported == CHILD_HOOKS
    ensures s.turns == map["a" := Some(Completed), "b" := None] && s.current == Some("b") && !s.finalized
    ensures ChildCallbacks(s.callbacks) == [] && s.terminals == map[]
  {
    var c1 := Callback(ChildTurn("a", Tool), PreLlmCall, false, "1", None);
    var c2 := Callback(ChildTurn("a", AssistantResponse), PostLlmCall, true, "2", None);
    var c3 := Callback(ChildTurn("b", Tool), PreLlmCall, false, "3", None);
    hide Replay, Apply, Lookup, ChildCallbacks, NewLife;
    EmptyBook();
    var s1, s2;
    s1, s2, s := OpenSettleOpen(c1, c2, c3);
    OneMoreCallback([], map[], {}, NewLife(c1.context), c1, s1);
    OneMoreCallback([] + [HookRow(c1)], map["l" := s1], {} + {"1"}, s1, c2, s2);
    OneMoreCallback([] + [HookRow(c1)] + [HookRow(c2)], map["l" := s2], {} + {"1"} + {"2"}, s2, c3, s);
    rows := [] + [HookRow(c1)] + [HookRow(c2)] + [HookRow(c3)];
    assert {} + {"1"} + {"2"} + {"3"} == {"1", "2", "3"};
  }

  lemma EmptyBook()
    ensures Replay([]) == Ok(Book(map[], {}))
  {
  }

  lemma OpenTurn(c1: Callback) returns (s1: Life)
    requires c1 == Callback(ChildTurn("a", Tool), PreLlmCall, false, "1", None)
    ensures Apply(NewLife(c1.context), c1, false) == Ok((false, s1))
    ensures s1 == NewLife(c1.context).(callbacks := [c1], hooks := [PreLlmCall], turns := map["a" := None], current := Some("a"))
  {
    hide Compatible, ChildReason;
    s1 := Apply(NewLife(c1.context), c1, false).value.1;
  }

  lemma OpenSettle(c1: Callback, c2: Callback) returns (s1: Life, s2: Life)
    requires c1 == Callback(ChildTurn("a", Tool), PreLlmCall, false, "1", None)
    requires c2 == Callback(ChildTurn("a", AssistantResponse), PostLlmCall, true, "2", None)
    ensures Apply(NewLife(c1.context), c1, false) == Ok((false, s1))
    ensures Lookup(s1.callbacks, c2.Key()).None? && s1.lifecycleId == "l" && s1.callbacks == [c1]
    ensures Apply(s1, c2, false) == Ok((false, s2))
    ensures s2.callbacks == [c1, c2] && s2.turns == map["a" := Some(Completed)]
    ensures s2 == NewLife(c1.context).(callbacks := s2.callbacks, hooks := s2.hooks, turns := s2.turns,
                                       terminalTurnIds := s2.terminalTurnIds, settledTurnIds := s2.settledTurnIds)
  {
    hide Apply, Lookup;
    s1 := OpenTurn(c1);
    s2 := SettleTurn(s1, c1, c2);
  }

  lemma SettleTurn(s1: Life, c1: Callback, c2: Callback) returns (s2: Life)
    requires c1.hook.PreLlmCall? && c1.context == ChildTurn("a", Tool)
    requires s1 == NewLife(c1.context).(callbacks := [c1], hooks := [PreLlmCall], turns := map["a" := None], current := Some("a"))
    requires c2 == Callback(ChildTurn("a", AssistantResponse), PostLlmCall, true, "2", None)
    ensures Lookup(s1.callbacks, c2.Key()).None? && Apply(s1, c2, false) == Ok((false, s2))
    ensures s2.callbacks == [c1, c2] && s2.turns == map["a" := Some(Completed)]
    ensures s2 == NewLife(c1.context).(callbacks := s2.callbacks, hooks := s2.hooks, turns := s2.turns,
                                       terminalTurnIds := s2.terminalTurnIds, settledTurnIds := s2.settledTurnIds)
  {
    hide Compatible, ChildReason;
    assert s1.callbacks == [c1] && [c1][1..] == [];
    assert Lookup(s1.callbacks, c2.Key()).None?;
    s2 := Apply(s1, c2, false).value.1;
  }

  lemma OpenSettleOpen(c1: Callback, c2: Callback, c3: Callback) returns (s1: Life, s2: Life, s: Life)
    requires c1 == Callback(ChildTurn("a", Tool), PreLlmCall, false, "1", None)
    requires c2 == Callback(ChildTurn("a", AssistantResponse), PostLlmCall, true, "2", None)
    requires c3 == Callback(ChildTurn("b", Tool), PreLlmCall, false, "3", None)
    ensures Lookup(NewLife(c1.context).callbacks, c1.Key()).None? && NewLife(c1.context).lifecycleId == "l"
    ensures Lookup(s1.callbacks, c2.Key()).None? && s1.lifecycleId == "l" && s1 != NewLife(c2.context)
    ensures Lookup(s2.callbacks, c3.Key()).None? && s2.lifecycleId == "l" && s2 != NewLife(c3.context)
    ensures Apply(NewLife(c1.context), c1, false) == Ok((false, s1))
    ensures Apply(s1, c2, false) == Ok((false, s2)) && Apply(s2, c3, false) == Ok((false, s))
    ensures s.sessionId == "s" && s.lifecycleId == "l" && s.supported == CHILD_HOOKS
    ensures s.turns == map["a" := Some(Completed), "b" := None] && s.current == Some("b") && !s.finalized
    ensures ChildCallbacks(s.callbacks) == [] && s.terminals == map[]
  {
    hide ChildCallbacks, Apply;
    s1, s2 := OpenSettle(c1, c2);
    s := OpenAgain(s2, c1, c2, c3);
    assert s1.callbacks == [c1];
  }

  lemma OpenAgain(s2: Life, c1: Callback, c2: Callback, c3: Callback) returns (s: Life)
    requires c1.hook.PreLlmCall? && c2.hook.PostLlmCall? && c1.context.turnId == Some("a")
    requires c3 == Callback(ChildTurn("b", Tool), PreLlmCall, false, "3", None)
    requires s2.callbacks == [c1, c2] && s2.turns == map["a" := Some(Completed)]
    requires s2 == NewLife(c3.context).(callbacks := s2.callbacks, hooks := s2.hooks, turns := s2.turns,
                                        terminalTurnIds := s2.terminalTurnIds, settledTurnIds := s2.settledTurnIds)
    ensures Lookup(s2.callbacks, c3.Key()).None? && Apply(s2, c3, false) == Ok((false, s))
    ensures s.sessionId == "s" && s.lifecycleId == "l" && s.supported == CHILD_HOOKS
    ensures s.turns == map["a" := Some(Completed), "b" := None] && s.current == Some("b") && !s.finalized
    ensures ChildCallbacks(s.callbacks) == [] && s.terminals == map[]
  {
    assert [c1, c2][1..] == [c2] && [c2][1..] == [];
    assert Lookup([c2], c3.Key()).None?;
    s := Apply(s2, c3, false).value.1;
    assert s.callbacks == [c1, c2, c3];
    assert [c2, c3][1..] == [c3] && [c3][1..] == [];
    assert ChildCallbacks([c3]) == [] && ChildCallbacks([c2, c3]) == [];
    assert [c1, c2, c3][1..] == [c2, c3];
  }

  /** The refused repeat happens: the host stops that child, the process dies between the two
      appends, and the repeat of the very same stop is refused. */
  lemma InterruptedChildStopIsRefused() returns (rows: seq<Row>)
    ensures Replay(rows).Ok?
    ensures var b := Replay(rows).value;
            var first := AttemptChildStop(b, "s", HostTurnFailed, 0, Ids("4", "5"));
            && FreshIds(b, Ids("4", "5"))
            && |first.appends| == 2 && first.reply.Ok?
            && FoldRow(b, first.appends[0]).Ok?
            && AttemptChildStop(Interrupted(b, first), "s", HostTurnFailed, 0, Ids("6", "7")) == Refuse(AmbiguousChild)
  {
    hide Apply, ApplyTerminal, FoldRow, Replay, AttemptChildStop;
    var s: Life;
    rows, s := TwoTurnChild();
    var b := Replay(rows).value;
    var ids := Ids("4", "5");
    ReplayPartitions(rows);
    assert Matching(b, "s") == {"l"};
    ChildStopFirst(b, "s", HostTurnFailed, 0, ids, "l");
    var t := Closing(s, "b", HostTurnFailed, None, 0, ids);
    ChildStopAccepted(s, t, "5");
    var first := AttemptChildStop(b, "s", HostTurnFailed, 0, ids);
    ChildStopRetry(b, "s", HostTurnFailed, 0, ids, Interrupted(b, first), 0, Ids("6", "7"));
    assert |s.turns.Keys| == |{"a", "b"}| == 2;
  }

  lemma ChildStopAccepted(s: Life, t: Terminal, id: string)
    requires s.turns == map["a" := Some(Completed), "b" := None] && s.current == Some("b") && !s.finalized
    requires SubagentStop in s.supported && s.terminals == map[] && ChildCallbacks(s.callbacks) == []
    requires t == Terminal("4", s.sessionId, s.lifecycleId, "b", HostTurnFailed, None, 0)
    ensures ApplyTerminal(s, t).Ok?
    ensures AttemptChildCallback(ApplyTerminal(s, t).value, "s", "b", t, true, HostTurnFailed, 0, Ids("4", id)).reply.Ok?
    ensures |AttemptChildCallback(ApplyTerminal(s, t).value, "s", "b", t, true, HostTurnFailed, 0, Ids("4", id)).appends| == 2
  {
    NoChildInList(s.callbacks, (SubagentStop, "s", Some("b")));
  }
}
