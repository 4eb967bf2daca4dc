/** The six session mutators: which rows a call appends, in which order, and what it
    answers (session.py:932-1397). */
module SessionAttempts {
  import opened Basics
  import opened SessionModel

  datatype Reply =
    | NoReply
    | HookReply(callback: Callback, deduplicated: bool, life: Life)
    | TerminalReply(terminal: Terminal, deduplicated: bool, life: Life)

  /** The rows a call appends, one durable append each, and its answer. */
  datatype Attempt = Attempt(appends: seq<Row>, reply: Result<Reply, SessionError>)

  function Refuse(e: SessionError): Attempt { Attempt([], Err(e)) }

  function Answer(r: Reply): Attempt { Attempt([], Ok(r)) }

  datatype Call =
    | HookCall(context: Context, hook: Hook, settled: bool)
    | AbandonCall(lifecycle: string, turn: string, observedAt: int)
    | TurnEndCall(context: Context, reason: Reason)
    | ChildStopCall(session: string, reason: Reason, observedAt: int)
    | ShutdownCall(context: Context)
    | FinalizeCall(context: Context)

  /** The event ids a call draws: one for a terminal, one for a callback. */
  datatype Ids = Ids(terminal: string, callback: string)

  function Closing(s: Life, turn: string, reason: Reason, successor: Option<string>, at: int, ids: Ids): Terminal {
    Terminal(ids.terminal, s.sessionId, s.lifecycleId, turn, reason, successor, at)
  }

  function NewPreError(s: Life, cb: Callback): Option<SessionError> {
    if s.finalized then Some(AlreadyFinalized)
    else if cb.hook !in cb.context.supported then Some(UnsupportedHook)
    else if cb.context.turnId.None? then Some(TurnIdMissing)
    else if (PreGatewayDispatch in cb.context.supported && PreGatewayDispatch !in s.gates)
            || (OnSessionStart in cb.context.supported && OnSessionStart !in s.gates) then Some(GateMissing)
    else if cb.context.turnId.value in s.turns then Some(TurnReused)
    else None
  }

  function LifeFor(b: Book, c: Context): Life {
    if c.lifecycleId in b.states then b.states[c.lifecycleId] else NewLife(c)
  }

  /** Apply a callback and append it after `already` rows. */
  function Record(s: Life, cb: Callback, allowDuplicate: bool, already: seq<Row>, onError: seq<Row>): Attempt {
    match Apply(s, cb, allowDuplicate)
    case Err(e) => Attempt(onError, Err(e))
    case Ok((_, after)) => Attempt(already + [HookRow(cb)], Ok(HookReply(cb, false, after)))
  }

  /** record_hook. The superseding terminal is appended before the callback is applied. */
  function AttemptHook(b: Book, c: Context, hook: Hook, settled: bool, ids: Ids): Attempt {
    if InputsRejected(c, hook, settled) then Refuse(BadInputs)
    else
      var cb := Callback(c, hook, settled, ids.callback, None);
      var s := LifeFor(b, c);
      var existing := Lookup(s.callbacks, cb.Key());
      if existing.Some? then
        match Apply(s, cb, true)
        case Err(e) => Refuse(e)
        case Ok(_) => Answer(HookReply(existing.value, true, s))
      else if hook.PreLlmCall? && !SameLifecycle(s, c) then Refuse(IdentityChanged)
      else if hook.PreLlmCall? && NewPreError(s, cb).Some? then Refuse(NewPreError(s, cb).value)
      else if hook.PreLlmCall? && s.current.Some? then
        var terminal := Closing(s, s.current.value, SupersededByNewPre, c.turnId, c.observedAt, ids);
        match ApplyTerminal(s, terminal)
        case Err(e) => Refuse(e)
        case Ok(closed) => Record(closed, cb, true, [TerminalRow(terminal)], [TerminalRow(terminal)])
      else Record(s, cb, true, [], [])
  }

  /** abandon_open_turn. */
  function AttemptAbandon(b: Book, lifecycle: string, turn: string, at: int, ids: Ids): Attempt {
    if lifecycle !in b.states then Refuse(UnknownLifecycle)
    else
      var s := b.states[lifecycle];
      if turn in s.terminals then Answer(TerminalReply(s.terminals[turn], true, s))
      else if turn !in s.turns then Refuse(TurnUnknown)
      else if s.turns[turn].Some? then Refuse(TurnTerminal)
      else if s.current != Some(turn) then Refuse(NotCurrentTurn)
      else Close(s, turn, OperatorRepair, at, ids)
  }

  /** Append one terminal and answer with it. */
  function Close(s: Life, turn: string, reason: Reason, at: int, ids: Ids): Attempt {
    var terminal := Closing(s, turn, reason, None, at, ids);
    match ApplyTerminal(s, terminal)
    case Err(e) => Refuse(e)
    case Ok(closed) => Attempt([TerminalRow(terminal)], Ok(TerminalReply(terminal, false, closed)))
  }

  /** The first recorded session end of a turn, in dictionary order. */
  function FirstEnd(callbacks: seq<Callback>, turn: string): Option<Callback> {
    if callbacks == [] then None
    else if callbacks[0].hook.OnSessionEnd? && callbacks[0].context.turnId == Some(turn) then Some(callbacks[0])
    else FirstEnd(callbacks[1..], turn)
  }

  /** record_host_turn_end. */
  function AttemptTurnEnd(b: Book, c: Context, reason: Reason, ids: Ids): Attempt {
    if InputsRejected(c, OnSessionEnd, false) then Refuse(BadInputs)
    else if !HostTurn(reason) then Refuse(BadInputs)
    else if c.lifecycleId !in b.states then Answer(NoReply)
    else if c.turnId.None? then Refuse(TurnIdMissing)
    else if c.turnId.value !in b.states[c.lifecycleId].turns then Refuse(TurnUnknown)
    else
      var s, turn := b.states[c.lifecycleId], c.turnId.value;
      var cb := Callback(c, OnSessionEnd, false, ids.callback, Some(reason));
      var records := OnSessionEnd in s.supported;
      var existing := FirstEnd(s.callbacks, turn);
      if existing.Some? then
        if SameCallback(existing.value, cb) then Answer(HookReply(existing.value, true, s)) else Refuse(ReasonConflict)
      else if turn in s.terminals && !Compatible(s.terminals[turn].reason, reason) then Refuse(ReasonConflict)
      else if turn in s.terminals && !records then Answer(TerminalReply(s.terminals[turn], true, s))
      else if s.turns[turn] == Some(Completed) && reason.HostTurnInterrupted? then Refuse(ReasonConflict)
      else if s.turns[turn].None? && s.current != Some(turn) then Refuse(NotCurrentTurn)
      else if s.turns[turn].None? then
        var terminal := Closing(s, turn, reason, None, c.observedAt, ids);
        match ApplyTerminal(s, terminal)
        case Err(e) => Refuse(e)
        case Ok(closed) =>
          if records then Record(closed, cb, false, [TerminalRow(terminal)], [])
          else Attempt([TerminalRow(terminal)], Ok(TerminalReply(terminal, false, closed)))
      else if !records then Answer(NoReply)
      else Record(s, cb, false, [], [])
  }

  ghost function Matching(b: Book, session: string): set<string> {
    set l | l in b.states && b.states[l].sessionId == session
  }

  function ChildCallbacks(callbacks: seq<Callback>): seq<Callback> {
    if callbacks == [] then []
    else (if callbacks[0].hook.SubagentStop? then [callbacks[0]] else []) + ChildCallbacks(callbacks[1..])
  }

  /** record_host_child_stop, once the child session is resolved to one lifecycle. */
  ghost function AttemptChildStopOn(s: Life, session: string, reason: Reason, at: int, ids: Ids): Attempt {
    var children := ChildCallbacks(s.callbacks);
    if |children| > 1 then Refuse(AmbiguousChild)
    else if |children| == 1 then
      var cb := children[0];
      if cb.terminalReason != Some(reason) then Refuse(ReasonConflict)
      else if cb.context.turnId.None? then Refuse(TurnIdMissing)
      else
        var turn := cb.context.turnId.value;
        if turn in s.terminals && turn in s.turns && s.turns[turn] == Some(Abandoned)
           && Compatible(s.terminals[turn].reason, reason)
        then Answer(HookReply(cb, true, s))
        else Refuse(ReasonConflict)
    else if s.current.None? && |s.turns| != 1 then Refuse(AmbiguousChild)
    else
      var turn := if s.current.Some? then s.current.value else OnlyTurn(s);
      if turn !in s.turns then Refuse(TurnUnknown)
      else if s.turns[turn] == Some(Completed) then Refuse(ReasonConflict)
      else if s.turns[turn].None? then
        if s.current != Some(turn) then Refuse(NotCurrentTurn)
        else
          var terminal := Closing(s, turn, reason, None, at, ids);
          match ApplyTerminal(s, terminal)
          case Err(e) => Refuse(e)
          case Ok(closed) => AttemptChildCallback(closed, session, turn, terminal, true, reason, at, ids)
      else if turn !in s.terminals || !Compatible(s.terminals[turn].reason, reason) then Refuse(ReasonConflict)
      else AttemptChildCallback(s, session, turn, s.terminals[turn], false, reason, at, ids)
  }

  ghost function OnlyTurn(s: Life): string
    requires |s.turns| == 1
    ensures OnlyTurn(s) in s.turns
  {
    var t :| t in s.turns.Keys;
    t
  }

  function ChildContext(s: Life, session: string, turn: string, at: int): RawContext {
    Context(s.sessionId, s.lifecycleId, session, Some(turn), System, at, false, s.supported)
  }

  function AttemptChildCallback(s: Life, session: string, turn: string, terminal: Terminal, created: bool,
                                reason: Reason, at: int, ids: Ids): Attempt {
    var first := if created then [TerminalRow(terminal)] else [];
    if s.finalized then Answer(TerminalReply(terminal, true, s))
    else if SubagentStop !in s.supported then Attempt(first, Ok(TerminalReply(terminal, !created, s)))
    else
      var context: Context := ChildContext(s, session, turn, at);
      Record(s, Callback(context, SubagentStop, false, ids.callback, Some(reason)), false, first, [])
  }

  ghost function AttemptChildStop(b: Book, session: string, reason: Reason, at: int, ids: Ids): Attempt {
    if !ChildReason(reason) then Refuse(BadInputs)
    else if |Matching(b, session)| > 1 then Refuse(AmbiguousChild)
    else if Matching(b, session) == {} then Answer(NoReply)
    else
      var l :| l in Matching(b, session);
      AttemptChildStopOn(b.states[l], session, reason, at, ids)
  }

  /** record_host_shutdown. */
  function AttemptShutdown(b: Book, c: Context, ids: Ids): Attempt {
    if InputsRejected(c, OnSessionFinalize, false) then Refuse(BadInputs)
    else if c.lifecycleId !in b.states || b.states[c.lifecycleId].current.None? then Answer(NoReply)
    else Close(b.states[c.lifecycleId], b.states[c.lifecycleId].current.value, HostShutdown, c.observedAt, ids)
  }

  /** record_host_finalize. Both changes are applied before either row is appended. */
  function AttemptFinalize(b: Book, c: Context, ids: Ids): Attempt {
    if InputsRejected(c, OnSessionFinalize, false) then Refuse(BadInputs)
    else
      var cb := Callback(c, OnSessionFinalize, false, ids.callback, None);
      var s := LifeFor(b, c);
      var existing := Lookup(s.callbacks, cb.Key());
      if existing.Some? then
        match Apply(s, cb, true)
        case Err(e) => Refuse(e)
        case Ok(_) => Answer(HookReply(existing.value, true, s))
      else if s.current.Some? then
        var terminal := Closing(s, s.current.value, HostSessionFinalized, None, c.observedAt, ids);
        match ApplyTerminal(s, terminal)
        case Err(e) => Refuse(e)
        case Ok(closed) => Record(closed, cb, true, [TerminalRow(terminal)], [])
      else Record(s, cb, true, [], [])
  }

  ghost function AttemptOf(b: Book, call: Call, ids: Ids): Attempt {
    match call
    case HookCall(c, hook, settled) => AttemptHook(b, c, hook, settled, ids)
    case AbandonCall(l, turn, at) => AttemptAbandon(b, l, turn, at, ids)
    case TurnEndCall(c, reason) => AttemptTurnEnd(b, c, reason, ids)
    case ChildStopCall(session, reason, at) => AttemptChildStop(b, session, reason, at, ids)
    case ShutdownCall(c) => AttemptShutdown(b, c, ids)
    case FinalizeCall(c) => AttemptFinalize(b, c, ids)
  }
}
