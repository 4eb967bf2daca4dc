/** Session lifecycles: the two kinds of ledger row, the state one lifecycle is in, and the
    transitions both the writers and the replay go through (moonbite_plugin/session.py). */
module SessionModel {
  import opened Basics

  datatype Hook =
    PreGatewayDispatch | OnSessionStart | PreLlmCall | PostLlmCall | OnSessionEnd | OnSessionFinalize | SubagentStop

  datatype SourceKind = PrivateInbound | Cron | Workroom | System | Tool | AssistantResponse | SessionStart

  datatype Reason =
    | SupersededByNewPre | OperatorRepair | HostSessionFinalized | HostShutdown
    | HostTurnCompleted | HostTurnCompletedWithoutPost | HostTurnFailed | HostTurnIncomplete | HostTurnInterrupted

  predicate HostTurn(r: Reason) {
    r in {HostTurnCompleted, HostTurnCompletedWithoutPost, HostTurnFailed, HostTurnIncomplete, HostTurnInterrupted}
  }

  predicate ChildReason(r: Reason) { r in {HostTurnFailed, HostTurnInterrupted} }

  predicate Compatible(left: Reason, right: Reason) {
    left == right || {left, right} == {HostTurnFailed, HostTurnIncomplete}
  }

  datatype RawContext = Context(
    sessionId: string, lifecycleId: string, sourceId: string, turnId: Option<string>,
    sourceKind: SourceKind, observedAt: int, isFresh: bool, supported: set<Hook>)

  type Context = c: RawContext | c.supported != {} witness Context("s", "l", "o", None, System, 0, false, {OnSessionEnd})

  type Key = (Hook, string, Option<string>)

  datatype Callback = Callback(
    context: Context, hook: Hook, settled: bool, eventId: string, terminalReason: Option<Reason>)
  {
    function Key(): Key { (hook, context.sourceId, context.turnId) }
  }

  /** Terminal evidence of one turn; its outcome is always "abandoned". */
  datatype Terminal = Terminal(
    eventId: string, sessionId: string, lifecycleId: string, turnId: string,
    reason: Reason, successor: Option<string>, observedAt: int)

  datatype Row = HookRow(callback: Callback) | TerminalRow(terminal: Terminal)
  {
    function Lifecycle(): string {
      match this
      case HookRow(c) => c.context.lifecycleId
      case TerminalRow(t) => t.lifecycleId
    }

    function Event(): string {
      match this
      case HookRow(c) => c.eventId
      case TerminalRow(t) => t.eventId
    }
  }

  datatype Outcome = Completed | Abandoned

  /** The state of one lifecycle. callbacks is the insertion-ordered dictionary of accepted
      callbacks; a key is never overwritten, so the list order is the dictionary order. */
  datatype Life = Life(
    sessionId: string, lifecycleId: string, supported: set<Hook>,
    callbacks: seq<Callback>, hooks: seq<Hook>, gates: set<Hook>,
    turns: map<string, Option<Outcome>>, terminals: map<string, Terminal>,
    terminalTurnIds: seq<string>, abandonedTurnIds: seq<string>, settledTurnIds: seq<string>,
    current: Option<string>, finalized: bool,
    privateSources: set<string>, privateContactCount: nat)

  datatype SessionError =
    | BadInputs | InvalidRow | DuplicateEvent | UnknownLifecycle
    | IdentityChanged | CallbackConflict | AlreadyFinalized | UnsupportedHook
    | GateRepeated | GateMissing | TurnIdMissing | TurnOpen | TurnReused | TurnUnknown
    | TurnTerminal | NotCurrentTurn | NoTerminalEvidence | ReasonConflict
    | TurnsNotSettled | AmbiguousChild | WriteFailed

  function NewLife(c: Context): Life {
    Life(c.sessionId, c.lifecycleId, c.supported, [], [], {}, map[], map[], [], [], [], None, false, {}, 0)
  }

  function Lookup(callbacks: seq<Callback>, key: Key): Option<Callback> {
    if callbacks == [] then None
    else if callbacks[0].Key() == key then Some(callbacks[0])
    else Lookup(callbacks[1..], key)
  }

  predicate InputsRejected(c: Context, hook: Hook, settled: bool) {
    || (settled && !hook.PostLlmCall?)
    || (hook.OnSessionStart? && !c.sourceKind.SessionStart?)
    || (hook.PostLlmCall? && !c.sourceKind.AssistantResponse?)
    || (hook in {OnSessionEnd, OnSessionFinalize, SubagentStop} && !c.sourceKind.System?)
    || (hook in {PreGatewayDispatch, PreLlmCall} && c.sourceKind in {SessionStart, AssistantResponse})
    || (c.sourceKind.PrivateInbound? && !c.isFresh)
  }

  predicate SameLifecycle(s: Life, c: Context) {
    c.lifecycleId == s.lifecycleId && c.sessionId == s.sessionId && c.supported == s.supported
  }

  /** Callback identity; observation time and event id are audit metadata. */
  predicate SameCallback(a: Callback, b: Callback) {
    a.(eventId := "", context := a.context.(observedAt := 0)) == b.(eventId := "", context := b.context.(observedAt := 0))
  }

  predicate GateOpen(s: Life, gate: Hook) { gate in s.supported ==> gate in s.gates }

  /** The part of a callback that depends on its hook. */
  function HookEffect(s: Life, cb: Callback): Result<Life, SessionError> {
    match cb.hook
    case PreGatewayDispatch =>
      if PreGatewayDispatch in s.gates then Err(GateRepeated) else Ok(s.(gates := s.gates + {PreGatewayDispatch}))
    case OnSessionStart =>
      if OnSessionStart in s.gates then Err(GateRepeated)
      else if !GateOpen(s, PreGatewayDispatch) then Err(GateMissing)
      else Ok(s.(gates := s.gates + {OnSessionStart}))
    case PreLlmCall =>
      if cb.context.turnId.None? then Err(TurnIdMissing)
      else if !GateOpen(s, PreGatewayDispatch) || !GateOpen(s, OnSessionStart) then Err(GateMissing)
      else if s.current.Some? then Err(TurnOpen)
      else if cb.context.turnId.value in s.turns then Err(TurnReused)
      else Ok(s.(turns := s.turns[cb.context.turnId.value := None], current := cb.context.turnId))
    case PostLlmCall =>
      if cb.context.turnId.None? then Err(TurnIdMissing)
      else
        var turn := cb.context.turnId.value;
        if turn in s.turns && s.turns[turn].Some? then Err(TurnTerminal)
        else if s.current != Some(turn) || turn !in s.turns then Err(NotCurrentTurn)
        else if !cb.settled then Ok(s)
        else Ok(s.(turns := s.turns[turn := Some(Completed)],
                   terminalTurnIds := s.terminalTurnIds + [turn],
                   settledTurnIds := s.settledTurnIds + [turn],
                   current := None))
    case OnSessionEnd =>
      if cb.context.turnId.None? then Err(TurnIdMissing)
      else if cb.context.turnId.value !in s.turns then Err(TurnUnknown)
      else if s.turns[cb.context.turnId.value].None? then Err(NoTerminalEvidence)
      else Ok(s)
    case SubagentStop =>
      if cb.context.turnId.None? then Err(TurnIdMissing)
      else if cb.terminalReason.None? || !ChildReason(cb.terminalReason.value) then Err(ReasonConflict)
      else
        var turn := cb.context.turnId.value;
        if turn !in s.turns || turn !in s.terminals || s.turns[turn] != Some(Abandoned) then Err(NoTerminalEvidence)
        else if !Compatible(s.terminals[turn].reason, cb.terminalReason.value) then Err(ReasonConflict)
        else Ok(s)
    case OnSessionFinalize =>
      if !GateOpen(s, PreGatewayDispatch) || !GateOpen(s, OnSessionStart) then Err(GateMissing)
      else if PreLlmCall in s.supported && s.turns == map[] then Err(TurnUnknown)
      else if s.current.Some? || (exists t :: t in s.turns && s.turns[t].None?) then Err(TurnsNotSettled)
      else Ok(s.(finalized := true))
  }

  /** Bookkeeping common to every accepted callback. */
  function Recorded(s: Life, cb: Callback): Life {
    var contact := cb.context.isFresh && cb.context.sourceKind.PrivateInbound?;
    var sources := if contact then s.privateSources + {cb.context.sourceId} else s.privateSources;
    s.(callbacks := s.callbacks + [cb], hooks := s.hooks + [cb.hook],
       privateSources := sources,
       privateContactCount := if contact then |sources| else s.privateContactCount)
  }

  /** A callback against a lifecycle; the flag says it was a tolerated duplicate. */
  function Apply(s: Life, cb: Callback, allowDuplicate: bool): Result<(bool, Life), SessionError> {
    if !SameLifecycle(s, cb.context) then Err(IdentityChanged)
    else if InputsRejected(cb.context, cb.hook, cb.settled) then Err(BadInputs)
    else
      match Lookup(s.callbacks, cb.Key())
      case Some(existing) =>
        if allowDuplicate && SameCallback(existing, cb) then Ok((true, s)) else Err(CallbackConflict)
      case None =>
        if s.finalized then Err(AlreadyFinalized)
        else if cb.hook !in s.supported then Err(UnsupportedHook)
        else
          match HookEffect(s, cb)
          case Err(e) => Err(e)
          case Ok(t) => Ok((false, Recorded(t, cb)))
  }

  function ApplyTerminal(s: Life, t: Terminal): Result<Life, SessionError> {
    if t.lifecycleId != s.lifecycleId || t.sessionId != s.sessionId then Err(IdentityChanged)
    else if s.finalized then Err(AlreadyFinalized)
    else if t.turnId in s.terminals then Err(TurnTerminal)
    else if t.turnId !in s.turns then Err(TurnUnknown)
    else if s.turns[t.turnId].Some? then Err(TurnTerminal)
    else if s.current != Some(t.turnId) then Err(NotCurrentTurn)
    else Ok(s.(turns := s.turns[t.turnId := Some(Abandoned)],
               terminals := s.terminals[t.turnId := t],
               terminalTurnIds := s.terminalTurnIds + [t.turnId],
               abandonedTurnIds := s.abandonedTurnIds + [t.turnId],
               current := None))
  }

  // ---- replay ------------------------------------------------------------------------

  /** Field relations a decoded row must satisfy. */
  predicate RowValid(row: Row) {
    match row
    case HookRow(cb) =>
      && (cb.terminalReason.Some? ==> cb.hook in {OnSessionEnd, SubagentStop} && HostTurn(cb.terminalReason.value))
      && (cb.hook.SubagentStop? ==> cb.terminalReason.Some? && ChildReason(cb.terminalReason.value))
    case TerminalRow(t) =>
      if t.reason.SupersededByNewPre? then t.successor.Some? && t.successor.value != t.turnId else t.successor.None?
  }

  /** One row against the state its lifecycle has so far, if any. */
  function FoldState(state: Option<Life>, row: Row): Result<Life, SessionError> {
    match row
    case HookRow(cb) =>
      var s := if state.Some? then state.value else NewLife(cb.context);
      (match Apply(s, cb, false)
       case Err(e) => Err(e)
       case Ok((_, t)) => Ok(t))
    case TerminalRow(t) =>
      if state.None? then Err(UnknownLifecycle) else ApplyTerminal(state.value, t)
  }

  datatype Book = Book(states: map<string, Life>, events: set<string>)

  function StateOf(b: Book, lifecycle: string): Option<Life> {
    if lifecycle in b.states then Some(b.states[lifecycle]) else None
  }

  function FoldRow(b: Book, row: Row): Result<Book, SessionError> {
    if !RowValid(row) then Err(InvalidRow)
    else if row.Event() in b.events then Err(DuplicateEvent)
    else
      match FoldState(StateOf(b, row.Lifecycle()), row)
      case Err(e) => Err(e)
      case Ok(s) => Ok(Book(b.states[row.Lifecycle() := s], b.events + {row.Event()}))
  }

  datatype ReplayError = ReplayError(rowNumber: nat, error: SessionError)

  function Replay(rows: seq<Row>): Result<Book, ReplayError> {
    if rows == [] then Ok(Book(map[], {}))
    else
      match Replay(Front(rows))
      case Err(e) => Err(e)
      case Ok(b) =>
        match FoldRow(b, Last(rows))
        case Err(e) => Err(ReplayError(|rows|, e))
        case Ok(c) => Ok(c)
  }

  lemma {:induction false} FailureIsPermanent(rows: seq<Row>, more: seq<Row>)
    requires Replay(rows).Err?
    ensures Replay(rows + more) == Replay(rows)
    decreases |more|
  {
    if more == [] {
      assert rows + more == rows;
    } else {
      FailureIsPermanent(rows, Front(more));
      assert Front(rows + more) == rows + Front(more);
    }
  }

  lemma {:induction false} PrefixAccepted(rows: seq<Row>, n: nat)
    requires n <= |rows| && Replay(rows).Ok?
    ensures Replay(rows[..n]).Ok?
    decreases |rows|
  {
    if n == |rows| {
      assert rows[..n] == rows;
    } else {
      assert Front(rows)[..n] == rows[..n];
      PrefixAccepted(Front(rows), n);
    }
  }
}
