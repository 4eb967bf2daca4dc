/** The incident lifecycle: a pure decision over one cursor, whose bounded memory never lets
    accepted evidence in twice (moonbite_plugin/incidents.py). */
module Incidents {
  import opened Basics
  import opened SeenWindows

  datatype Severity = Info | Warning | Error | Critical
  datatype State = Active | Recovered | Neutral
  datatype Label = New | Current | RecoveredHistory | NeutralFact

  datatype Scope = Scope(source: string, category: string, fingerprint: string)

  datatype Evidence = Evidence(
    eventId: string, scope: Scope, reason: string, observed: int, received: int, severity: Severity,
    state: State, sequence: Option<nat>, recoveryRef: Option<string>)

  /** What the evidence constructor relates: only recoveries carry a reference, to themselves. */
  predicate EvidenceValid(e: Evidence) {
    e.recoveryRef == if e.state.Recovered? then Some(e.scope.fingerprint) else None
  }

  datatype Cursor = Cursor(
    scope: Scope, lastEvent: Option<string>, lastSequence: Option<nat>,
    lastObserved: Option<int>, lastReceived: Option<int>,
    seen: seq<string>, activeSeen: bool, recoveredAt: Option<int>)

  function Empty(scope: Scope): Cursor { Cursor(scope, None, None, None, None, [], false, None) }

  /** The cursor constructor's guards. */
  predicate CursorValid(c: Cursor) {
    && Distinct(c.seen) && |c.seen| <= WINDOW
    && (c.recoveredAt.Some? ==> c.activeSeen)
    && (c.recoveredAt.Some? && c.lastObserved.Some? ==> c.recoveredAt.value <= c.lastObserved.value)
  }

  predicate Contains(c: Cursor, id: string) { c.lastEvent == Some(id) || id in c.seen }

  /** advance: None stands for a raised guard, its own or the constructor's. */
  function Advance(c: Cursor, e: Evidence, recoveryAccepted: bool): Option<Cursor> {
    if e.scope != c.scope || Contains(c, e.eventId) then None
    else if c.lastObserved.Some? && e.observed <= c.lastObserved.value then None
    else if c.lastReceived.Some? && e.received < c.lastReceived.value then None
    else if e.sequence.Some? && c.lastSequence.Some? && e.sequence.value <= c.lastSequence.value then None
    else
      var next := Cursor(
        c.scope, Some(e.eventId), if e.sequence.Some? then e.sequence else c.lastSequence,
        Some(e.observed), Some(e.received), Remember(c.seen, e.eventId),
        e.state.Active? || c.activeSeen,
        if recoveryAccepted then Some(e.observed) else if e.state.Active? then None else c.recoveredAt);
      if CursorValid(next) then Some(next) else None
  }

  datatype Projection = Projection(
    eventId: string, scope: Scope, reason: string, observed: int, received: int, sequence: Option<nat>,
    severity: Severity, state: State, lifecycle: Label, recoveryRef: Option<string>)

  /** _project, with the projection constructor's guards. */
  function Project(e: Evidence, lifecycle: Label, state: State): Option<Projection> {
    var p := Projection(e.eventId, e.scope, e.reason, e.observed, e.received, e.sequence, e.severity, state, lifecycle,
                        if state.Recovered? then e.recoveryRef else None);
    if lifecycle in {New, Current} && !state.Active? then None
    else if lifecycle.RecoveredHistory? && !state.Recovered? then None
    else if lifecycle.NeutralFact? && !state.Neutral? then None
    else if p.recoveryRef != (if state.Recovered? then Some(e.scope.fingerprint) else None) then None
    else Some(p)
  }

  datatype Decision =
    | Accept(lifecycle: Label, reason: string, next: Cursor, projected: Projection)
    | Reject(status: string, reason: string)

  /** The chain of refusals, in order; None means the evidence is accepted. */
  function Refusal(e: Evidence, now: int, c: Cursor, skew: nat): Option<Decision> {
    if c.scope != e.scope then Some(Reject("scope_mismatch", "cursor_scope_mismatch"))
    else if Contains(c, e.eventId) then Some(Reject("duplicate", "duplicate_event"))
    else if e.observed > now + skew then Some(Reject("clock_skew", "observed_time_in_future"))
    else if e.received > now + skew then Some(Reject("clock_skew", "received_time_in_future"))
    else if e.observed > e.received + skew then Some(Reject("clock_skew", "sender_time_ahead"))
    else if c.lastReceived.Some? && e.received < c.lastReceived.value - skew then
      Some(Reject("clock_skew", "received_time_rewind"))
    else if c.lastReceived.Some? && e.received < c.lastReceived.value then
      Some(Reject("out_of_order", "received_time_rewind"))
    else if e.sequence.Some? && c.lastSequence.Some? && e.sequence.value <= c.lastSequence.value then
      Some(Reject("out_of_order", "source_sequence_rewind"))
    else if c.lastObserved.Some? && e.observed <= c.lastObserved.value then
      Some(Reject("out_of_order", "observed_time_rewind"))
    else None
  }

  function Accepted(lifecycle: Label, reason: string, next: Option<Cursor>, projected: Option<Projection>): Option<Decision> {
    if next.Some? && projected.Some? && projected.value.lifecycle == lifecycle && projected.value.scope == next.value.scope
    then Some(Accept(lifecycle, reason, next.value, projected.value)) else None
  }

  /** decide_incident; None stands for a guard raised on the way. */
  function Decide(e: Evidence, now: int, c: Cursor, skew: nat): Option<Decision> {
    if Refusal(e, now, c, skew).Some? then Refusal(e, now, c, skew)
    else
      match e.state
      case Active =>
        var lifecycle := if !c.activeSeen || c.recoveredAt.Some? then New else Current;
        Accepted(lifecycle, if lifecycle.New? then "new" else "current", Advance(c, e, false), Project(e, lifecycle, Active))
      case Recovered =>
        if !c.activeSeen then
          Accepted(NeutralFact, "orphan_recovery", Advance(c, e, false), Project(e, NeutralFact, Neutral))
        else if c.recoveredAt.Some? then
          Accepted(NeutralFact, "stale_recovery", Advance(c, e, false), Project(e, NeutralFact, Neutral))
        else if e.recoveryRef != Some(c.scope.fingerprint) then
          Accepted(NeutralFact, "recovery_scope_mismatch", Advance(c, e, false), Project(e, NeutralFact, Neutral))
        else
          Accepted(RecoveredHistory, "recovered_history", Advance(c, e, true), Project(e, RecoveredHistory, Recovered))
      case Neutral =>
        Accepted(NeutralFact, "neutral", Advance(c, e, false), Project(e, NeutralFact, Neutral))
  }

  /** A guard is raised on evidence that no refusal stops exactly when the cursor claims a
      recovery later than the evidence without having observed anything. */
  lemma WhenAGuardIsRaised(e: Evidence, now: int, c: Cursor, skew: nat)
    requires EvidenceValid(e) && CursorValid(c)
    ensures Decide(e, now, c, skew).None? <==>
              && Refusal(e, now, c, skew).None? && !e.state.Active?
              && c.lastObserved.None? && c.recoveredAt.Some? && e.observed < c.recoveredAt.value
  {
    RememberKeepsShape(c.seen, e.eventId);
  }

  /** Such a cursor exists, so the guard is not dead code for a caller-built cursor. */
  lemma GuardCanBeRaised()
    ensures exists e, now, c, skew :: EvidenceValid(e) && CursorValid(c) && Decide(e, now, c, skew).None?
  {
    var scope := Scope("source", "category", "fingerprint");
    var e := Evidence("event", scope, "reason", 0, 0, Info, Neutral, None, None);
    var c := Empty(scope).(activeSeen := true, recoveredAt := Some(1));
    WhenAGuardIsRaised(e, 0, c, 0);
    assert EvidenceValid(e) && CursorValid(c) && Decide(e, 0, c, 0).None?;
  }

  // ---- runs --------------------------------------------------------------------------

  /** One delivery: the evidence and the clock and tolerance it is judged with. */
  datatype Arrival = Arrival(evidence: Evidence, now: int, skew: nat)

  datatype Trace = Trace(cursor: Cursor, accepted: seq<Evidence>, labels: seq<Label>)

  /** The host stores the returned cursor whenever evidence is accepted. */
  function Run(scope: Scope, feed: seq<Arrival>): Option<Trace> {
    if feed == [] then Some(Trace(Empty(scope), [], []))
    else
      match Run(scope, Front(feed))
      case None => None
      case Some(t) =>
        var a := Last(feed);
        match Decide(a.evidence, a.now, t.cursor, a.skew)
        case None => None
        case Some(Reject(_, _)) => Some(t)
        case Some(Accept(lifecycle, _, next, _)) =>
          Some(Trace(next, t.accepted + [a.evidence], t.labels + [lifecycle]))
  }

  predicate FeedValid(feed: seq<Arrival>) { forall a <- feed :: EvidenceValid(a.evidence) }

  function NonNeutral(labels: seq<Label>): seq<Label> {
    if labels == [] then []
    else NonNeutral(Front(labels)) + (if Last(labels).NeutralFact? then [] else [Last(labels)])
  }

  /** Which label may come after which, at the start too. */
  predicate MayFollow(before: Option<Label>, next: Label) {
    match next
    case New => before.None? || before.value.RecoveredHistory?
    case Current => before.Some? && before.value in {New, Current}
    case RecoveredHistory => before.Some? && before.value in {New, Current}
    case NeutralFact => false
  }

  function Final(labels: seq<Label>): Option<Label> { if labels == [] then None else Some(Last(labels)) }

  /** A prefix of (new current* recovered_history)*, said position by position. */
  predicate Episodes(labels: seq<Label>) {
    forall i :: 0 <= i < |labels| ==> MayFollow(Final(labels[..i]), labels[i])
  }

  lemma EpisodesExtend(labels: seq<Label>, next: Label)
    requires Episodes(labels) && MayFollow(Final(labels), next)
    ensures Episodes(labels + [next])
  {
    var longer := labels + [next];
    forall i | 0 <= i < |longer| ensures MayFollow(Final(longer[..i]), longer[i]) {
      if i < |labels| {
        assert longer[..i] == labels[..i] && longer[i] == labels[i];
      } else {
        assert longer[..i] == labels;
      }
    }
  }

  /** What every run from the empty cursor keeps. */
  predicate Kept(t: Trace, scope: Scope) {
    && CursorValid(t.cursor) && t.cursor.scope == scope
    && (t.cursor.recoveredAt.Some? ==> t.cursor.lastObserved.Some?)
    && (forall e <- t.accepted :: t.cursor.lastObserved.Some? && e.observed <= t.cursor.lastObserved.value)
    && (forall i, j :: 0 <= i < j < |t.accepted| ==> t.accepted[i].observed < t.accepted[j].observed)
  }

  /** The cursor's two recovery fields say where in an episode the run stands. */
  predicate Standing(c: Cursor, final: Option<Label>) {
    match final
    case None => !c.activeSeen && c.recoveredAt.None?
    case Some(l) => c.activeSeen && !l.NeutralFact? && (l.RecoveredHistory? <==> c.recoveredAt.Some?)
  }

  predicate Phased(t: Trace) { Episodes(NonNeutral(t.labels)) && Standing(t.cursor, Final(NonNeutral(t.labels))) }

  lemma AcceptedLabelFits(e: Evidence, now: int, c: Cursor, skew: nat, final: Option<Label>)
    requires Standing(c, final)
    ensures var d := Decide(e, now, c, skew);
            d.Some? && d.value.Accept? ==>
              if d.value.lifecycle.NeutralFact? then Standing(d.value.next, final)
              else MayFollow(final, d.value.lifecycle) && Standing(d.value.next, Some(d.value.lifecycle))
  {
    hide Remember;
  }

  lemma StepKeeps(t: Trace, scope: Scope, a: Arrival)
    requires Kept(t, scope) && EvidenceValid(a.evidence)
    ensures var d := Decide(a.evidence, a.now, t.cursor, a.skew);
            d.Some? && (d.value.Accept? ==>
              Kept(Trace(d.value.next, t.accepted + [a.evidence], t.labels + [d.value.lifecycle]), scope))
  {
    WhenAGuardIsRaised(a.evidence, a.now, t.cursor, a.skew);
  }

  lemma StepKeepsPhase(t: Trace, a: Arrival)
    requires Phased(t)
    ensures var d := Decide(a.evidence, a.now, t.cursor, a.skew);
            d.Some? && d.value.Accept? ==>
              Phased(Trace(d.value.next, t.accepted + [a.evidence], t.labels + [d.value.lifecycle]))
  {
    hide Decide, Episodes, Standing;
    var d, words := Decide(a.evidence, a.now, t.cursor, a.skew), NonNeutral(t.labels);
    AcceptedLabelFits(a.evidence, a.now, t.cursor, a.skew, Final(words));
    if d.Some? && d.value.Accept? {
      var l := d.value.lifecycle;
      FrontOfAppend(t.labels, l);
      if l.NeutralFact? {
        assert words + [] == words;
      } else {
        EpisodesExtend(words, l);
        FrontOfAppend(words, l);
      }
    }
  }

  /** No constructor or advance guard can be raised on any run from the empty cursor. */
  lemma {:induction false} NoGuardIsRaised(scope: Scope, feed: seq<Arrival>)
    requires FeedValid(feed)
    ensures Run(scope, feed).Some? && Kept(Run(scope, feed).value, scope)
  {
    if feed != [] {
      NoGuardIsRaised(scope, Front(feed));
      StepKeeps(Run(scope, Front(feed)).value, scope, Last(feed));
    }
  }

  /** Accepted labels other than neutral ones spell episodes: a new incident, its repetitions,
      its recovery, and again. */
  lemma {:induction false} LabelsSpellEpisodes(scope: Scope, feed: seq<Arrival>)
    requires Run(scope, feed).Some?
    ensures Episodes(NonNeutral(Run(scope, feed).value.labels)) && Phased(Run(scope, feed).value)
  {
    if feed != [] {
      LabelsSpellEpisodes(scope, Front(feed));
      StepKeepsPhase(Run(scope, Front(feed)).value, Last(feed));
    }
  }

  /** Evidence accepted once is refused for ever after, at any clock and tolerance, although the
      cursor remembers a bounded number of ids. */
  lemma {:induction false} NeverAcceptedAgain(scope: Scope, feed: seq<Arrival>, e: Evidence, now: int, skew: nat)
    requires FeedValid(feed) && Run(scope, feed).Some? && e in Run(scope, feed).value.accepted
    ensures Decide(e, now, Run(scope, feed).value.cursor, skew).Some?
    ensures Decide(e, now, Run(scope, feed).value.cursor, skew).value.Reject?
  {
    NoGuardIsRaised(scope, feed);
  }
}
