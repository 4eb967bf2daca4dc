/** Incident decisions read as history: whether evidence is accepted, under which label, and what is
    projected, stated on the evidence accepted before instead of on the cursor
    (moonbite_plugin/incidents.py:280-328, 497-640). */
module IncidentHistories {
  import opened Basics
  import opened SeenWindows
  import opened Incidents

  function IdsOf(es: seq<Evidence>): seq<string> { if es == [] then [] else IdsOf(Front(es)) + [Last(es).eventId] }

  /** The latest sequence number any of the evidence carried. */
  function LastNumber(es: seq<Evidence>): Option<nat> {
    if es == [] then None else if Last(es).sequence.Some? then Last(es).sequence else LastNumber(Front(es))
  }

  /** One of the 256 ids accepted last. */
  predicate Known(es: seq<Evidence>, id: string) { id in Recent(IdsOf(es)) }

  /** Why evidence is refused after the evidence accepted so far, if it is. */
  function Verdict(scope: Scope, es: seq<Evidence>, e: Evidence, now: int, skew: nat): Option<(string, string)> {
    if e.scope != scope then Some(("scope_mismatch", "cursor_scope_mismatch"))
    else if Known(es, e.eventId) then Some(("duplicate", "duplicate_event"))
    else if now + skew < e.observed then Some(("clock_skew", "observed_time_in_future"))
    else if now + skew < e.received then Some(("clock_skew", "received_time_in_future"))
    else if e.received + skew < e.observed then Some(("clock_skew", "sender_time_ahead"))
    else if es != [] && e.received + skew < Last(es).received then Some(("clock_skew", "received_time_rewind"))
    else if es != [] && e.received < Last(es).received then Some(("out_of_order", "received_time_rewind"))
    else if e.sequence.Some? && LastNumber(es).Some? && e.sequence.value <= LastNumber(es).value then
      Some(("out_of_order", "source_sequence_rewind"))
    else if es != [] && e.observed <= Last(es).observed then Some(("out_of_order", "observed_time_rewind"))
    else None
  }

  /** An incident is open: the last label that is not neutral is not a recovery. */
  predicate Open(labels: seq<Label>) {
    NonNeutral(labels) != [] && !Last(NonNeutral(labels)).RecoveredHistory?
  }

  /** The label of accepted evidence: activity begins or continues an incident, a recovery closes an
      open one, and everything else is a neutral fact. */
  function Labelled(labels: seq<Label>, e: Evidence): Label {
    match e.state
    case Active => if Open(labels) then Current else New
    case Recovered => if Open(labels) then RecoveredHistory else NeutralFact
    case Neutral => NeutralFact
  }

  function Why(labels: seq<Label>, e: Evidence): string {
    match e.state
    case Active => if Open(labels) then "current" else "new"
    case Recovered =>
      if Open(labels) then "recovered_history" else if NonNeutral(labels) == [] then "orphan_recovery" else "stale_recovery"
    case Neutral => "neutral"
  }

  /** The projection of accepted evidence: a copy of it, in the state its label says. */
  predicate Projects(p: Projection, e: Evidence, l: Label) {
    && p.eventId == e.eventId && p.scope == e.scope && p.reason == e.reason && p.observed == e.observed && p.received == e.received
    && p.sequence == e.sequence && p.severity == e.severity && p.lifecycle == l
    && (p.state.Active? <==> l.New? || l.Current?) && (p.state.Recovered? <==> l.RecoveredHistory?)
    && p.recoveryRef == (if l.RecoveredHistory? then Some(e.scope.fingerprint) else None)
  }

  // ---- what the cursor remembers ---------------------------------------------------------

  predicate Remembers(t: Trace, scope: Scope) {
    && t.cursor.scope == scope && t.cursor.seen == Recent(IdsOf(t.accepted))
    && t.cursor.lastEvent == (if t.accepted == [] then None else Some(Last(t.accepted).eventId))
    && t.cursor.lastObserved == (if t.accepted == [] then None else Some(Last(t.accepted).observed))
    && t.cursor.lastReceived == (if t.accepted == [] then None else Some(Last(t.accepted).received))
    && t.cursor.lastSequence == LastNumber(t.accepted)
  }

  lemma IdsOneMore(es: seq<Evidence>, e: Evidence)
    ensures IdsOf(es + [e]) == IdsOf(es) + [e.eventId]
    ensures LastNumber(es + [e]) == if e.sequence.Some? then e.sequence else LastNumber(es)
  {
    FrontOfAppend(es, e);
  }

  lemma LastIsRecent(es: seq<Evidence>)
    requires es != []
    ensures Last(es).eventId in Recent(IdsOf(es))
  {
    IdsOneMore(Front(es), Last(es));
    SplitLast(es);
    var ids := IdsOf(es);
    assert ids[|ids| - 1] == Last(es).eventId;
    KeptForAWindow(ids, |ids| - 1);
  }

  /** The cursor's chain of refusals is the history's verdict. */
  lemma RefusalIsVerdict(t: Trace, scope: Scope, e: Evidence, now: int, skew: nat)
    requires Remembers(t, scope)
    ensures Refusal(e, now, t.cursor, skew) ==
            match Verdict(scope, t.accepted, e, now, skew) case None => None case Some((status, reason)) => Some(Reject(status, reason))
  {
    hide Recent, IdsOf, LastNumber;
    if t.accepted != [] { LastIsRecent(t.accepted); }
  }

  lemma AcceptedMoves(e: Evidence, now: int, c: Cursor, skew: nat)
    requires var d := Decide(e, now, c, skew); d.Some? && d.value.Accept?
    ensures var d := Decide(e, now, c, skew).value;
            && Refusal(e, now, c, skew).None?
            && d.next.scope == c.scope && d.next.seen == Remember(c.seen, e.eventId) && d.next.lastEvent == Some(e.eventId)
            && d.next.lastObserved == Some(e.observed) && d.next.lastReceived == Some(e.received)
            && d.next.lastSequence == (if e.sequence.Some? then e.sequence else c.lastSequence)
  {
    hide Remember, CursorValid, Contains;
  }

  lemma StepRemembers(t: Trace, scope: Scope, a: Arrival)
    requires Remembers(t, scope)
    ensures var d := Decide(a.evidence, a.now, t.cursor, a.skew);
            d.Some? && d.value.Accept? ==> Remembers(Trace(d.value.next, t.accepted + [a.evidence], t.labels + [d.value.lifecycle]), scope)
  {
    hide Decide, Recent, IdsOf, Remember, LastNumber, Refusal;
    var d := Decide(a.evidence, a.now, t.cursor, a.skew);
    if d.Some? && d.value.Accept? {
      AcceptedMoves(a.evidence, a.now, t.cursor, a.skew);
      RefusalIsVerdict(t, scope, a.evidence, a.now, a.skew);
      IdsOneMore(t.accepted, a.evidence);
      RememberIsRecent(IdsOf(t.accepted), a.evidence.eventId);
    }
  }

  lemma {:induction false} RunsRemember(scope: Scope, feed: seq<Arrival>)
    requires Run(scope, feed).Some?
    ensures Remembers(Run(scope, feed).value, scope)
  {
    hide Decide, Remembers;
    if feed == [] {
      NothingRemembered(scope);
    } else {
      RunsRemember(scope, Front(feed));
      StepRemembers(Run(scope, Front(feed)).value, scope, Last(feed));
    }
  }

  lemma NothingRemembered(scope: Scope)
    ensures Remembers(Trace(Empty(scope), [], []), scope)
  {
  }

  lemma AcceptanceMeans(t: Trace, e: Evidence, now: int, skew: nat)
    requires Phased(t) && EvidenceValid(e) && Refusal(e, now, t.cursor, skew).None? && Decide(e, now, t.cursor, skew).Some?
    ensures var d := Decide(e, now, t.cursor, skew).value;
            && d.Accept? && d.lifecycle == Labelled(t.labels, e) && d.reason == Why(t.labels, e)
            && Projects(d.projected, e, d.lifecycle)
  {
    hide Remember, CursorValid, Episodes, NonNeutral;
    assert Open(t.labels) <==> t.cursor.activeSeen && t.cursor.recoveredAt.None?;
    assert NonNeutral(t.labels) == [] <==> !t.cursor.activeSeen;
  }

  /** What is decided about the next evidence on any run: it is refused exactly with the verdict of
      the history, and otherwise accepted under the label, for the reason and with the projection the
      history calls for. */
  lemma DecisionMeans(scope: Scope, feed: seq<Arrival>, e: Evidence, now: int, skew: nat)
    requires FeedValid(feed) && EvidenceValid(e)
    ensures Run(scope, feed).Some?
    ensures var t := Run(scope, feed).value;
            && Decide(e, now, t.cursor, skew).Some?
            && var d := Decide(e, now, t.cursor, skew).value;
               match Verdict(scope, t.accepted, e, now, skew)
               case Some((status, reason)) => d == Reject(status, reason)
               case None =>
                 && d.Accept? && d.lifecycle == Labelled(t.labels, e) && d.reason == Why(t.labels, e)
                 && Projects(d.projected, e, d.lifecycle)
  {
    hide Decide, Verdict, Phased, Remembers, Refusal, Labelled, Why, Projects;
    NoGuardIsRaised(scope, feed);
    RunsRemember(scope, feed);
    LabelsSpellEpisodes(scope, feed);
    var t := Run(scope, feed).value;
    RefusalIsVerdict(t, scope, e, now, skew);
    StepKeeps(t, scope, Incidents.Arrival.Arrival(e, now, skew));
    if Refusal(e, now, t.cursor, skew).None? {
      AcceptanceMeans(t, e, now, skew);
    } else {
      RefusedIsRejected(e, now, t.cursor, skew);
    }
  }

  lemma RefusedIsRejected(e: Evidence, now: int, c: Cursor, skew: nat)
    requires Refusal(e, now, c, skew).Some?
    ensures Decide(e, now, c, skew) == Refusal(e, now, c, skew)
  {
    hide Refusal;
  }
}
