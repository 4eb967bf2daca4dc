/** Observation decisions read as history: whether evidence is accepted, and how healthy it counts,
    stated on the evidence accepted before instead of on the cursor
    (moonbite_plugin/observations.py:231-256, 350-430). */
module ObservationHistories {
  import opened Basics
  import opened SeenWindows
  import opened Observations

  /** The latest of the observation times, of the receipt times, and the last sequence number. */
  function LatestObserved(es: seq<Evidence>): int
    requires es != []
  {
    if |es| == 1 || LatestObserved(Front(es)) <= Last(es).observed then Last(es).observed else LatestObserved(Front(es))
  }

  function LatestReceived(es: seq<Evidence>): int
    requires es != []
  {
    if |es| == 1 || LatestReceived(Front(es)) <= Last(es).received then Last(es).received else LatestReceived(Front(es))
  }

  function LastNumber(es: seq<Evidence>): Option<nat> {
    if es == [] then None else if Last(es).sequence.Some? then Last(es).sequence else LastNumber(Front(es))
  }

  predicate Known(es: seq<Evidence>, id: string) { id in Recent(IdsOf(es)) }

  /** The sender's clock and the receiver's moved apart by more than is tolerated. */
  predicate Jumped(es: seq<Evidence>, e: Evidence, jump: nat)
    requires es != []
  {
    var drift := (e.observed - e.received) - (LatestObserved(es) - LatestReceived(es));
    drift > jump || -drift > jump
  }

  /** Why evidence is refused after the evidence accepted so far, if it is. */
  function Verdict(source: string, capability: string, es: seq<Evidence>, e: Evidence, j: Judge): Option<(string, string)> {
    if e.source != source || e.capability != capability then Some(("out_of_order", "cursor_scope_mismatch"))
    else if Known(es, e.eventId) then Some(("duplicate", "duplicate_event"))
    else if j.now + j.skew < e.observed then Some(("clock_skew", "observed_time_in_future"))
    else if j.now + j.skew < e.received then Some(("clock_skew", "received_time_in_future"))
    else if e.received + j.skew < e.observed then Some(("clock_skew", "sender_time_ahead"))
    else if es != [] && e.received + j.skew < LatestReceived(es) then Some(("clock_skew", "received_time_rewind"))
    else if e.sequence.Some? && LastNumber(es).Some? && e.sequence.value <= LastNumber(es).value then
      Some(("out_of_order", "source_sequence_rewind"))
    else if e.sequence.None? && es != [] && e.observed < LatestObserved(es) then Some(("out_of_order", "observed_time_rewind"))
    else if es != [] && Jumped(es, e, j.jump) then Some(("sender_clock_jump", "sender_clock_jump"))
    else if e.expires.Some? && e.expires.value <= j.now then Some(("expired", "expired"))
    else
      match e.availability
      case Disabled => Some(("neutral", "disabled"))
      case NotConfigured => Some(("neutral", "not_configured"))
      case _ => None
  }

  /** What accepted evidence is short of, if anything. */
  function Shortcoming(e: Evidence): Option<string> {
    match (e.availability, e.freshness)
    case (Offline, _) => Some("offline")
    case (Failed, _) => Some("error")
    case (UnknownAvailability, _) => Some("unknown")
    case (Available, Delayed) => Some("delayed")
    case (Available, Stale) => Some("stale")
    case (Available, UnknownFreshness) => Some("unknown")
    case (Available, Fresh) => if e.confidence > 0.0 then None else Some("confidence_zero")
    case _ => None
  }

  predicate Remembers(t: Trace, source: string, capability: string) {
    && t.cursor.source == source && t.cursor.capability == capability && t.cursor.seen == Recent(IdsOf(t.accepted))
    && t.cursor.lastEvent == (if t.accepted == [] then None else Some(Last(t.accepted).eventId))
    && t.cursor.lastObserved == (if t.accepted == [] then None else Some(LatestObserved(t.accepted)))
    && t.cursor.lastReceived == (if t.accepted == [] then None else Some(LatestReceived(t.accepted)))
    && t.cursor.lastSequence == LastNumber(t.accepted)
  }

  lemma OneMore(es: seq<Evidence>, e: Evidence)
    ensures IdsOf(es + [e]) == IdsOf(es) + [e.eventId]
    ensures LastNumber(es + [e]) == if e.sequence.Some? then e.sequence else LastNumber(es)
    ensures LatestObserved(es + [e]) == if es == [] || LatestObserved(es) <= e.observed then e.observed else LatestObserved(es)
    ensures LatestReceived(es + [e]) == if es == [] || LatestReceived(es) <= e.received then e.received else LatestReceived(es)
  {
    FrontOfAppend(es, e);
  }

  lemma LastIsRecent(es: seq<Evidence>)
    requires es != []
    ensures Last(es).eventId in Recent(IdsOf(es))
  {
    OneMore(Front(es), Last(es));
    SplitLast(es);
    var ids := IdsOf(es);
    assert ids[|ids| - 1] == Last(es).eventId;
    KeptForAWindow(ids, |ids| - 1);
  }

  lemma RefusalIsVerdict(t: Trace, source: string, capability: string, e: Evidence, j: Judge)
    requires Remembers(t, source, capability)
    ensures Refusal(e, j, t.cursor) ==
            match Verdict(source, capability, t.accepted, e, j) case None => None case Some((status, reason)) => Some(Refused(status, reason))
  {
    hide Recent, IdsOf, LastNumber, LatestObserved, LatestReceived;
    if t.accepted != [] { LastIsRecent(t.accepted); }
  }

  lemma StepRemembers(t: Trace, source: string, capability: string, a: Arrival)
    requires Remembers(t, source, capability) && CursorValid(t.cursor)
    ensures var d := Decide(a.evidence, a.judge, t.cursor);
            d.Some? && IsAccepted(d.value) ==> Remembers(Trace(d.value.next, t.accepted + [a.evidence]), source, capability)
  {
    hide Decide, Recent, IdsOf, Remember, LastNumber, LatestObserved, LatestReceived, CursorValid, Refusal;
    NoGuardIsRaised(a.evidence, a.judge, t.cursor);
    if Refusal(a.evidence, a.judge, t.cursor).None? {
      RefusalIsVerdict(t, source, capability, a.evidence, a.judge);
      OneMore(t.accepted, a.evidence);
      RememberIsRecent(IdsOf(t.accepted), a.evidence.eventId);
    }
  }

  lemma {:induction false} RunsRemember(source: string, capability: string, feed: seq<Arrival>)
    ensures Run(Empty(source, capability), feed).Some?
    ensures Remembers(Run(Empty(source, capability), feed).value, source, capability)
  {
    hide Decide, Remembers, Kept;
    RunsKeep(source, capability, feed);
    if feed == [] {
      NothingRemembered(source, capability);
    } else {
      RunsRemember(source, capability, Front(feed));
      RunsKeep(source, capability, Front(feed));
      KeptIsValid(Run(Empty(source, capability), Front(feed)).value, source, capability);
      StepRemembers(Run(Empty(source, capability), Front(feed)).value, source, capability, Last(feed));
    }
  }

  lemma NothingRemembered(source: string, capability: string)
    ensures Remembers(Trace(Empty(source, capability), []), source, capability)
  {
  }

  /** What is decided about the next evidence on any run: it is refused exactly with the verdict of the
      history; otherwise it is a candidate, or degraded for its first shortcoming. */
  lemma DecisionMeans(source: string, capability: string, feed: seq<Arrival>, e: Evidence, j: Judge)
    ensures Run(Empty(source, capability), feed).Some?
    ensures var t := Run(Empty(source, capability), feed).value;
            && Decide(e, j, t.cursor).Some?
            && var d := Decide(e, j, t.cursor).value;
               match Verdict(source, capability, t.accepted, e, j)
               case Some((status, reason)) => d == Refused(status, reason)
               case None =>
                 match Shortcoming(e)
                 case None => d.Candidate?
                 case Some(code) => d.Degraded? && d.reason == code
  {
    hide Verdict, Remembers, Refusal, Kept, CursorValid, Remember;
    RunsRemember(source, capability, feed);
    RunsKeep(source, capability, feed);
    var t := Run(Empty(source, capability), feed).value;
    KeptIsValid(t, source, capability);
    RefusalIsVerdict(t, source, capability, e, j);
    NoGuardIsRaised(e, j, t.cursor);
    if Refusal(e, j, t.cursor).None? { AvailableAtAll(e, j, t.cursor); }
  }

  lemma AvailableAtAll(e: Evidence, j: Judge, c: Cursor)
    requires Refusal(e, j, c).None?
    ensures !e.availability.Disabled? && !e.availability.NotConfigured?
  {
  }
}
