/** Observation replay: a pure decision over one stream cursor, which keeps sequenced evidence
    out for ever once accepted, but evidence without a sequence number only for as long as its id
    is remembered or its time is overtaken (moonbite_plugin/observations.py). */
module Observations {
  import opened Basics
  import opened SeenWindows

  datatype Availability = Available | Disabled | NotConfigured | Offline | Failed | UnknownAvailability
  datatype Freshness = Fresh | Delayed | Stale | UnknownFreshness

  datatype Evidence = Evidence(
    eventId: string, source: string, capability: string, observed: int, received: int, expires: Option<int>,
    availability: Availability, freshness: Freshness, confidence: real, sequence: Option<nat>)

  datatype Cursor = Cursor(
    source: string, capability: string, lastEvent: Option<string>, lastSequence: Option<nat>,
    lastObserved: Option<int>, lastReceived: Option<int>, seen: seq<string>)

  function Empty(source: string, capability: string): Cursor {
    Cursor(source, capability, None, None, None, None, [])
  }

  predicate CursorValid(c: Cursor) { Distinct(c.seen) && |c.seen| <= WINDOW }

  predicate Contains(c: Cursor, id: string) { c.lastEvent == Some(id) || id in c.seen }

  function Later(before: Option<int>, t: int): Option<int> {
    if before.Some? && before.value > t then before else Some(t)
  }

  /** advance: None stands for a raised guard. */
  function Advance(c: Cursor, e: Evidence): Option<Cursor> {
    if (e.source, e.capability) != (c.source, c.capability) then None
    else
      var next := Cursor(
        c.source, c.capability, Some(e.eventId), if e.sequence.Some? then e.sequence else c.lastSequence,
        Later(c.lastObserved, e.observed), Later(c.lastReceived, e.received), Remember(c.seen, e.eventId));
      if CursorValid(next) then Some(next) else None
  }

  datatype Decision = Candidate(next: Cursor) | Degraded(reason: string, next: Cursor) | Refused(status: string, reason: string)

  predicate IsAccepted(d: Decision) { d.Candidate? || d.Degraded? }

  function Abs(x: int): nat { if x < 0 then -x else x }

  /** The tolerances and the clock one fact is judged with. */
  datatype Judge = Judge(now: int, skew: nat, jump: nat)

  predicate ClockRefuses(e: Evidence, j: Judge) {
    e.observed > j.now + j.skew || e.received > j.now + j.skew || e.observed > e.received + j.skew
  }

  /** The chain of refusals, in order. */
  function Refusal(e: Evidence, j: Judge, c: Cursor): Option<Decision> {
    if (c.source, c.capability) != (e.source, e.capability) then Some(Refused("out_of_order", "cursor_scope_mismatch"))
    else if Contains(c, e.eventId) then Some(Refused("duplicate", "duplicate_event"))
    else if e.observed > j.now + j.skew then Some(Refused("clock_skew", "observed_time_in_future"))
    else if e.received > j.now + j.skew then Some(Refused("clock_skew", "received_time_in_future"))
    else if e.observed > e.received + j.skew then Some(Refused("clock_skew", "sender_time_ahead"))
    else if c.lastReceived.Some? && e.received < c.lastReceived.value - j.skew then
      Some(Refused("clock_skew", "received_time_rewind"))
    else if e.sequence.Some? && c.lastSequence.Some? && e.sequence.value <= c.lastSequence.value then
      Some(Refused("out_of_order", "source_sequence_rewind"))
    else if e.sequence.None? && c.lastObserved.Some? && e.observed < c.lastObserved.value then
      Some(Refused("out_of_order", "observed_time_rewind"))
    else if c.lastObserved.Some? && c.lastReceived.Some?
         && Abs((e.observed - c.lastObserved.value) - (e.received - c.lastReceived.value)) > j.jump then
      Some(Refused("sender_clock_jump", "sender_clock_jump"))
    else if e.expires.Some? && j.now >= e.expires.value then Some(Refused("expired", "expired"))
    else if e.availability.Disabled? then Some(Refused("neutral", "disabled"))
    else if e.availability.NotConfigured? then Some(Refused("neutral", "not_configured"))
    else None
  }

  function AvailabilityCode(a: Availability): string {
    match a
    case Available => "available" case Disabled => "disabled" case NotConfigured => "not_configured"
    case Offline => "offline" case Failed => "error" case UnknownAvailability => "unknown"
  }

  function FreshnessCode(f: Freshness): string {
    match f case Fresh => "fresh" case Delayed => "delayed" case Stale => "stale" case UnknownFreshness => "unknown"
  }

  /** decide_observation; None stands for a guard raised on the way. */
  function Decide(e: Evidence, j: Judge, c: Cursor): Option<Decision> {
    if Refusal(e, j, c).Some? then Refusal(e, j, c)
    else
      match Advance(c, e)
      case None => None
      case Some(next) =>
        if !e.availability.Available? then Some(Degraded(AvailabilityCode(e.availability), next))
        else if !e.freshness.Fresh? then Some(Degraded(FreshnessCode(e.freshness), next))
        else if e.confidence <= 0.0 then Some(Degraded("confidence_zero", next))
        else Some(Candidate(next))
  }

  /** No guard can be raised on a cursor its constructor accepted. */
  lemma NoGuardIsRaised(e: Evidence, j: Judge, c: Cursor)
    requires CursorValid(c)
    ensures Decide(e, j, c).Some?
    ensures IsAccepted(Decide(e, j, c).value) ==> Advance(c, e) == Some(Decide(e, j, c).value.next)
    ensures IsAccepted(Decide(e, j, c).value) <==> Refusal(e, j, c).None?
  {
    RememberKeepsShape(c.seen, e.eventId);
  }

  // ---- runs --------------------------------------------------------------------------

  datatype Arrival = Arrival(evidence: Evidence, judge: Judge)

  datatype Trace = Trace(cursor: Cursor, accepted: seq<Evidence>)

  /** The host stores the returned cursor whenever evidence is accepted. */
  function Run(start: Cursor, feed: seq<Arrival>): Option<Trace> {
    if feed == [] then Some(Trace(start, []))
    else
      match Run(start, Front(feed))
      case None => None
      case Some(t) =>
        var a := Last(feed);
        match Decide(a.evidence, a.judge, t.cursor)
        case None => None
        case Some(d) => Some(if IsAccepted(d) then Trace(d.next, t.accepted + [a.evidence]) else t)
  }

  function IdsOf(es: seq<Evidence>): seq<string> {
    if es == [] then [] else IdsOf(Front(es)) + [Last(es).eventId]
  }

  lemma {:induction false} IdsOfMeans(es: seq<Evidence>)
    ensures |IdsOf(es)| == |es| && forall i :: 0 <= i < |es| ==> IdsOf(es)[i] == es[i].eventId
  {
    if es != [] { IdsOfMeans(Front(es)); }
  }

  /** What every run from the empty cursor keeps. */
  predicate Kept(t: Trace, source: string, capability: string) {
    && CursorValid(t.cursor) && t.cursor.source == source && t.cursor.capability == capability
    && t.cursor.seen == Recent(IdsOf(t.accepted))
    && (t.accepted != [] ==> t.cursor.lastEvent == Some(Last(t.accepted).eventId))
    && (forall e <- t.accepted ::
          && (e.source, e.capability) == (source, capability)
          && e.availability !in {Disabled, NotConfigured}
          && t.cursor.lastObserved.Some? && e.observed <= t.cursor.lastObserved.value
          && t.cursor.lastReceived.Some? && e.received <= t.cursor.lastReceived.value
          && (e.sequence.Some? ==> t.cursor.lastSequence.Some? && e.sequence.value <= t.cursor.lastSequence.value))
  }

  lemma StepKeeps(t: Trace, source: string, capability: string, a: Arrival)
    requires Kept(t, source, capability)
    ensures var d := Decide(a.evidence, a.judge, t.cursor);
            d.Some? && (IsAccepted(d.value) ==> Kept(Trace(d.value.next, t.accepted + [a.evidence]), source, capability))
  {
    hide Distinct, Recent, Remember;
    NoGuardIsRaised(a.evidence, a.judge, t.cursor);
    FrontOfAppend(t.accepted, a.evidence);
    if Refusal(a.evidence, a.judge, t.cursor).None? {
      RememberIsRecent(IdsOf(t.accepted), a.evidence.eventId);
    }
  }

  /** Every run from the empty cursor succeeds and its window is the tail of what it accepted. */
  lemma {:induction false} RunsKeep(source: string, capability: string, feed: seq<Arrival>)
    ensures Run(Empty(source, capability), feed).Some?
    ensures Kept(Run(Empty(source, capability), feed).value, source, capability)
  {
    hide Kept, Decide;
    if feed == [] {
      EmptyIsKept(source, capability);
    } else {
      RunsKeep(source, capability, Front(feed));
      StepKeeps(Run(Empty(source, capability), Front(feed)).value, source, capability, Last(feed));
    }
  }

  lemma EmptyIsKept(source: string, capability: string)
    ensures Kept(Trace(Empty(source, capability), []), source, capability)
  {
  }

  // ---- health does not steer replay ------------------------------------------------------

  predicate Unconfigured(e: Evidence) { e.availability in {Disabled, NotConfigured} }

  /** Two reports of the same fact that may differ in how healthy the source says it is. */
  predicate SameFact(e: Evidence, f: Evidence) {
    && f == e.(availability := f.availability, freshness := f.freshness, confidence := f.confidence)
    && (Unconfigured(e) <==> Unconfigured(f))
  }

  lemma SameFactSameStep(e: Evidence, f: Evidence, j: Judge, c: Cursor)
    requires SameFact(e, f) && CursorValid(c)
    ensures Decide(e, j, c).Some? && Decide(f, j, c).Some?
    ensures IsAccepted(Decide(e, j, c).value) <==> IsAccepted(Decide(f, j, c).value)
    ensures IsAccepted(Decide(e, j, c).value) ==> Decide(e, j, c).value.next == Decide(f, j, c).value.next
  {
    hide CursorValid, Remember;
    NoGuardIsRaised(e, j, c);
    NoGuardIsRaised(f, j, c);
  }

  predicate SameFeed(feed: seq<Arrival>, other: seq<Arrival>) {
    && |feed| == |other|
    && forall i :: 0 <= i < |feed| ==> feed[i].judge == other[i].judge && SameFact(feed[i].evidence, other[i].evidence)
  }

  /** Degraded evidence counts for replay exactly as healthy evidence does: whatever the sources
      report about their health, the same facts are accepted and the cursor ends the same. */
  lemma {:induction false} HealthDoesNotSteerReplay(source: string, capability: string, feed: seq<Arrival>, other: seq<Arrival>)
    requires SameFeed(feed, other)
    ensures var t, u := Run(Empty(source, capability), feed), Run(Empty(source, capability), other);
            && t.Some? && u.Some? && t.value.cursor == u.value.cursor
            && |t.value.accepted| == |u.value.accepted|
            && forall i :: 0 <= i < |t.value.accepted| ==> SameFact(t.value.accepted[i], u.value.accepted[i])
  {
    hide Decide, SameFact, Kept;
    RunsKeep(source, capability, feed);
    RunsKeep(source, capability, other);
    if feed != [] {
      HealthDoesNotSteerReplay(source, capability, Front(feed), Front(other));
      RunsKeep(source, capability, Front(feed));
      RunsKeep(source, capability, Front(other));
      var c := Run(Empty(source, capability), Front(feed)).value.cursor;
      KeptIsValid(Run(Empty(source, capability), Front(feed)).value, source, capability);
      var n := |feed| - 1;
      SameFactSameStep(feed[n].evidence, other[n].evidence, feed[n].judge, c);
    }
  }

  lemma KeptIsValid(t: Trace, source: string, capability: string)
    requires Kept(t, source, capability)
    ensures CursorValid(t.cursor)
  {
  }

  /** Sequenced evidence accepted once is refused for ever after. */
  lemma SequencedNeverAcceptedAgain(source: string, capability: string, feed: seq<Arrival>, e: Evidence, j: Judge)
    requires Run(Empty(source, capability), feed).Some?
    requires e in Run(Empty(source, capability), feed).value.accepted && e.sequence.Some?
    ensures var d := Decide(e, j, Run(Empty(source, capability), feed).value.cursor);
            d.Some? && !IsAccepted(d.value)
  {
    hide Decide;
    RunsKeep(source, capability, feed);
    NoGuardIsRaised(e, j, Run(Empty(source, capability), feed).value.cursor);
  }

  /** Evidence without a sequence number is accepted again exactly when its id has left the
      window, nothing later has been observed, and the clock checks of the second delivery pass. */
  lemma UnsequencedAcceptedAgainIff(source: string, capability: string, feed: seq<Arrival>, e: Evidence, j: Judge)
    requires Run(Empty(source, capability), feed).Some?
    requires e in Run(Empty(source, capability), feed).value.accepted && e.sequence.None?
    ensures var c := Run(Empty(source, capability), feed).value.cursor;
            && Decide(e, j, c).Some? && c.lastObserved.Some? && c.lastReceived.Some?
            && (IsAccepted(Decide(e, j, c).value) <==>
                  && !Contains(c, e.eventId)
                  && e.observed == c.lastObserved.value
                  && c.lastReceived.value - e.received <= j.skew && c.lastReceived.value - e.received <= j.jump
                  && !ClockRefuses(e, j)
                  && (e.expires.None? || j.now < e.expires.value))
  {
    hide Decide;
    RunsKeep(source, capability, feed);
    NoGuardIsRaised(e, j, Run(Empty(source, capability), feed).value.cursor);
  }

  /** A second acceptance therefore needs a full window of acceptances in between. */
  lemma AcceptedAgainAfterAWindow(source: string, capability: string, feed: seq<Arrival>, k: nat, j: Judge)
    requires Run(Empty(source, capability), feed).Some?
    requires k < |Run(Empty(source, capability), feed).value.accepted|
    requires var t := Run(Empty(source, capability), feed).value;
             Decide(t.accepted[k], j, t.cursor).Some? && IsAccepted(Decide(t.accepted[k], j, t.cursor).value)
    ensures k + WINDOW < |Run(Empty(source, capability), feed).value.accepted|
  {
    hide Decide, Recent;
    var t := Run(Empty(source, capability), feed).value;
    RunsKeep(source, capability, feed);
    NoGuardIsRaised(t.accepted[k], j, t.cursor);
    IdsOfMeans(t.accepted);
    if |t.accepted| <= k + WINDOW {
      KeptForAWindow(IdsOf(t.accepted), k);
    }
  }

  // ---- the second acceptance does happen ---------------------------------------------

  function Repeated(n: nat): string { if n == 0 then "" else Repeated(n - 1) + "a" }

  /** Names that fit the 256-byte limit on event ids and are all different. */
  function Name(n: nat): string { if n < WINDOW then Repeated(n + 1) else "b" }

  lemma {:induction false} RepeatedMeans(n: nat)
    ensures |Repeated(n)| == n && forall i :: 0 <= i < n ==> Repeated(n)[i] == 'a'
  {
    if n > 0 { RepeatedMeans(n - 1); }
  }

  lemma NamesDiffer(m: nat, n: nat)
    requires m < n <= WINDOW
    ensures Name(m) != Name(n)
  {
    RepeatedMeans(m + 1);
    RepeatedMeans(n + 1);
    assert Name(m)[0] == 'a';
  }

  function Fact(n: nat): Evidence { Evidence(Name(n), "s", "c", 0, 0, None, Available, Fresh, 1.0, None) }

  function Burst(n: nat): seq<Arrival> { if n == 0 then [] else Burst(n - 1) + [Arrival(Fact(n - 1), Judge(0, 0, 0))] }

  function Facts(n: nat): seq<Evidence> { if n == 0 then [] else Facts(n - 1) + [Fact(n - 1)] }

  lemma {:induction false} FactsMean(n: nat)
    ensures |Facts(n)| == n && forall i :: 0 <= i < n ==> Facts(n)[i] == Fact(i)
  {
    if n > 0 { FactsMean(n - 1); }
  }

  /** A name not among the first n facts is not in the window either. */
  lemma NotRemembered(n: nat, id: string)
    requires forall i :: 0 <= i < n ==> Fact(i).eventId != id
    ensures id !in Recent(IdsOf(Facts(n)))
  {
    hide Name, IdsOf, Facts;
    var ids := IdsOf(Facts(n));
    var gone := if |ids| > WINDOW then |ids| - WINDOW else 0;
    FactsMean(n);
    IdsOfMeans(Facts(n));
    forall i | 0 <= i < |Recent(ids)| ensures Recent(ids)[i] != id {
      assert Recent(ids)[i] == ids[i + gone] == Fact(i + gone).eventId;
    }
  }

  /** The cursor between two facts of the burst. */
  predicate MidBurst(c: Cursor) {
    && CursorValid(c) && c.source == "s" && c.capability == "c" && c.lastSequence == None
    && c.lastObserved in {None, Some(0)} && c.lastReceived in {None, Some(0)}
  }

  lemma FactIsAccepted(c: Cursor, n: nat)
    requires MidBurst(c) && !Contains(c, Name(n))
    ensures var d := Decide(Fact(n), Judge(0, 0, 0), c);
            d.Some? && IsAccepted(d.value) && MidBurst(d.value.next)
  {
    hide Name, Remember, Contains;
    NoGuardIsRaised(Fact(n), Judge(0, 0, 0), c);
    RememberKeepsShape(c.seen, Name(n));
  }

  lemma {:induction false} BurstIsAccepted(n: nat)
    requires n <= WINDOW + 1
    ensures Run(Empty("s", "c"), Burst(n)).Some? && Run(Empty("s", "c"), Burst(n)).value.accepted == Facts(n)
    ensures MidBurst(Run(Empty("s", "c"), Burst(n)).value.cursor)
  {
    hide Recent, Name, Decide, Contains, IdsOf;
    if n > 0 {
      BurstIsAccepted(n - 1);
      FrontOfAppend(Burst(n - 1), Arrival(Fact(n - 1), Judge(0, 0, 0)));
      NextIsNew(n - 1);
      FactIsAccepted(Run(Empty("s", "c"), Burst(n - 1)).value.cursor, n - 1);
    }
  }

  lemma NextIsNew(n: nat)
    requires n <= WINDOW
    requires Run(Empty("s", "c"), Burst(n)).Some? && Run(Empty("s", "c"), Burst(n)).value.accepted == Facts(n)
    ensures !Contains(Run(Empty("s", "c"), Burst(n)).value.cursor, Name(n))
  {
    hide Recent, Name, Decide, Run;
    var t := Run(Empty("s", "c"), Burst(n)).value;
    RunsKeep("s", "c", Burst(n));
    forall i | 0 <= i < n ensures Name(i) != Name(n) { NamesDiffer(i, n); }
    NotRemembered(n, Name(n));
    if n == 0 {
      assert Burst(0) == [] && t.cursor == Empty("s", "c") by { EmptyRun(); }
    } else {
      FactsMean(n);
      assert Last(t.accepted) == Facts(n)[n - 1] == Fact(n - 1);
    }
  }

  lemma EmptyRun()
    ensures Run(Empty("s", "c"), Burst(0)) == Some(Trace(Empty("s", "c"), []))
  {
  }

  /** 257 facts of one instant, and the first of them delivered again: accepted twice. */
  lemma FirstOfABurstIsAcceptedAgain()
    ensures var run := Run(Empty("s", "c"), Burst(WINDOW + 1));
            && run.Some? && Fact(0) in run.value.accepted
            && Decide(Fact(0), Judge(0, 0, 0), run.value.cursor).Some?
            && IsAccepted(Decide(Fact(0), Judge(0, 0, 0), run.value.cursor).value)
  {
    hide Recent, Name, Decide, Run, Facts, Burst, IdsOf;
    var n := WINDOW + 1;
    BurstIsAccepted(n);
    FactsMean(n);
    RunsKeep("s", "c", Burst(n));
    var t := Run(Empty("s", "c"), Burst(n)).value;
    assert t.accepted[0] == Fact(0);
    FirstIsForgotten();
    NamesDiffer(0, WINDOW);
    assert Last(Facts(n)) == Facts(n)[WINDOW] == Fact(WINDOW);
    UnsequencedAcceptedAgainIff("s", "c", Burst(n), Fact(0), Judge(0, 0, 0));
  }

  lemma FirstIsForgotten()
    ensures Name(0) !in Recent(IdsOf(Facts(WINDOW + 1)))
  {
    hide Name;
    var ids := IdsOf(Facts(WINDOW + 1));
    FactsMean(WINDOW + 1);
    IdsOfMeans(Facts(WINDOW + 1));
    forall i | 0 <= i < WINDOW ensures Recent(ids)[i] != Name(0) {
      assert Recent(ids)[i] == ids[i + 1] == Name(i + 1);
      NamesDiffer(0, i + 1);
    }
  }
}
