/** Announcements that are never made: which later calls still deliver a marker that a stopped call
    left in the panel file, and when no call ever will (panel.py:680-715, 989-1260). */
module PanelLosses {
  import opened Basics
  import opened PanelModel
  import opened PanelOutbox
  import opened PanelSettlement
  import opened PanelConflicts

  // ---- what a call writes and emits ------------------------------------------------------

  function FileOf(zone: Zone, w: World, op: Op): State { ReadState(zone, w.disk, ClockOf(op)) }

  function KeyOf(op: Op): string
    requires !op.Rollover?
  {
    if op.SetField? then StorageKey(op.args.owner, op.args.name) else StorageKey(op.owner, op.name)
  }

  /** The call has been made before: a set is stored under its source event, a consume has consumed. */
  predicate Known(zone: Zone, w: World, op: Op)
    requires !op.Rollover?
  {
    var s, key := FileOf(zone, w, op), KeyOf(op);
    key in s.fields && if op.SetField? then s.fields[key].sourceEvent == op.args.sourceEvent else s.fields[key].consumedBy.Some?
  }

  /** The marker an admitted call delivers. */
  function Marker(zone: Zone, w: World, op: Op): Projection
    requires !op.Rollover? && AnnouncedField(zone, w, op).Some?
  {
    MarkerOf(op, AnnouncedField(zone, w, op).value)
  }

  /** The file an admitted call delivers from. */
  function Marked(zone: Zone, w: World, op: Op): State
    requires !op.Rollover? && AnnouncedField(zone, w, op).Some?
  {
    var s, f, p := FileOf(zone, w, op), AnnouncedField(zone, w, op).value, Marker(zone, w, op);
    var kept := s.(projections := s.projections[p.Id() := p]);
    if Known(zone, w, op) then kept
    else
      match op
      case SetField(a) => kept.(fields := s.fields[KeyOf(op) := f], ownerEpochs := s.ownerEpochs[a.owner := f.epoch])
      case Consume(_, _, event, now) => kept.(fields := s.fields[KeyOf(op) := f.(consumedBy := Some(event), consumedAt := Some(now))])
  }

  /** The first step of a call that finds its marker in the file is the delivery, otherwise the
      second. */
  predicate Waiting(zone: Zone, w: World, op: Op)
    requires !op.Rollover? && AnnouncedField(zone, w, op).Some?
  {
    Known(zone, w, op) && Marker(zone, w, op).Id() in FileOf(zone, w, op).projections
  }

  lemma AdmittedSteps(zone: Zone, w: World, op: Op)
    requires Kept(w) && Admitted(zone, w, op)
    ensures !op.Rollover? && AnnouncedField(zone, w, op).Some?
    ensures var tail := Tail(w.bus, Marked(zone, w, op), Marker(zone, w, op));
            AttemptOf(zone, w, op).steps == if Waiting(zone, w, op) then tail else [Write(Marked(zone, w, op))] + tail
  {
    hide Finish, Tail;
    match op
    case SetField(a) =>
      var s, key := ReadState(zone, w.disk, a.observedAt), StorageKey(a.owner, a.name);
      if key in s.fields { StorageKeyInjective(a.owner, a.name, s.fields[key].owner, s.fields[key].name); }
      if key in s.fields && s.fields[key].sourceEvent == a.sourceEvent {
        RedeliverSteps(w, s, s.fields[key], UpdateProjection(s.fields[key]));
      } else {
        var f := Typed(zone, a);
        StoreSteps(w.bus, s.(ownerEpochs := s.ownerEpochs[a.owner := f.epoch]), UpdateProjection(f), f);
      }
    case Consume(owner, name, event, now) =>
      var s, key := ReadState(zone, w.disk, now), StorageKey(owner, name);
      var f := s.fields[key];
      StorageKeyInjective(owner, name, f.owner, f.name);
      if f.consumedBy.Some? {
        RedeliverSteps(w, s, f, ConsumeProjection(f));
      } else {
        StoreSteps(w.bus, s, ConsumeProjection(f), f.(consumedBy := Some(event), consumedAt := Some(now)));
      }
  }

  lemma RedeliverSteps(w: World, s: State, f: Field, p: Projection)
    requires p.status.PendingDelivery? && (p.Id() in s.projections ==> s.projections[p.Id()] == p)
    ensures var marked := s.(projections := s.projections[p.Id() := p]);
            Redeliver(w.bus, s, p, f).steps ==
            if p.Id() in s.projections then Tail(w.bus, marked, p) else [Write(marked)] + Tail(w.bus, marked, p)
  {
    var marked := s.(projections := s.projections[p.Id() := p]);
    if p.Id() in s.projections {
      assert marked.projections == s.projections;
      FinishIsTail(w.bus, s, p, [], f);
      assert [] + Tail(w.bus, s, p) == Tail(w.bus, s, p);
    } else {
      FinishIsTail(w.bus, marked, p, [Write(marked)], f);
    }
  }

  lemma StoreSteps(bus: seq<BusEvent>, s: State, p: Projection, f: Field)
    requires p.status.PendingDelivery?
    ensures var marked := s.(fields := s.fields[StorageKey(f.owner, f.name) := f], projections := s.projections[p.Id() := p]);
            StoreAndFinish(bus, s, p, f).steps == [Write(marked)] + Tail(bus, marked, p)
  {
    var marked := s.(fields := s.fields[StorageKey(f.owner, f.name) := f], projections := s.projections[p.Id() := p]);
    FinishIsTail(bus, marked, p, [Write(marked)], f);
  }

  lemma RefusedSteps(zone: Zone, w: World, op: Op)
    requires Kept(w) && !op.Rollover? && !Admitted(zone, w, op)
    ensures AttemptOf(zone, w, op).steps == []
  {
    hide Redeliver, StoreAndFinish;
    match op
    case SetField(a) =>
      var s, key := ReadState(zone, w.disk, a.observedAt), StorageKey(a.owner, a.name);
      if key in s.fields && ArgumentsFit(a) {
        StorageKeyInjective(a.owner, a.name, s.fields[key].owner, s.fields[key].name);
      }
    case Consume(_, _, _, _) =>
  }

  // ---- when a projection gets onto the bus -----------------------------------------------

  predicate EmitsNot(steps: seq<Step>, id: ProjectionId) {
    forall step <- steps :: step.Emit? && step.event.PanelEvent? ==> step.event.id != id
  }

  lemma {:induction false} NotEmittedNotOnBus(w: World, steps: seq<Step>, id: ProjectionId)
    requires EmitsNot(steps, id)
    ensures OnBus(Exec(w, steps).bus, id) == OnBus(w.bus, id)
    decreases |steps|
  {
    if steps != [] {
      assert steps[0] in steps && forall step <- steps[1..] :: step in steps;
      if steps[0].Emit? { CountAppend(w.bus, steps[0].event, id); }
      NotEmittedNotOnBus(Do(w, steps[0]), steps[1..], id);
    }
  }

  lemma EmittedIsOnBus(w: World, before: seq<Step>, e: BusEvent, after: seq<Step>)
    requires e.PanelEvent? && |before| <= 1
    ensures OnBus(Exec(w, before + [Emit(e)] + after).bus, e.id).Some?
  {
    var v := if before == [] then w else Do(w, before[0]);
    var steps := before + [Emit(e)] + after;
    assert Exec(w, steps) == Exec(v, [Emit(e)] + after) by {
      if before == [] {
        assert steps == [Emit(e)] + after;
      } else {
        assert steps[1..] == [Emit(e)] + after;
      }
    }
    assert ([Emit(e)] + after)[1..] == after;
    CountAppend(v.bus, e, e.id);
    BusOnlyGrows(Do(v, Emit(e)), after);
    FirstStaysFirst(v.bus + [e], Exec(v, [Emit(e)] + after).bus, e.id);
  }

  /** A call that is not turned away and gets as far as the delivery of this projection. */
  predicate Emits(zone: Zone, w: World, op: Op, n: nat, id: ProjectionId) {
    && Admitted(zone, w, op) && !op.Rollover? && AnnouncedField(zone, w, op).Some?
    && Marker(zone, w, op).Id() == id && n >= if Waiting(zone, w, op) then 1 else 2
  }

  function Reached(zone: Zone, w: World, op: Op, n: nat): seq<Step> {
    var steps := AttemptOf(zone, w, op).steps;
    steps[..if n < |steps| then n else |steps|]
  }

  lemma OnBusIffEmitted(zone: Zone, w: World, op: Op, n: nat, id: ProjectionId)
    requires Kept(w) && OnBus(w.bus, id).None?
    ensures OnBus(Exec(w, Reached(zone, w, op, n)).bus, id).Some? <==> Emits(zone, w, op, n, id)
  {
    hide Kept, Admitted, AttemptSet, AttemptConsume, Marked, Known, AnnouncedField;
    var steps, reached := AttemptOf(zone, w, op).steps, Reached(zone, w, op, n);
    if op.Rollover? {
      NotEmittedNotOnBus(w, reached, id);
    } else if !Admitted(zone, w, op) {
      RefusedSteps(zone, w, op);
    } else {
      AdmittedSteps(zone, w, op);
      var marked, p := Marked(zone, w, op), Marker(zone, w, op);
      if Emits(zone, w, op, n, id) {
        var before := if Waiting(zone, w, op) then [] else [Write(marked)];
        var e := PanelEvent(p.Id(), p.Body());
        assert steps == before + [Emit(e), Write(Compacted(marked, id))];
        assert reached == before + [Emit(e)] + reached[|before| + 1..];
        EmittedIsOnBus(w, before, e, reached[|before| + 1..]);
      } else {
        assert EmitsNot(reached, id);
        NotEmittedNotOnBus(w, reached, id);
      }
    }
  }

  predicate Delivers(zone: Zone, w: World, e: Event, id: ProjectionId) { e.Panel? && Emits(zone, w, e.op, e.steps, id) }

  lemma OnBusIffDelivered(zone: Zone, w: World, e: Event, id: ProjectionId)
    requires Kept(w) && OnBus(w.bus, id).None?
    ensures OnBus(Happen(zone, w, e).bus, id).Some? <==> Delivers(zone, w, e, id)
  {
    hide Kept, AttemptOf, Emits;
    match e
    case Elsewhere(name) => CountAppend(w.bus, OtherEvent(name), id);
    case Panel(op, n) => OnBusIffEmitted(zone, w, op, n, id);
  }

  lemma HappenKept(zone: Zone, w: World, e: Event)
    requires Kept(w)
    ensures Kept(Happen(zone, w, e)) && w.bus <= Happen(zone, w, e).bus
  {
    hide Kept, AttemptOf;
    match e
    case Elsewhere(name) => ElsewhereKept(w, name);
    case Panel(op, n) =>
      OperationKept(zone, w, op, |Reached(zone, w, op, n)|);
      BusOnlyGrows(w, Reached(zone, w, op, n));
  }

  /** Some event along the way delivers. */
  ghost predicate EverDelivers(zone: Zone, w: World, events: seq<Event>, id: ProjectionId) {
    exists i :: 0 <= i < |events| && Delivers(zone, After(zone, w, events[..i]), events[i], id)
  }

  lemma OneMoreDelivery(zone: Zone, w: World, events: seq<Event>, id: ProjectionId)
    requires events != []
    ensures EverDelivers(zone, w, events, id) <==>
            EverDelivers(zone, w, Front(events), id) || Delivers(zone, After(zone, w, Front(events)), Last(events), id)
  {
    hide After, Delivers;
    var before, n := Front(events), |events| - 1;
    assert events[..n] == before;
    assert forall i :: 0 <= i < n ==> before[..i] == events[..i] && before[i] == events[i];
  }

  /** From any world on, a projection gets onto the bus exactly when some call of its own source
      event is admitted and reaches its delivery. */
  lemma {:induction false} DeliveredIff(zone: Zone, w: World, events: seq<Event>, id: ProjectionId)
    requires Kept(w) && OnBus(w.bus, id).None?
    ensures Kept(After(zone, w, events))
    ensures OnBus(After(zone, w, events).bus, id).Some? <==> EverDelivers(zone, w, events, id)
  {
    hide Kept, Happen, Delivers, OnBus;
    if events != [] {
      hide EverDelivers;
      var v, e := After(zone, w, Front(events)), Last(events);
      DeliveredIff(zone, w, Front(events), id);
      OneMoreDelivery(zone, w, events, id);
      HappenKept(zone, v, e);
      if OnBus(v.bus, id).Some? {
        FirstStaysFirst(v.bus, Happen(zone, v, e).bus, id);
      } else {
        OnBusIffDelivered(zone, v, e, id);
      }
    }
  }

  // ---- overtaken markers -----------------------------------------------------------------

  lemma EpochsFollowTime(zone: Zone, t: int, u: int)
    requires t <= u
    ensures EpochOf(zone, t) <= EpochOf(zone, u)
  {
  }

  /** Fields carry the epoch of the time they were observed at. */
  predicate Dated(zone: Zone, s: State) {
    forall k <- s.fields :: s.fields[k].epoch == EpochOf(zone, s.fields[k].observedAt)
  }

  /** The marker's source event is no longer stored: a field observed at t or later took its place, or
      that one was reset away in turn. */
  predicate Overtaken(zone: Zone, s: State, p: Projection, t: int) {
    var key := StorageKey(p.owner, p.field);
    && PlainText(p.owner) && PlainText(p.field) && p.owner in s.ownerEpochs
    && p.Id() in s.projections && s.projections[p.Id()] == p
    && if key in s.fields then s.fields[key].sourceEvent != p.sourceEvent && t <= s.fields[key].observedAt
       else EpochOf(zone, t) < s.ownerEpochs[p.owner]
  }

  /** A call announcing this marker's source event as observed after t. */
  predicate SightedLater(op: Op, p: Projection, t: int) {
    && op.SetField? && op.args.owner == p.owner && op.args.name == p.field && op.args.sourceEvent == p.sourceEvent
    && op.args.observedAt > t
  }

  /** The calls that could deliver an overtaken marker are turned away. */
  lemma OvertakenIsTurnedAway(zone: Zone, w: World, op: Op, p: Projection, t: int)
    requires Kept(w) && w.disk.Some? && Overtaken(zone, w.disk.value, p, t) && !SightedLater(op, p, t)
    requires Admitted(zone, w, op) && !op.Rollover? && AnnouncedField(zone, w, op).Some?
    ensures Marker(zone, w, op).Id() != p.Id()
    ensures op.SetField? && KeyOf(op) == StorageKey(p.owner, p.field) ==> op.args.sourceEvent != p.sourceEvent
  {
    var s := w.disk.value;
    match op
    case SetField(a) =>
      if KeyOf(op) == StorageKey(p.owner, p.field) {
        StorageKeyInjective(a.owner, a.name, p.owner, p.field);
        if a.observedAt <= t { EpochsFollowTime(zone, a.observedAt, t); }
      }
      assert AnnouncedField(zone, w, op).value.sourceEvent == a.sourceEvent;
      OwnField(w, KeyOf(op));
      if KeyOf(op) in s.fields { StorageKeyInjective(a.owner, a.name, s.fields[KeyOf(op)].owner, s.fields[KeyOf(op)].name); }
    case Consume(owner, name, event, now) =>
      OwnField(w, KeyOf(op));
      StorageKeyInjective(owner, name, s.fields[KeyOf(op)].owner, s.fields[KeyOf(op)].name);
  }

  lemma OwnField(w: World, key: string)
    requires Kept(w) && w.disk.Some?
    ensures key in w.disk.value.fields ==>
              var f := w.disk.value.fields[key]; PlainText(f.owner) && PlainText(f.name) && key == StorageKey(f.owner, f.name)
  {
  }

  lemma MarkedIsDated(zone: Zone, w: World, op: Op)
    requires Kept(w) && (w.disk.Some? ==> Dated(zone, w.disk.value))
    requires Admitted(zone, w, op) && !op.Rollover? && AnnouncedField(zone, w, op).Some?
    ensures Dated(zone, Marked(zone, w, op)) && Dated(zone, Compacted(Marked(zone, w, op), Marker(zone, w, op).Id()))
  {
    hide Kept, EpochOf;
  }

  /** Every file a call writes is dated. */
  lemma OperationKeepsDates(zone: Zone, w: World, op: Op)
    requires Kept(w) && (w.disk.Some? ==> Dated(zone, w.disk.value))
    ensures forall step <- AttemptOf(zone, w, op).steps :: step.Write? ==> Dated(zone, step.state)
  {
    hide Kept, Admitted, AttemptSet, AttemptConsume, Marked, EpochOf;
    if op.Rollover? {
    } else if !Admitted(zone, w, op) {
      RefusedSteps(zone, w, op);
    } else {
      AdmittedSteps(zone, w, op);
      MarkedIsDated(zone, w, op);
    }
  }

  lemma HappenKeepsDates(zone: Zone, w: World, e: Event)
    requires Kept(w) && (w.disk.Some? ==> Dated(zone, w.disk.value))
    ensures Happen(zone, w, e).disk.Some? ==> Dated(zone, Happen(zone, w, e).disk.value)
  {
    hide Kept, Dated, AttemptOf;
    match e
    case Elsewhere(name) =>
    case Panel(op, n) =>
      OperationKeepsDates(zone, w, op);
      LastWrite(w, Reached(zone, w, op, n));
      assert forall step <- Reached(zone, w, op, n) :: step in AttemptOf(zone, w, op).steps;
  }

  /** Over any run the file's fields carry the epoch of their observation. */
  lemma {:induction false} RunsKeepDates(zone: Zone, events: seq<Event>)
    ensures Run(zone, events).disk.Some? ==> Dated(zone, Run(zone, events).disk.value)
  {
    hide Dated, Happen, Kept;
    if events != [] {
      RunsKeepDates(zone, Front(events));
      RunsDeliverAtMostOnce(zone, Front(events));
      HappenKeepsDates(zone, Run(zone, Front(events)), Last(events));
    }
  }

  /** Every file such a call writes still has the marker, and its source event is still overtaken. */
  lemma MarkedStaysOvertaken(zone: Zone, w: World, op: Op, p: Projection, t: int)
    requires Kept(w) && w.disk.Some? && Dated(zone, w.disk.value) && Overtaken(zone, w.disk.value, p, t) && !SightedLater(op, p, t)
    requires Admitted(zone, w, op) && !op.Rollover? && AnnouncedField(zone, w, op).Some?
    ensures Overtaken(zone, Marked(zone, w, op), p, t)
    ensures Overtaken(zone, Compacted(Marked(zone, w, op), Marker(zone, w, op).Id()), p, t)
  {
    hide Kept, EpochOf;
    OvertakenIsTurnedAway(zone, w, op, p, t);
    var s, key := w.disk.value, KeyOf(op);
    if op.SetField? {
      if op.args.observedAt < t { EpochsFollowTime(zone, op.args.observedAt, t); }
      if key == StorageKey(p.owner, p.field) && PlainText(op.args.owner) && PlainText(op.args.name) {
        StorageKeyInjective(op.args.owner, op.args.name, p.owner, p.field);
      }
    }
  }

  lemma RolloverStaysOvertaken(zone: Zone, w: World, owner: string, now: int, p: Projection, t: int)
    requires Kept(w) && w.disk.Some? && Dated(zone, w.disk.value) && Overtaken(zone, w.disk.value, p, t)
    ensures forall step <- AttemptRollover(zone, w, owner, now).steps ::
              step.Write? && Overtaken(zone, step.state, p, t)
  {
    hide EpochOf;
    var s, key := w.disk.value, StorageKey(p.owner, p.field);
    OwnField(w, key);
    if key in s.fields {
      StorageKeyInjective(s.fields[key].owner, s.fields[key].name, p.owner, p.field);
      EpochsFollowTime(zone, t, s.fields[key].observedAt);
    }
  }

  lemma OperationStaysOvertaken(zone: Zone, w: World, op: Op, p: Projection, t: int)
    requires Kept(w) && w.disk.Some? && Dated(zone, w.disk.value) && Overtaken(zone, w.disk.value, p, t) && !SightedLater(op, p, t)
    ensures forall step <- AttemptOf(zone, w, op).steps :: step.Write? ==> Overtaken(zone, step.state, p, t)
  {
    hide Kept, Overtaken, Admitted, AttemptSet, AttemptConsume, AttemptRollover, Marked;
    if op.Rollover? {
      RolloverStaysOvertaken(zone, w, op.owner, op.now, p, t);
    } else if !Admitted(zone, w, op) {
      RefusedSteps(zone, w, op);
    } else {
      AdmittedSteps(zone, w, op);
      MarkedStaysOvertaken(zone, w, op, p, t);
    }
  }

  /** A marker still in the file, undelivered, whose source event is no longer stored. */
  ghost predicate Lost(zone: Zone, w: World, p: Projection, t: int) {
    && Kept(w) && w.disk.Some? && Dated(zone, w.disk.value) && Overtaken(zone, w.disk.value, p, t)
    && OnBus(w.bus, p.Id()).None?
  }

  lemma StaysLost(zone: Zone, w: World, e: Event, p: Projection, t: int)
    requires Lost(zone, w, p, t) && (e.Panel? ==> !SightedLater(e.op, p, t))
    ensures Lost(zone, Happen(zone, w, e), p, t)
  {
    hide Kept, Overtaken, Dated, AttemptOf, SightedLater, Admitted, AnnouncedField, Known;
    HappenKept(zone, w, e);
    HappenKeepsDates(zone, w, e);
    OnBusIffDelivered(zone, w, e, p.Id());
    match e
    case Elsewhere(name) =>
    case Panel(op, n) =>
      if Emits(zone, w, op, n, p.Id()) { OvertakenIsTurnedAway(zone, w, op, p, t); }
      OperationStaysOvertaken(zone, w, op, p, t);
      LastWrite(w, Reached(zone, w, op, n));
      assert forall step <- Reached(zone, w, op, n) :: step in AttemptOf(zone, w, op).steps;
  }

  /** Lost for ever: unless its source event is sighted again later than what took its place, no
      events, crashes and retries included, deliver the marker or remove it from the file. */
  lemma {:induction false} LostForEver(zone: Zone, w: World, events: seq<Event>, p: Projection, t: int)
    requires Lost(zone, w, p, t)
    requires forall e <- events :: e.Panel? ==> !SightedLater(e.op, p, t)
    ensures Lost(zone, After(zone, w, events), p, t)
  {
    hide Lost, SightedLater, Happen;
    if events != [] {
      assert Last(events) in events && forall e <- Front(events) :: e in events;
      LostForEver(zone, w, Front(events), p, t);
      StaysLost(zone, After(zone, w, Front(events)), Last(events), p, t);
    }
  }

  // ---- how a marker gets lost, and how it can still be saved -----------------------------

  /** A marker still in the file, undelivered, whose source event is the stored one. */
  ghost predicate Waits(zone: Zone, w: World, id: ProjectionId) {
    var key := StorageKey(id.owner, id.field);
    && Kept(w) && w.disk.Some? && Dated(zone, w.disk.value)
    && PlainText(id.owner) && PlainText(id.field) && OnBus(w.bus, id).None?
    && id in w.disk.value.projections && key in w.disk.value.fields && w.disk.value.fields[key].sourceEvent == id.sourceEvent
  }

  /** The file still has the marker, and its source event is stored, or was overtaken at t. */
  predicate WaitsOrOvertaken(zone: Zone, s: State, id: ProjectionId, t: int) {
    && id in s.projections
    && var key := StorageKey(id.owner, id.field);
       (key in s.fields && s.fields[key].sourceEvent == id.sourceEvent) || Overtaken(zone, s, s.projections[id], t)
  }

  lemma WaitingFiles(zone: Zone, w: World, op: Op, id: ProjectionId)
    requires Waits(zone, w, id) && Admitted(zone, w, op) && !op.Rollover? && AnnouncedField(zone, w, op).Some?
    ensures var t := w.disk.value.fields[StorageKey(id.owner, id.field)].observedAt;
            var marked, own := Marked(zone, w, op), Marker(zone, w, op).Id();
            && WaitsOrOvertaken(zone, marked, id, t)
            && (own != id ==> WaitsOrOvertaken(zone, Compacted(marked, own), id, t))
  {
    hide EpochOf;
    var s, key := w.disk.value, KeyOf(op);
    OwnField(w, StorageKey(id.owner, id.field));
    StorageKeyInjective(s.fields[StorageKey(id.owner, id.field)].owner, s.fields[StorageKey(id.owner, id.field)].name, id.owner, id.field);
    OwnField(w, key);
    if op.SetField? && key == StorageKey(id.owner, id.field) {
      StorageKeyInjective(op.args.owner, op.args.name, id.owner, id.field);
    }
  }

  lemma WaitingRollover(zone: Zone, w: World, owner: string, now: int, id: ProjectionId)
    requires Waits(zone, w, id)
    ensures forall step <- AttemptRollover(zone, w, owner, now).steps ::
              && step.Write?
              && WaitsOrOvertaken(zone, step.state, id, w.disk.value.fields[StorageKey(id.owner, id.field)].observedAt)
  {
    hide EpochOf;
    var s, key := w.disk.value, StorageKey(id.owner, id.field);
    OwnField(w, key);
    StorageKeyInjective(s.fields[key].owner, s.fields[key].name, id.owner, id.field);
  }

  /** The fate of a marker at each event: it is delivered, or goes on waiting, or its source event is
      replaced or reset and the marker is lost as of the time that event was last seen at. */
  lemma MarkerFate(zone: Zone, w: World, e: Event, id: ProjectionId)
    requires Waits(zone, w, id)
    ensures var v, t := Happen(zone, w, e), w.disk.value.fields[StorageKey(id.owner, id.field)].observedAt;
            || OnBus(v.bus, id).Some? || Waits(zone, v, id)
            || (v.disk.Some? && id in v.disk.value.projections && Lost(zone, v, v.disk.value.projections[id], t))
  {
    hide Overtaken, Dated, Admitted, AnnouncedField, Known, AttemptOf, EpochOf;
    var v, t := Happen(zone, w, e), w.disk.value.fields[StorageKey(id.owner, id.field)].observedAt;
    HappenKept(zone, w, e);
    HappenKeepsDates(zone, w, e);
    OnBusIffDelivered(zone, w, e, id);
    if e.Panel? && OnBus(v.bus, id).None? {
      var op, reached := e.op, Reached(zone, w, e.op, e.steps);
      UndeliveredFiles(zone, w, op, e.steps, id);
      LastWrite(w, reached);
    }
  }

  lemma UndeliveredFiles(zone: Zone, w: World, op: Op, n: nat, id: ProjectionId)
    requires Waits(zone, w, id) && !Emits(zone, w, op, n, id)
    ensures var t := w.disk.value.fields[StorageKey(id.owner, id.field)].observedAt;
            forall step <- Reached(zone, w, op, n) :: step.Write? ==> WaitsOrOvertaken(zone, step.state, id, t)
  {
    hide WaitsOrOvertaken, Admitted, AnnouncedField, Known, AttemptSet, AttemptConsume, AttemptRollover, Marked, EpochOf;
    if op.Rollover? {
      WaitingRollover(zone, w, op.owner, op.now, id);
    } else if !Admitted(zone, w, op) {
      RefusedSteps(zone, w, op);
    } else {
      AdmittedSteps(zone, w, op);
      WaitingFiles(zone, w, op, id);
    }
  }

  /** Repeating the call that left a lost marker changes nothing: a set is answered with the field that
      took its place, or refused; a consume is refused. */
  lemma RepeatIsTurnedAway(zone: Zone, w: World, op: Op, p: Projection, t: int)
    requires Lost(zone, w, p, t) && !op.Rollover? && op.Owner() == p.owner && KeyOf(op) == StorageKey(p.owner, p.field)
    requires if op.SetField? then op.args.sourceEvent == p.sourceEvent && op.args.observedAt <= t && ArgumentsFit(op.args)
             else op.sourceEvent == p.sourceEvent
    ensures AttemptOf(zone, w, op).steps == []
    ensures var fields, key, reply := w.disk.value.fields, KeyOf(op), AttemptOf(zone, w, op).reply;
            if op.SetField? then
              reply == if key !in fields then Err(StaleForOwner)
                       else if op.args.observedAt == t == fields[key].observedAt && EpochOf(zone, t) == w.disk.value.ownerEpochs[p.owner]
                       then Err(SameInstant) else Ok(Current(fields[key]))
            else reply.Err?
  {
    hide EpochOf;
    var s, key := w.disk.value, KeyOf(op);
    if op.SetField? {
      EpochsFollowTime(zone, op.args.observedAt, t);
      OwnField(w, key);
      if key in s.fields {
        StorageKeyInjective(s.fields[key].owner, s.fields[key].name, p.owner, p.field);
        EpochsFollowTime(zone, op.args.observedAt, s.fields[key].observedAt);
        assert s.fields[key].epoch <= s.ownerEpochs[p.owner];
      }
    }
  }

  /** The only way back: the source event is announced again, at a time and epoch that come after what
      the owner has by now, and not over a consume-once field. */
  lemma SightedAgainIff(zone: Zone, w: World, a: SetArgs, p: Projection, t: int)
    requires Lost(zone, w, p, t) && p.kind.FieldUpdated?
    requires a.owner == p.owner && a.name == p.field && a.sourceEvent == p.sourceEvent
    ensures var s, key, attempt := w.disk.value, StorageKey(a.owner, a.name), AttemptOf(zone, w, SetField(a));
            OnBus(Exec(w, attempt.steps).bus, p.Id()).Some? <==>
            && ArgumentsFit(a) && s.ownerEpochs[a.owner] <= EpochOf(zone, a.observedAt)
            && (key in s.fields ==> s.fields[key].observedAt < a.observedAt && !s.fields[key].consume.Once?)
  {
    hide EpochOf, Finish;
    var s, key, op := w.disk.value, StorageKey(a.owner, a.name), SetField(a);
    var steps := AttemptOf(zone, w, op).steps;
    OwnField(w, key);
    OnBusIffEmitted(zone, w, op, |steps| + 2, p.Id());
    assert steps[..|steps|] == steps;
    if key in s.fields && s.fields[key].observedAt < a.observedAt { EpochsFollowTime(zone, s.fields[key].observedAt, a.observedAt); }
  }

  // ---- it does happen ------------------------------------------------------------------

  /** A set stopped after its first write, and a newer source event: the first announcement is lost. */
  lemma MarkerIsLost()
    ensures var w := Run(UTC, [Panel(SetField(Sighting("a", 1)), 1), Panel(SetField(Sighting("b", 2)), 9)]);
            Lost(UTC, w, UpdateProjection(Typed(UTC, Sighting("a", 1))), 2)
  {
    hide Kept, Overtaken, Dated, Happen, OnBus;
    var first, second := Panel(SetField(Sighting("a", 1)), 1), Panel(SetField(Sighting("b", 2)), 9);
    assert Front([first, second]) == [first] && Front([first]) == [];
    var w0, w1, w2 := Run(UTC, []), Run(UTC, [first]), Run(UTC, [first, second]);
    RunsDeliverAtMostOnce(UTC, [first, second]);
    RunsKeepDates(UTC, [first, second]);
    StoppedSighting(w0);
    NewerSighting(w1);
  }

  lemma StoppedSighting(w: World)
    requires w == World(None, [])
    ensures var after := Happen(UTC, w, Panel(SetField(Sighting("a", 1)), 1));
            var f := Typed(UTC, Sighting("a", 1));
            && after.bus == [] && after.disk.Some? && after.disk.value.fields == map[StorageKey("o", "n") := f]
            && after.disk.value.ownerEpochs == map["o" := f.epoch]
            && after.disk.value.projections == map[UpdateProjection(f).Id() := UpdateProjection(f)]
  {
    hide Finish;
    var f := Typed(UTC, Sighting("a", 1));
    var s := ReadState(UTC, None, 1);
    var raised := s.(ownerEpochs := s.ownerEpochs["o" := f.epoch]);
    StoreSteps([], raised, UpdateProjection(f), f);
    var steps := AttemptOf(UTC, w, SetField(Sighting("a", 1))).steps;
    OneWrite(w, steps[..1]);
  }

  lemma NewerSighting(w: World)
    requires var f := Typed(UTC, Sighting("a", 1));
             && w.bus == [] && w.disk.Some? && w.disk.value.fields == map[StorageKey("o", "n") := f]
             && w.disk.value.ownerEpochs == map["o" := f.epoch]
             && w.disk.value.projections == map[UpdateProjection(f).Id() := UpdateProjection(f)]
    ensures var after := Happen(UTC, w, Panel(SetField(Sighting("b", 2)), 9));
            var p := UpdateProjection(Typed(UTC, Sighting("a", 1)));
            after.disk.Some? && Overtaken(UTC, after.disk.value, p, 2) && OnBus(after.bus, p.Id()).None?
  {
    StoredThenDelivered(w, w.disk.value, Sighting("b", 2));
    var e := PanelEvent(UpdateProjection(Typed(UTC, Sighting("b", 2))).Id(), UpdateProjection(Typed(UTC, Sighting("b", 2))).Body());
    assert [] + [e] == [e] && [e][1..] == [];
  }
}
