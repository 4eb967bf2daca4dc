/** When a panel call cannot settle: its projection id is already on the bus with another
    announcement, because a source event was used again (panel.py:312-323, 680-715). */
module PanelConflicts {
  import opened Basics
  import opened PanelModel
  import opened PanelOutbox
  import opened PanelSettlement

  /** The field a call announces: the one already stored for its source event, or the new one. */
  function AnnouncedField(zone: Zone, w: World, op: Op): Option<Field> {
    match op
    case SetField(a) =>
      var s, key := ReadState(zone, w.disk, a.observedAt), StorageKey(a.owner, a.name);
      if key in s.fields && s.fields[key].sourceEvent == a.sourceEvent then Some(s.fields[key]) else Some(Typed(zone, a))
    case Consume(owner, name, _, now) =>
      var s, key := ReadState(zone, w.disk, now), StorageKey(owner, name);
      if key in s.fields then Some(s.fields[key]) else None
    case Rollover(_, _) => None
  }

  /** The bus already carries this projection id with different content. */
  predicate Reused(bus: seq<BusEvent>, p: Projection) {
    OnBus(bus, p.Id()).Some? && OnBus(bus, p.Id()).value != p.Body()
  }

  /** The checks a call makes before it delivers anything: for a set, either its source event is
      stored with the same content, or it is newer than what is stored, in time and epoch; for a
      consume, the field is there to be consumed, or was consumed by this very event. */
  predicate Admitted(zone: Zone, w: World, op: Op) {
    match op
    case SetField(a) =>
      var s, key, f := ReadState(zone, w.disk, a.observedAt), StorageKey(a.owner, a.name), Typed(zone, a);
      var known := key in s.fields && s.fields[key].sourceEvent == a.sourceEvent;
      && ArgumentsFit(a)
      && (known ==> SameProjection(s.fields[key], f))
      && (!known && a.owner in s.ownerEpochs ==> s.ownerEpochs[a.owner] <= f.epoch)
      && (!known && key in s.fields ==>
            s.fields[key].observedAt < a.observedAt && s.fields[key].epoch <= f.epoch && !s.fields[key].consume.Once?)
    case Consume(owner, name, event, now) =>
      var s, key := ReadState(zone, w.disk, now), StorageKey(owner, name);
      && PlainText(owner) && PlainText(name) && key in s.fields
      && s.fields[key].consume.Once? && s.fields[key].sourceEvent == event
      && (if s.fields[key].consumedBy.Some? then s.fields[key].consumedBy == Some(event)
          else Visible(zone, s, s.fields[key], now))
    case Rollover(_, _) => false
  }

  /** A call either fails one of these checks, or settles, or runs into the bus. */
  lemma AdmittedIff(zone: Zone, w: World, op: Op)
    requires Kept(w)
    ensures Admitted(zone, w, op) <==>
            var reply := AttemptOf(zone, w, op).reply; (reply.Ok? && reply.value.Settled?) || reply == Err(BusConflict)
  {
    hide Finish, Reused;
    match op
    case SetField(a) =>
      var s, key := ReadState(zone, w.disk, a.observedAt), StorageKey(a.owner, a.name);
      if key in s.fields && s.fields[key].sourceEvent == a.sourceEvent {
        RedeliverReplies(w, s, UpdateProjection(s.fields[key]), s.fields[key]);
      } else {
        var f := Typed(zone, a);
        StoreReplies(w.bus, s.(ownerEpochs := s.ownerEpochs[a.owner := f.epoch]), UpdateProjection(f), f);
        if key in s.fields && PlainText(a.owner) && PlainText(a.name) {
          StorageKeyInjective(a.owner, a.name, s.fields[key].owner, s.fields[key].name);
        }
      }
    case Consume(owner, name, event, now) =>
      var s, key := ReadState(zone, w.disk, now), StorageKey(owner, name);
      if key in s.fields {
        var f := s.fields[key];
        if f.consumedBy.Some? {
          RedeliverReplies(w, s, ConsumeProjection(f), f);
        } else {
          StoreReplies(w.bus, s, ConsumeProjection(f), f.(consumedBy := Some(event), consumedAt := Some(now)));
        }
      }
    case Rollover(_, _) =>
  }

  /** An admitted call settles exactly when its projection id is not already taken by a different
      announcement; otherwise it runs into it. */
  lemma SettlesUnlessReused(zone: Zone, w: World, op: Op)
    requires Kept(w) && Admitted(zone, w, op)
    ensures !op.Rollover? && AnnouncedField(zone, w, op).Some?
    ensures var p := MarkerOf(op, AnnouncedField(zone, w, op).value);
            var reply := AttemptOf(zone, w, op).reply;
            if Reused(w.bus, p) then reply == Err(BusConflict) else reply.Ok? && reply.value.Settled? && reply.value.id == p.Id()
  {
    hide Finish, Reused;
    match op
    case SetField(a) =>
      var s, key := ReadState(zone, w.disk, a.observedAt), StorageKey(a.owner, a.name);
      if key in s.fields && s.fields[key].sourceEvent == a.sourceEvent {
        RedeliverReplies(w, s, UpdateProjection(s.fields[key]), s.fields[key]);
      } else {
        var f := Typed(zone, a);
        StoreReplies(w.bus, s.(ownerEpochs := s.ownerEpochs[a.owner := f.epoch]), UpdateProjection(f), f);
        if key in s.fields { StorageKeyInjective(a.owner, a.name, s.fields[key].owner, s.fields[key].name); }
      }
    case Consume(owner, name, event, now) =>
      var s, key := ReadState(zone, w.disk, now), StorageKey(owner, name);
      var f := s.fields[key];
      if f.consumedBy.Some? {
        RedeliverReplies(w, s, ConsumeProjection(f), f);
      } else {
        StoreReplies(w.bus, s, ConsumeProjection(f), f.(consumedBy := Some(event), consumedAt := Some(now)));
      }
    case Rollover(_, _) =>
  }

  lemma RedeliverReplies(w: World, s: State, p: Projection, f: Field)
    requires p.status.PendingDelivery?
    requires p.Id() in s.projections ==> s.projections[p.Id()] == p
    ensures Redeliver(w.bus, s, p, f).reply == if Reused(w.bus, p) then Err(BusConflict) else Ok(Settled(f, p.Id()))
  {
    if p.Id() in s.projections {
      FinishIsTail(w.bus, s, p, [], f);
    } else {
      var marked := s.(projections := s.projections[p.Id() := p]);
      FinishIsTail(w.bus, marked, p, [Write(marked)], f);
    }
  }

  lemma StoreReplies(bus: seq<BusEvent>, s: State, p: Projection, f: Field)
    requires p.status.PendingDelivery?
    ensures StoreAndFinish(bus, s, p, f).reply == if Reused(bus, p) then Err(BusConflict) else Ok(Settled(f, p.Id()))
    ensures Reused(bus, p) ==>
              StoreAndFinish(bus, s, p, f).steps ==
              [Write(s.(fields := s.fields[StorageKey(f.owner, f.name) := f], projections := s.projections[p.Id() := p]))]
  {
    var stored := s.(fields := s.fields[StorageKey(f.owner, f.name) := f], projections := s.projections[p.Id() := p]);
    FinishIsTail(bus, stored, p, [Write(stored)], f);
  }

  /** A conflict is permanent for the repeated call, set or consume: the field is stored by then,
      and every repeat runs into the same event on the bus. */
  lemma ConflictIsPermanent(zone: Zone, w: World, op: Op, again: Op)
    requires Kept(w) && Repeats(op, again)
    requires AttemptOf(zone, w, op).reply == Err(BusConflict)
    ensures var after := Exec(w, AttemptOf(zone, w, op).steps);
            AttemptOf(zone, after, again).reply == Err(BusConflict) && after.bus == w.bus
  {
    hide Finish, Reused, Redeliver, StoreAndFinish, AttemptOf, Admitted, Repeats;
    AdmittedIff(zone, w, op);
    SettlesUnlessReused(zone, w, op);
    var p := MarkerOf(op, AnnouncedField(zone, w, op).value);
    var f := ConflictedRun(zone, w, op, p);
    var steps := AttemptOf(zone, w, op).steps;
    OperationKept(zone, w, op, |steps|);
    assert steps[..|steps|] == steps;
    var v := Exec(w, steps);
    RepeatRedelivers(zone, v, op, again, v.disk.value, f);
    RedeliverReplies(v, v.disk.value, p, f);
  }

  /** A conflicting call leaves its field stored and the bus as it was. */
  lemma ConflictedRun(zone: Zone, w: World, op: Op, p: Projection) returns (f: Field)
    requires Kept(w) && Admitted(zone, w, op) && AnnouncedField(zone, w, op).Some? && !op.Rollover?
    requires p == MarkerOf(op, AnnouncedField(zone, w, op).value) && Reused(w.bus, p)
    ensures var v := Exec(w, AttemptOf(zone, w, op).steps);
            && v.bus == w.bus && v.disk.Some? && StorageKey(f.owner, f.name) in v.disk.value.fields
            && v.disk.value.fields[StorageKey(f.owner, f.name)] == f && p == MarkerOf(op, f)
    ensures match op
            case SetField(a) => ArgumentsFit(a) && f.owner == a.owner && f.name == a.name && f.sourceEvent == a.sourceEvent
                                && SameProjection(f, Typed(zone, a))
            case Consume(owner, name, event, _) =>
              PlainText(owner) && PlainText(name) && f.owner == owner && f.name == name && f.sourceEvent == event
              && f.consume.Once? && f.consumedBy == Some(event)
            case _ => false
  {
    hide Finish, Reused, Redeliver, StoreAndFinish;
    var steps := AttemptOf(zone, w, op).steps;
    match op
    case SetField(a) =>
      var s, key := ReadState(zone, w.disk, a.observedAt), StorageKey(a.owner, a.name);
      f := AnnouncedField(zone, w, op).value;
      if key in s.fields { StorageKeyInjective(a.owner, a.name, s.fields[key].owner, s.fields[key].name); }
      if key in s.fields && s.fields[key].sourceEvent == a.sourceEvent {
        ConflictedRedelivery(w, s, p, f);
      } else {
        StoreReplies(w.bus, s.(ownerEpochs := s.ownerEpochs[a.owner := f.epoch]), p, f);
        OneWrite(w, steps);
      }
    case Consume(owner, name, event, now) =>
      var s, key := ReadState(zone, w.disk, now), StorageKey(owner, name);
      var g := s.fields[key];
      StorageKeyInjective(owner, name, g.owner, g.name);
      if g.consumedBy.Some? {
        f := g;
        ConflictedRedelivery(w, s, p, f);
      } else {
        f := g.(consumedBy := Some(event), consumedAt := Some(now));
        StoreReplies(w.bus, s, p, f);
        OneWrite(w, steps);
      }
    case Rollover(_, _) =>
  }

  lemma OneWrite(w: World, steps: seq<Step>)
    requires |steps| == 1
    ensures Exec(w, steps) == Do(w, steps[0])
  {
    assert steps[1..] == [];
  }

  // ---- later worlds ----------------------------------------------------------------------

  /** Everything that can happen from a world on. */
  function After(zone: Zone, w: World, events: seq<Event>): World {
    if events == [] then w else Happen(zone, After(zone, w, Front(events)), Last(events))
  }

  lemma {:induction false} BusOnlyGrows(w: World, steps: seq<Step>)
    ensures w.bus <= Exec(w, steps).bus
    decreases |steps|
  {
    if steps != [] { BusOnlyGrows(Do(w, steps[0]), steps[1..]); }
  }

  lemma {:induction false} FirstStaysFirst(bus: seq<BusEvent>, longer: seq<BusEvent>, id: ProjectionId)
    requires bus <= longer && OnBus(bus, id).Some?
    ensures OnBus(longer, id) == OnBus(bus, id)
    decreases |bus|
  {
    if !(bus[0].PanelEvent? && bus[0].id == id) {
      assert longer[0] == bus[0];
      FirstStaysFirst(bus[1..], longer[1..], id);
    }
  }

  lemma {:induction false} LaterWorlds(zone: Zone, w: World, events: seq<Event>, p: Projection)
    requires Kept(w) && Reused(w.bus, p)
    ensures Kept(After(zone, w, events)) && Reused(After(zone, w, events).bus, p)
  {
    hide Kept, AttemptOf;
    if events != [] {
      LaterWorlds(zone, w, Front(events), p);
      var v := After(zone, w, Front(events));
      match Last(events)
      case Elsewhere(name) =>
        ElsewhereKept(v, name);
        FirstStaysFirst(v.bus, v.bus + [OtherEvent(name)], p.Id());
      case Panel(op, n) =>
        var steps := AttemptOf(zone, v, op).steps;
        var k := if n < |steps| then n else |steps|;
        OperationKept(zone, v, op, k);
        BusOnlyGrows(v, steps[..k]);
        FirstStaysFirst(v.bus, Exec(v, steps[..k]).bus, p.Id());
    }
  }

  lemma ElsewhereKept(w: World, name: string)
    requires Kept(w)
    ensures Kept(w.(bus := w.bus + [OtherEvent(name)]))
  {
    EmitKept(w.bus, OtherEvent(name));
  }

  /** Once its id is taken, an announcement is lost: whatever happens in between, no admitted call
      that makes it ever settles. */
  lemma TakenForEver(zone: Zone, w: World, events: seq<Event>, p: Projection, op: Op)
    requires Kept(w) && Reused(w.bus, p)
    requires var v := After(zone, w, events);
             && Admitted(zone, v, op) && !op.Rollover? && AnnouncedField(zone, v, op).Some?
             && MarkerOf(op, AnnouncedField(zone, v, op).value) == p
    ensures AttemptOf(zone, After(zone, w, events), op).reply == Err(BusConflict)
  {
    hide Admitted, Kept, Reused, AttemptOf;
    LaterWorlds(zone, w, events, p);
    SettlesUnlessReused(zone, After(zone, w, events), op);
  }

  lemma ConflictedRedelivery(w: World, s: State, p: Projection, f: Field)
    requires w.disk == Some(s) && p.status.PendingDelivery? && Reused(w.bus, p)
    requires p.Id() in s.projections ==> s.projections[p.Id()] == p
    ensures var v := Exec(w, Redeliver(w.bus, s, p, f).steps);
            v.bus == w.bus && v.disk.Some? && v.disk.value.fields == s.fields
  {
    if p.Id() in s.projections {
      FinishIsTail(w.bus, s, p, [], f);
    } else {
      var marked := s.(projections := s.projections[p.Id() := p]);
      FinishIsTail(w.bus, marked, p, [Write(marked)], f);
      assert Redeliver(w.bus, s, p, f).steps == [Write(marked)] && [Write(marked)][1..] == [];
    }
  }

  // ---- it does happen ------------------------------------------------------------------

  function Sighting(event: string, at: int): SetArgs {
    SetArgs("o", "n", "v", "s", event, at, Some(10), 1.0, KeepAcrossDays, Ttl, Repeatable)
  }

  const UTC := Zone(0, 0)

  /** The same source event announced at two times with another one in between: its second
      announcement expires later than the first, and is stuck. */
  lemma ReuseGetsStuck()
    ensures var w := Run(UTC, [Panel(SetField(Sighting("a", 1)), 9), Panel(SetField(Sighting("b", 2)), 9)]);
            AttemptOf(UTC, w, SetField(Sighting("a", 3))).reply == Err(BusConflict)
  {
    var first, second := Panel(SetField(Sighting("a", 1)), 9), Panel(SetField(Sighting("b", 2)), 9);
    assert Front([first, second]) == [first] && Front([first]) == [];
    var w0 := Run(UTC, []);
    var w1 := Run(UTC, [first]);
    var w2 := Run(UTC, [first, second]);
    FirstSighting(w0);
    SecondSighting(w1);
    ThirdSighting(w2);
  }

  lemma FirstSighting(w: World)
    requires w == World(None, [])
    ensures var after := Happen(UTC, w, Panel(SetField(Sighting("a", 1)), 9));
            var f := Typed(UTC, Sighting("a", 1));
            && after.disk.Some? && after.disk.value.fields == map[StorageKey("o", "n") := f]
            && after.disk.value.ownerEpochs == map["o" := f.epoch] && after.disk.value.projections == map[]
            && after.bus == [PanelEvent(UpdateProjection(f).Id(), UpdateProjection(f).Body())]
  {
    StoredThenDelivered(w, ReadState(UTC, None, 1), Sighting("a", 1));
  }

  lemma StoredThenDelivered(w: World, s: State, a: SetArgs)
    requires ArgumentsFit(a) && s == ReadState(UTC, w.disk, a.observedAt)
    requires var f := Typed(UTC, a);
             && OnBus(w.bus, UpdateProjection(f).Id()).None?
             && AttemptSet(UTC, w, a) == StoreAndFinish(w.bus, s.(ownerEpochs := s.ownerEpochs[a.owner := f.epoch]), UpdateProjection(f), f)
    ensures var f := Typed(UTC, a);
            var p := UpdateProjection(f);
            var after := Happen(UTC, w, Panel(SetField(a), 9));
            && after.disk == Some(s.(ownerEpochs := s.ownerEpochs[a.owner := f.epoch],
                                     fields := s.fields[StorageKey(a.owner, a.name) := f],
                                     projections := s.projections[p.Id() := p] - {p.Id()}))
            && after.bus == w.bus + [PanelEvent(p.Id(), p.Body())]
  {
    hide AttemptSet, Finish;
    var f := Typed(UTC, a);
    var p := UpdateProjection(f);
    var raised := s.(ownerEpochs := s.ownerEpochs[a.owner := f.epoch]);
    var stored := raised.(fields := raised.fields[StorageKey(f.owner, f.name) := f], projections := raised.projections[p.Id() := p]);
    FinishIsTail(w.bus, stored, p, [Write(stored)], f);
    var m, e, c := Write(stored), Emit(PanelEvent(p.Id(), p.Body())), Write(Compacted(stored, p.Id()));
    var steps := AttemptOf(UTC, w, SetField(a)).steps;
    assert steps == [m, e, c] && steps[..|steps|] == steps;
    assert [m, e, c][1..] == [e, c];
    TailDelivers(Do(w, m), stored, p);
  }

  lemma SecondSighting(w: World)
    requires var f := Typed(UTC, Sighting("a", 1));
             && w.disk.Some? && w.disk.value.fields == map[StorageKey("o", "n") := f]
             && w.disk.value.ownerEpochs == map["o" := f.epoch] && w.disk.value.projections == map[]
             && w.bus == [PanelEvent(UpdateProjection(f).Id(), UpdateProjection(f).Body())]
    ensures var after := Happen(UTC, w, Panel(SetField(Sighting("b", 2)), 9));
            var f, g := Typed(UTC, Sighting("a", 1)), Typed(UTC, Sighting("b", 2));
            && after.disk.Some? && after.disk.value.fields == map[StorageKey("o", "n") := g]
            && after.disk.value.ownerEpochs == map["o" := g.epoch]
            && after.bus == w.bus + [PanelEvent(UpdateProjection(g).Id(), UpdateProjection(g).Body())]
  {
    assert w.bus[1..] == [];
    StoredThenDelivered(w, w.disk.value, Sighting("b", 2));
  }

  lemma ThirdSighting(w: World)
    requires var f, g := Typed(UTC, Sighting("a", 1)), Typed(UTC, Sighting("b", 2));
             && w.disk.Some? && w.disk.value.fields == map[StorageKey("o", "n") := g]
             && w.disk.value.ownerEpochs == map["o" := g.epoch]
             && |w.bus| == 2 && w.bus[0] == PanelEvent(UpdateProjection(f).Id(), UpdateProjection(f).Body())
    ensures AttemptOf(UTC, w, SetField(Sighting("a", 3))).reply == Err(BusConflict)
  {
    var s, h := w.disk.value, Typed(UTC, Sighting("a", 3));
    var raised := s.(ownerEpochs := s.ownerEpochs["o" := h.epoch]);
    assert Reused(w.bus, UpdateProjection(h));
    StoreReplies(w.bus, raised, UpdateProjection(h), h);
  }
}
