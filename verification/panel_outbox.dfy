/** The outbox: whatever crashes and retries happen, the bus never holds a projection twice,
    and a call that settles leaves exactly one (panel.py:680-715, 989-1204). */
module PanelOutbox {
  import opened Basics
  import opened PanelModel

  function CountOnBus(bus: seq<BusEvent>, id: ProjectionId): nat {
    if bus == [] then 0
    else (if bus[0].PanelEvent? && bus[0].id == id then 1 else 0) + CountOnBus(bus[1..], id)
  }

  lemma {:induction false} CountAppend(bus: seq<BusEvent>, e: BusEvent, id: ProjectionId)
    ensures CountOnBus(bus + [e], id) == CountOnBus(bus, id) + (if e.PanelEvent? && e.id == id then 1 else 0)
    ensures OnBus(bus + [e], id) ==
            if OnBus(bus, id).Some? then OnBus(bus, id)
            else if e.PanelEvent? && e.id == id then Some(e.body) else None
  {
    if bus == [] {
      assert (bus + [e])[1..] == [];
    } else {
      assert (bus + [e])[1..] == bus[1..] + [e];
      CountAppend(bus[1..], e, id);
    }
  }

  lemma {:induction false} OnBusIffCounted(bus: seq<BusEvent>, id: ProjectionId)
    ensures OnBus(bus, id).Some? <==> CountOnBus(bus, id) > 0
  {
    if bus != [] {
      OnBusIffCounted(bus[1..], id);
    }
  }

  /** No projection id occurs twice on the bus. */
  ghost predicate AtMostOnce(bus: seq<BusEvent>) {
    forall id :: CountOnBus(bus, id) <= 1
  }

  /** Fields are filed under their own key, no field is newer than its owner's epoch, and a
      marker belonging to the source event a field currently holds announces that field. */
  ghost predicate StateKept(s: State) {
    && (forall k <- s.fields ::
          var f := s.fields[k];
          && PlainText(f.owner) && PlainText(f.name) && k == StorageKey(f.owner, f.name)
          && f.owner in s.ownerEpochs && f.epoch <= s.ownerEpochs[f.owner]
          && (UpdateProjection(f).Id() in s.projections ==> s.projections[UpdateProjection(f).Id()] == UpdateProjection(f))
          && (f.consumedBy.Some? && ConsumeProjection(f).Id() in s.projections ==>
                s.projections[ConsumeProjection(f).Id()] == ConsumeProjection(f)))
    && (forall id <- s.projections :: s.projections[id].Id() == id && s.projections[id].status.PendingDelivery?)
  }

  ghost predicate Kept(w: World) {
    AtMostOnce(w.bus) && (w.disk.Some? ==> StateKept(w.disk.value))
  }

  /** Every prefix of the steps leaves a kept world. */
  ghost predicate AllKept(w: World, steps: seq<Step>)
    decreases |steps|
  {
    Kept(w) && (steps != [] ==> AllKept(Do(w, steps[0]), steps[1..]))
  }

  lemma {:induction false} PrefixKept(w: World, steps: seq<Step>, k: nat)
    requires AllKept(w, steps) && k <= |steps|
    ensures Kept(Exec(w, steps[..k]))
    decreases k
  {
    if k > 0 {
      assert steps[..k][0] == steps[0] && steps[..k][1..] == steps[1..][..k - 1];
      PrefixKept(Do(w, steps[0]), steps[1..], k - 1);
    }
  }

  function Compacted(s: State, id: ProjectionId): State { s.(projections := s.projections - {id}) }

  /** What delivery does from a world whose file already holds the marker. */
  function Tail(bus: seq<BusEvent>, s: State, p: Projection): seq<Step> {
    match OnBus(bus, p.Id())
    case None => [Emit(PanelEvent(p.Id(), p.Body())), Write(Compacted(s, p.Id()))]
    case Some(body) => if body == p.Body() then [Write(Compacted(s, p.Id()))] else []
  }

  lemma FinishIsTail(bus: seq<BusEvent>, s: State, p: Projection, before: seq<Step>, f: Field)
    requires p.status.PendingDelivery?
    ensures Finish(bus, s, p, before, f).steps == before + Tail(bus, s, p)
    ensures Finish(bus, s, p, before, f).reply ==
            if OnBus(bus, p.Id()).Some? && OnBus(bus, p.Id()).value != p.Body() then Err(BusConflict)
            else Ok(Settled(f, p.Id()))
  {
  }

  lemma CompactedKept(s: State, id: ProjectionId)
    requires StateKept(s)
    ensures StateKept(Compacted(s, id))
  {
  }

  lemma EmitKept(bus: seq<BusEvent>, e: BusEvent)
    requires AtMostOnce(bus) && (e.PanelEvent? ==> OnBus(bus, e.id).None?)
    ensures AtMostOnce(bus + [e])
  {
    forall id ensures CountOnBus(bus + [e], id) <= 1 {
      CountAppend(bus, e, id);
      OnBusIffCounted(bus, id);
    }
  }

  lemma TailKept(bus: seq<BusEvent>, s: State, p: Projection)
    requires AtMostOnce(bus) && StateKept(s)
    ensures AllKept(World(Some(s), bus), Tail(bus, s, p))
  {
    CompactedKept(s, p.Id());
    var e, c := Emit(PanelEvent(p.Id(), p.Body())), Write(Compacted(s, p.Id()));
    assert [c][1..] == [] && [e, c][1..] == [c];
    if OnBus(bus, p.Id()).None? {
      EmitKept(bus, e.event);
      assert AllKept(World(Some(Compacted(s, p.Id())), bus + [e.event]), []);
      assert AllKept(World(Some(s), bus + [e.event]), [c]);
    } else {
      assert AllKept(World(Some(Compacted(s, p.Id())), bus), []);
    }
  }

  /** Markers do not vouch for anything but their own projection. */
  lemma MarkerKept(s: State, f: Field, p: Projection)
    requires StateKept(s) && StorageKey(f.owner, f.name) in s.fields && s.fields[StorageKey(f.owner, f.name)] == f
    requires p == UpdateProjection(f) || (p == ConsumeProjection(f) && f.consumedBy.Some?)
    ensures StateKept(s.(projections := s.projections[p.Id() := p]))
  {
    var t := s.(projections := s.projections[p.Id() := p]);
    forall k | k in t.fields && (UpdateProjection(t.fields[k]).Id() == p.Id() || ConsumeProjection(t.fields[k]).Id() == p.Id())
      ensures t.fields[k] == f
    {
      assert t.fields[k].owner == f.owner && t.fields[k].name == f.name;
    }
  }

  lemma StoredKept(s: State, f: Field, p: Projection)
    requires StateKept(s) && PlainText(f.owner) && PlainText(f.name)
    requires f.owner in s.ownerEpochs && f.epoch <= s.ownerEpochs[f.owner]
    requires if p.kind.FieldUpdated? then p == UpdateProjection(f) && f.consumedBy.None?
             else p == ConsumeProjection(f) && f.consumedBy.Some?
                  && StorageKey(f.owner, f.name) in s.fields
                  && UpdateProjection(s.fields[StorageKey(f.owner, f.name)]) == UpdateProjection(f)
    ensures StateKept(s.(fields := s.fields[StorageKey(f.owner, f.name) := f], projections := s.projections[p.Id() := p]))
  {
    var key := StorageKey(f.owner, f.name);
    var t := s.(fields := s.fields[key := f], projections := s.projections[p.Id() := p]);
    forall k | k in t.fields && k != key
      ensures UpdateProjection(t.fields[k]).Id() != p.Id() && ConsumeProjection(t.fields[k]).Id() != p.Id()
    {
      var g := t.fields[k];
      assert !(g.owner == f.owner && g.name == f.name);
    }
  }

  lemma OwnerEpochRaised(s: State, owner: string, epoch: int)
    requires StateKept(s) && (owner in s.ownerEpochs ==> s.ownerEpochs[owner] <= epoch)
    ensures StateKept(s.(ownerEpochs := s.ownerEpochs[owner := epoch]))
  {
  }

  lemma WriteThenTail(w: World, s: State, p: Projection)
    requires AtMostOnce(w.bus) && Kept(w) && StateKept(s)
    ensures AllKept(w, [Write(s)] + Tail(w.bus, s, p))
  {
    var steps := [Write(s)] + Tail(w.bus, s, p);
    assert steps[0] == Write(s) && steps[1..] == Tail(w.bus, s, p);
    TailKept(w.bus, s, p);
  }

  lemma RedeliverKept(w: World, s: State, f: Field, p: Projection)
    requires Kept(w) && w.disk == Some(s)
    requires StorageKey(f.owner, f.name) in s.fields && s.fields[StorageKey(f.owner, f.name)] == f
    requires p == UpdateProjection(f) || (p == ConsumeProjection(f) && f.consumedBy.Some?)
    ensures AllKept(w, Redeliver(w.bus, s, p, f).steps)
  {
    if p.Id() in s.projections {
      FinishIsTail(w.bus, s, s.projections[p.Id()], [], f);
      assert [] + Tail(w.bus, s, s.projections[p.Id()]) == Tail(w.bus, s, s.projections[p.Id()]);
      TailKept(w.bus, s, s.projections[p.Id()]);
    } else {
      MarkerKept(s, f, p);
      var marked := s.(projections := s.projections[p.Id() := p]);
      FinishIsTail(w.bus, marked, p, [Write(marked)], f);
      WriteThenTail(w, marked, p);
    }
  }

  lemma SetKept(zone: Zone, w: World, a: SetArgs)
    requires Kept(w)
    ensures AllKept(w, AttemptSet(zone, w, a).steps)
  {
    hide Finish, Tail;
    var s := ReadState(zone, w.disk, a.observedAt);
    var key := StorageKey(a.owner, a.name);
    var typed := Typed(zone, a);
    if AttemptSet(zone, w, a).steps != [] {
      if key in s.fields {
        StorageKeyInjective(a.owner, a.name, s.fields[key].owner, s.fields[key].name);
      }
      if key in s.fields && s.fields[key].sourceEvent == a.sourceEvent {
        RedeliverKept(w, s, s.fields[key], UpdateProjection(s.fields[key]));
      } else {
        OwnerEpochRaised(s, a.owner, typed.epoch);
        var raised := s.(ownerEpochs := s.ownerEpochs[a.owner := typed.epoch]);
        StoredKept(raised, typed, UpdateProjection(typed));
        var p := UpdateProjection(typed);
        var stored := raised.(fields := raised.fields[key := typed], projections := raised.projections[p.Id() := p]);
        FinishIsTail(w.bus, stored, p, [Write(stored)], typed);
        WriteThenTail(w, stored, p);
      }
    }
  }

  lemma ConsumeKept(zone: Zone, w: World, owner: string, name: string, event: string, now: int)
    requires Kept(w)
    ensures AllKept(w, AttemptConsume(zone, w, owner, name, event, now).steps)
  {
    hide Finish, Tail;
    var s := ReadState(zone, w.disk, now);
    var key := StorageKey(owner, name);
    if AttemptConsume(zone, w, owner, name, event, now).steps != [] {
      var f := s.fields[key];
      StorageKeyInjective(owner, name, f.owner, f.name);
      var p := ConsumeProjection(f);
      if f.consumedBy.Some? {
        RedeliverKept(w, s, f, p);
      } else {
        var g := f.(consumedBy := Some(event), consumedAt := Some(now));
        StoredKept(s, g, p);
        var stored := s.(fields := s.fields[key := g], projections := s.projections[p.Id() := p]);
        FinishIsTail(w.bus, stored, p, [Write(stored)], g);
        WriteThenTail(w, stored, p);
      }
    }
  }

  lemma RolloverKept(zone: Zone, w: World, owner: string, now: int)
    requires Kept(w)
    ensures AllKept(w, AttemptRollover(zone, w, owner, now).steps)
  {
    var s := ReadState(zone, w.disk, now);
    var steps := AttemptRollover(zone, w, owner, now).steps;
    if steps != [] {
      OwnerEpochRaised(s, owner, EpochOf(zone, now));
      assert steps[1..] == [];
      assert StateKept(steps[0].state);
      assert AllKept(Do(w, steps[0]), []);
    }
  }

  /** Every operation, stopped after any of its durable steps, leaves a kept world. */
  lemma OperationKept(zone: Zone, w: World, op: Op, k: nat)
    requires Kept(w) && k <= |AttemptOf(zone, w, op).steps|
    ensures Kept(Exec(w, AttemptOf(zone, w, op).steps[..k]))
  {
    hide AttemptSet, AttemptConsume, AttemptRollover, Kept, AllKept;
    match op {
      case SetField(args) => SetKept(zone, w, args);
      case Consume(owner, name, event, now) => ConsumeKept(zone, w, owner, name, event, now);
      case Rollover(owner, now) => RolloverKept(zone, w, owner, now);
    }
    PrefixKept(w, AttemptOf(zone, w, op).steps, k);
  }

  // ---- runs ------------------------------------------------------------------------------

  /** An operation that gets to perform `steps` durable steps, or somebody else's event. */
  datatype Event = Panel(op: Op, steps: nat) | Elsewhere(name: string)

  function Happen(zone: Zone, w: World, e: Event): World {
    match e
    case Elsewhere(name) => w.(bus := w.bus + [OtherEvent(name)])
    case Panel(op, n) =>
      var steps := AttemptOf(zone, w, op).steps;
      Exec(w, steps[..if n < |steps| then n else |steps|])
  }

  function Run(zone: Zone, events: seq<Event>): World {
    if events == [] then World(None, []) else Happen(zone, Run(zone, Front(events)), Last(events))
  }

  /** Over any crashes, retries and interleaved events, no projection is on the bus twice and
      no field is newer than its owner's epoch. */
  lemma {:induction false} RunsDeliverAtMostOnce(zone: Zone, events: seq<Event>)
    ensures Kept(Run(zone, events))
  {
    if events == [] {
      assert forall id :: CountOnBus([], id) == 0;
    } else {
      RunsDeliverAtMostOnce(zone, Front(events));
      var w := Run(zone, Front(events));
      match Last(events)
      case Elsewhere(name) => EmitKept(w.bus, OtherEvent(name));
      case Panel(op, n) =>
        var steps := AttemptOf(zone, w, op).steps;
        OperationKept(zone, w, op, if n < |steps| then n else |steps|);
    }
  }
}
