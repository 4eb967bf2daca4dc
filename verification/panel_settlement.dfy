/** What a settled panel call guarantees, what repeating an interrupted call achieves, and
    what one owner's operations cannot do to another's (panel.py:811-841, 989-1260). */
module PanelSettlement {
  import opened Basics
  import opened PanelModel
  import opened PanelOutbox

  /** One event on the bus, exactly the announced one, no marker left, and the field stored. */
  ghost predicate SettledIn(w: World, f: Field, id: ProjectionId) {
    && CountOnBus(w.bus, id) == 1
    && (OnBus(w.bus, id) == Some(UpdateProjection(f).Body()) || OnBus(w.bus, id) == Some(ConsumeProjection(f).Body()))
    && w.disk.Some?
    && id !in w.disk.value.projections
    && StorageKey(f.owner, f.name) in w.disk.value.fields
    && w.disk.value.fields[StorageKey(f.owner, f.name)] == f
  }

  /** The world once a marker has been delivered and compacted. */
  function Delivered(w: World, s: State, p: Projection): World {
    World(Some(Compacted(s, p.Id())), if OnBus(w.bus, p.Id()).Some? then w.bus else w.bus + [PanelEvent(p.Id(), p.Body())])
  }

  lemma TailDelivers(w: World, s: State, p: Projection)
    requires w.disk == Some(s)
    requires OnBus(w.bus, p.Id()).Some? ==> OnBus(w.bus, p.Id()).value == p.Body()
    ensures Exec(w, Tail(w.bus, s, p)) == Delivered(w, s, p)
  {
    var e, c := Emit(PanelEvent(p.Id(), p.Body())), Write(Compacted(s, p.Id()));
    assert [c][1..] == [] && [e, c][1..] == [c];
    assert Exec(Do(Do(w, e), c), []) == Do(Do(w, e), c);
    assert Exec(Do(w, c), []) == Do(w, c);
    assert Exec(Do(w, e), [c]) == Do(Do(w, e), c);
  }

  /** How a settling attempt runs: optionally one write that leaves `marked` with marker p,
      then delivery. */
  ghost predicate Settles(w: World, a: Attempt, marked: State, p: Projection, f: Field) {
    && a.reply == Ok(Settled(f, p.Id()))
    && p.Id() in marked.projections && marked.projections[p.Id()] == p && p.status.PendingDelivery?
    && StorageKey(f.owner, f.name) in marked.fields && marked.fields[StorageKey(f.owner, f.name)] == f
    && (OnBus(w.bus, p.Id()).Some? ==> OnBus(w.bus, p.Id()).value == p.Body())
    && (if w.disk == Some(marked) && |a.steps| == |Tail(w.bus, marked, p)|
        then a.steps == Tail(w.bus, marked, p)
        else a.steps == [Write(marked)] + Tail(w.bus, marked, p))
  }

  lemma SettlesTo(w: World, a: Attempt, marked: State, p: Projection, f: Field)
    requires Settles(w, a, marked, p, f)
    ensures Exec(w, a.steps) == Delivered(w, marked, p)
  {
    var marking := Do(w, Write(marked));
    if a.steps == Tail(w.bus, marked, p) && w.disk == Some(marked) {
      TailDelivers(w, marked, p);
    } else {
      assert a.steps[0] == Write(marked) && a.steps[1..] == Tail(w.bus, marked, p);
      TailDelivers(marking, marked, p);
    }
  }

  /** The marker a settling operation works with. */
  function MarkerOf(op: Op, f: Field): Projection
    requires !op.Rollover?
  {
    if op.SetField? then UpdateProjection(f) else ConsumeProjection(f)
  }

  lemma RedeliverSettles(w: World, s: State, f: Field, p: Projection)
    requires Kept(w) && w.disk == Some(s)
    requires StorageKey(f.owner, f.name) in s.fields && s.fields[StorageKey(f.owner, f.name)] == f
    requires p == UpdateProjection(f) || (p == ConsumeProjection(f) && f.consumedBy.Some?)
    requires Redeliver(w.bus, s, p, f).reply.Ok?
    ensures Settles(w, Redeliver(w.bus, s, p, f), s.(projections := s.projections[p.Id() := p]), p, f)
  {
    var marked := s.(projections := s.projections[p.Id() := p]);
    if p.Id() in s.projections {
      assert s.projections[p.Id()] == p;
      assert marked.projections == s.projections;
      FinishIsTail(w.bus, s, p, [], f);
      assert [] + Tail(w.bus, s, p) == Tail(w.bus, s, p);
    } else {
      FinishIsTail(w.bus, marked, p, [Write(marked)], f);
    }
  }

  lemma StoreSettles(w: World, s: State, f: Field, p: Projection)
    requires StoreAndFinish(w.bus, s, p, f).reply.Ok? && p.status.PendingDelivery?
    ensures Settles(w, StoreAndFinish(w.bus, s, p, f),
                    s.(fields := s.fields[StorageKey(f.owner, f.name) := f], projections := s.projections[p.Id() := p]), p, f)
  {
    var marked := s.(fields := s.fields[StorageKey(f.owner, f.name) := f], projections := s.projections[p.Id() := p]);
    FinishIsTail(w.bus, marked, p, [Write(marked)], f);
  }

  lemma OperationSettles(zone: Zone, w: World, op: Op) returns (marked: State, f: Field)
    requires Kept(w) && AttemptOf(zone, w, op).reply.Ok? && AttemptOf(zone, w, op).reply.value.Settled?
    ensures !op.Rollover? && f == AttemptOf(zone, w, op).reply.value.field
    ensures Settles(w, AttemptOf(zone, w, op), marked, MarkerOf(op, f), f)
    ensures match op
            case SetField(a) => ArgumentsFit(a) && f.owner == a.owner && f.name == a.name && f.sourceEvent == a.sourceEvent
                                && SameProjection(f, Typed(zone, a))
            case Consume(owner, name, event, _) =>
              PlainText(owner) && PlainText(name)
              && f.owner == owner && f.name == name && f.sourceEvent == event && f.consume.Once? && f.consumedBy == Some(event)
            case _ => false
  {
    hide Finish, Tail, Settles;
    match op
    case SetField(a) =>
      var s := ReadState(zone, w.disk, a.observedAt);
      var key := StorageKey(a.owner, a.name);
      if key in s.fields {
        StorageKeyInjective(a.owner, a.name, s.fields[key].owner, s.fields[key].name);
      }
      if key in s.fields && s.fields[key].sourceEvent == a.sourceEvent {
        f := s.fields[key];
        var p := UpdateProjection(f);
        marked := s.(projections := s.projections[p.Id() := p]);
        RedeliverSettles(w, s, f, p);
      } else {
        f := Typed(zone, a);
        var raised := s.(ownerEpochs := s.ownerEpochs[a.owner := f.epoch]);
        var p := UpdateProjection(f);
        marked := raised.(fields := raised.fields[key := f], projections := raised.projections[p.Id() := p]);
        StoreSettles(w, raised, f, p);
        StoreReply(w.bus, raised, p, f);
      }
    case Consume(owner, name, event, now) =>
      var s := ReadState(zone, w.disk, now);
      var key := StorageKey(owner, name);
      var g := s.fields[key];
      StorageKeyInjective(owner, name, g.owner, g.name);
      var p := ConsumeProjection(g);
      if g.consumedBy.Some? {
        f := g;
        marked := s.(projections := s.projections[p.Id() := p]);
        RedeliverSettles(w, s, f, p);
        RedeliverReply(w.bus, s, p, f);
      } else {
        f := g.(consumedBy := Some(event), consumedAt := Some(now));
        marked := s.(fields := s.fields[key := f], projections := s.projections[p.Id() := p]);
        StoreSettles(w, s, f, p);
        StoreReply(w.bus, s, p, f);
      }
  }

  lemma StoreReply(bus: seq<BusEvent>, s: State, p: Projection, f: Field)
    requires StoreAndFinish(bus, s, p, f).reply.Ok?
    ensures StoreAndFinish(bus, s, p, f).reply.value == Settled(f, p.Id())
  {
  }

  lemma RedeliverReply(bus: seq<BusEvent>, s: State, p: Projection, f: Field)
    requires Redeliver(bus, s, p, f).reply.Ok?
    requires p.Id() in s.projections ==> s.projections[p.Id()].Id() == p.Id()
    ensures Redeliver(bus, s, p, f).reply.value == Settled(f, p.Id())
  {
  }

  /** Exactly once: a call that settles leaves exactly one event with its projection id, the
      one announcing the stored field, and no marker. */
  lemma SettledMeansExactlyOnce(zone: Zone, w: World, op: Op)
    requires Kept(w)
    ensures var a := AttemptOf(zone, w, op);
            a.reply.Ok? && a.reply.value.Settled? ==> SettledIn(Exec(w, a.steps), a.reply.value.field, a.reply.value.id)
  {
    hide AttemptSet, AttemptConsume, AttemptRollover;
    var a := AttemptOf(zone, w, op);
    if a.reply.Ok? && a.reply.value.Settled? {
      var marked, f := OperationSettles(zone, w, op);
      var p := MarkerOf(op, f);
      SettlesTo(w, a, marked, p, f);
      OnBusIffCounted(w.bus, p.Id());
      CountAppend(w.bus, PanelEvent(p.Id(), p.Body()), p.Id());
    }
  }

  // ---- retry convergence -------------------------------------------------------------------

  /** Worlds an interrupted settling attempt can leave after at least one durable step. */
  lemma InterruptedWorlds(w: World, a: Attempt, marked: State, p: Projection, f: Field, k: nat)
    requires Settles(w, a, marked, p, f) && 0 < k <= |a.steps|
    ensures var v := Exec(w, a.steps[..k]);
            && (v.disk == Some(marked) || (v.disk == Some(Compacted(marked, p.Id())) && v.bus == Delivered(w, marked, p).bus))
            && (v.bus == w.bus || v.bus == Delivered(w, marked, p).bus)
  {
    var e, c := Emit(PanelEvent(p.Id(), p.Body())), Write(Compacted(marked, p.Id()));
    var tail := Tail(w.bus, marked, p);
    var m := Write(marked);
    var v := Exec(w, a.steps[..k]);
    if k == |a.steps| {
      assert a.steps[..k] == a.steps;
      SettlesTo(w, a, marked, p, f);
    } else if k == 1 {
      assert a.steps[..1] == [a.steps[0]] && [a.steps[0]][1..] == [];
      assert Exec(Do(w, a.steps[0]), []) == Do(w, a.steps[0]);
    } else {
      assert a.steps == [m, e, c] && a.steps[..2] == [m, e] && [m, e][1..] == [e] && [e][1..] == [];
      assert Exec(Do(Do(w, m), e), []) == Do(Do(w, m), e);
      assert Exec(Do(w, m), [e]) == Do(Do(w, m), e);
    }
  }

  /** Redelivery from any of those worlds settles to the same world. */
  lemma RedeliverConverges(w: World, marked: State, p: Projection, f: Field, v: World)
    requires OnBus(w.bus, p.Id()).Some? ==> OnBus(w.bus, p.Id()).value == p.Body()
    requires p.Id() in marked.projections && marked.projections[p.Id()] == p && p.status.PendingDelivery?
    requires v.disk == Some(marked) || v.disk == Some(Compacted(marked, p.Id()))
    requires v.bus == w.bus || v.bus == Delivered(w, marked, p).bus
    ensures var a := Redeliver(v.bus, v.disk.value, p, f);
            a.reply == Ok(Settled(f, p.Id())) && Exec(v, a.steps) == Delivered(w, marked, p)
  {
    CountAppend(w.bus, PanelEvent(p.Id(), p.Body()), p.Id());
    var s := v.disk.value;
    var a := Redeliver(v.bus, s, p, f);
    if p.Id() in s.projections {
      FinishIsTail(v.bus, s, p, [], f);
      assert [] + Tail(v.bus, s, p) == Tail(v.bus, s, p);
      TailDelivers(v, s, p);
    } else {
      var again := s.(projections := s.projections[p.Id() := p]);
      assert again.projections == marked.projections;
      assert again == marked;
      FinishIsTail(v.bus, marked, p, [Write(marked)], f);
      assert a.steps[0] == Write(marked) && a.steps[1..] == Tail(v.bus, marked, p);
      TailDelivers(Do(v, Write(marked)), marked, p);
    }
  }

  /** The same call made again, possibly reading a later clock. */
  predicate Repeats(op: Op, again: Op) {
    match op
    case SetField(a) => again.SetField? && again.args.(observedAt := 0) == a.(observedAt := 0)
    case Consume(owner, name, event, _) =>
      again.Consume? && again.owner == owner && again.name == name && again.sourceEvent == event
    case Rollover(_, _) => false
  }

  lemma RepeatRedelivers(zone: Zone, v: World, op: Op, again: Op, s: State, f: Field)
    requires Repeats(op, again) && v.disk == Some(s)
    requires StorageKey(f.owner, f.name) in s.fields && s.fields[StorageKey(f.owner, f.name)] == f
    requires match op
             case SetField(a) => ArgumentsFit(a) && f.owner == a.owner && f.name == a.name
                                 && f.sourceEvent == a.sourceEvent && SameProjection(f, Typed(zone, a))
             case Consume(owner, name, event, _) =>
               PlainText(owner) && PlainText(name) && f.owner == owner && f.name == name && f.sourceEvent == event
               && f.consume.Once? && f.consumedBy == Some(event)
             case _ => false
    ensures AttemptOf(zone, v, again) == Redeliver(v.bus, s, MarkerOf(op, f), f)
  {
    hide Redeliver, StoreAndFinish;
    match op
    case SetField(a) => assert ArgumentsFit(again.args) && SameProjection(f, Typed(zone, again.args));
    case Consume(_, _, _, _) =>
  }

  /** Retry convergence: stop a settling call after any of its durable steps, or let it
      finish; repeating it, even with a later clock, settles with the same answer and the
      very same file and bus as the uninterrupted call. */
  lemma RetryConverges(zone: Zone, w: World, op: Op, again: Op, k: nat)
    requires Kept(w) && Repeats(op, again)
    requires AttemptOf(zone, w, op).reply.Ok? && AttemptOf(zone, w, op).reply.value.Settled?
    requires 0 < k <= |AttemptOf(zone, w, op).steps|
    ensures var whole := AttemptOf(zone, w, op);
            var interrupted := Exec(w, whole.steps[..k]);
            var retry := AttemptOf(zone, interrupted, again);
            retry.reply == whole.reply && Exec(interrupted, retry.steps) == Exec(w, whole.steps)
  {
    hide AttemptSet, AttemptConsume, AttemptRollover, Redeliver;
    var whole := AttemptOf(zone, w, op);
    var marked, f := OperationSettles(zone, w, op);
    var p := MarkerOf(op, f);
    SettlesTo(w, whole, marked, p, f);
    InterruptedWorlds(w, whole, marked, p, f, k);
    var v := Exec(w, whole.steps[..k]);
    RepeatRedelivers(zone, v, op, again, v.disk.value, f);
    RedeliverConverges(w, marked, p, f, v);
  }

  // ---- owners ------------------------------------------------------------------------------

  /** Nothing about other owners changes between two files. */
  ghost predicate OthersUntouched(s: State, t: State, owner: string) {
    && (forall k :: k in s.fields && s.fields[k].owner != owner ==> k in t.fields && t.fields[k] == s.fields[k])
    && (forall k :: k in t.fields && t.fields[k].owner != owner ==> k in s.fields && t.fields[k] == s.fields[k])
    && (forall o :: o != owner ==> (o in s.ownerEpochs <==> o in t.ownerEpochs))
    && (forall o :: o != owner && o in s.ownerEpochs && o in t.ownerEpochs ==> t.ownerEpochs[o] == s.ownerEpochs[o])
  }

  /** An owner's epoch is never lost and never moves back. */
  predicate EpochsAdvance(s: State, t: State) {
    forall o <- s.ownerEpochs :: o in t.ownerEpochs && s.ownerEpochs[o] <= t.ownerEpochs[o]
  }

  /** A consumed field is either still there, exactly as consumed, or was reset away. */
  predicate ConsumedStays(s: State, t: State) {
    forall k <- s.fields :: s.fields[k].consume.Once? && s.fields[k].consumedBy.Some? && k in t.fields ==>
      t.fields[k] == s.fields[k]
  }

  ghost predicate Moves(zone: Zone, disk: Option<State>, t: State, owner: string, now: int) {
    var s := ReadState(zone, disk, now);
    OthersUntouched(s, t, owner) && EpochsAdvance(s, t) && ConsumedStays(s, t)
  }

  /** Every file an attempt writes moves only its own owner, and only forward. */
  ghost predicate WritesMove(zone: Zone, disk: Option<State>, steps: seq<Step>, owner: string, now: int) {
    forall step <- steps :: step.Write? ==> Moves(zone, disk, step.state, owner, now)
  }

  lemma FinishMoves(zone: Zone, w: World, s: State, p: Projection, before: seq<Step>, f: Field, owner: string, now: int)
    requires Moves(zone, w.disk, s, owner, now) && WritesMove(zone, w.disk, before, owner, now)
    ensures WritesMove(zone, w.disk, Finish(w.bus, s, p, before, f).steps, owner, now)
  {
    assert Moves(zone, w.disk, Compacted(s, p.Id()), owner, now);
    forall step | step in Finish(w.bus, s, p, before, f).steps && step.Write?
      ensures Moves(zone, w.disk, step.state, owner, now)
    {
      assert step in before || step.state == Compacted(s, p.Id());
    }
  }

  lemma RedeliverMoves(zone: Zone, w: World, p: Projection, f: Field, owner: string, now: int)
    ensures WritesMove(zone, w.disk, Redeliver(w.bus, ReadState(zone, w.disk, now), p, f).steps, owner, now)
  {
    hide Finish;
    var s := ReadState(zone, w.disk, now);
    if p.Id() in s.projections {
      FinishMoves(zone, w, s, s.projections[p.Id()], [], f, owner, now);
    } else {
      var marked := s.(projections := s.projections[p.Id() := p]);
      FinishMoves(zone, w, marked, p, [Write(marked)], f, owner, now);
    }
  }

  lemma StoreMoves(zone: Zone, w: World, s: State, p: Projection, f: Field, owner: string, now: int)
    requires var t := s.(fields := s.fields[StorageKey(f.owner, f.name) := f], projections := s.projections[p.Id() := p]);
             Moves(zone, w.disk, t, owner, now)
    ensures WritesMove(zone, w.disk, StoreAndFinish(w.bus, s, p, f).steps, owner, now)
  {
    hide Finish;
    var t := s.(fields := s.fields[StorageKey(f.owner, f.name) := f], projections := s.projections[p.Id() := p]);
    FinishMoves(zone, w, t, p, [Write(t)], f, owner, now);
  }

  function ClockOf(op: Op): int {
    match op
    case SetField(args) => args.observedAt
    case Consume(_, _, _, now) => now
    case Rollover(_, now) => now
  }

  lemma SetMoves(zone: Zone, w: World, a: SetArgs)
    requires Kept(w)
    ensures WritesMove(zone, w.disk, AttemptSet(zone, w, a).steps, a.owner, a.observedAt)
  {
    hide Finish, Redeliver, StoreAndFinish, WritesMove;
    var s := ReadState(zone, w.disk, a.observedAt);
    var key := StorageKey(a.owner, a.name);
    if AttemptSet(zone, w, a).steps == [] {
      NoWrites(zone, w.disk, a.owner, a.observedAt);
    } else {
      if key in s.fields {
        StorageKeyInjective(a.owner, a.name, s.fields[key].owner, s.fields[key].name);
      }
      if key in s.fields && s.fields[key].sourceEvent == a.sourceEvent {
        RedeliverMoves(zone, w, UpdateProjection(s.fields[key]), s.fields[key], a.owner, a.observedAt);
      } else {
        var f := Typed(zone, a);
        StoreMoves(zone, w, s.(ownerEpochs := s.ownerEpochs[a.owner := f.epoch]), UpdateProjection(f), f, a.owner, a.observedAt);
      }
    }
  }

  lemma NoWrites(zone: Zone, disk: Option<State>, owner: string, now: int)
    ensures WritesMove(zone, disk, [], owner, now)
  {
  }

  lemma ConsumeMoves(zone: Zone, w: World, owner: string, name: string, event: string, now: int)
    requires Kept(w)
    ensures WritesMove(zone, w.disk, AttemptConsume(zone, w, owner, name, event, now).steps, owner, now)
  {
    hide Finish, Redeliver, StoreAndFinish, WritesMove;
    var s := ReadState(zone, w.disk, now);
    if AttemptConsume(zone, w, owner, name, event, now).steps == [] {
      NoWrites(zone, w.disk, owner, now);
    } else {
      var f := s.fields[StorageKey(owner, name)];
      StorageKeyInjective(owner, name, f.owner, f.name);
      if f.consumedBy.Some? {
        RedeliverMoves(zone, w, ConsumeProjection(f), f, owner, now);
      } else {
        StoreMoves(zone, w, s, ConsumeProjection(f), f.(consumedBy := Some(event), consumedAt := Some(now)), owner, now);
      }
    }
  }

  lemma OperationMoves(zone: Zone, w: World, op: Op)
    requires Kept(w)
    ensures WritesMove(zone, w.disk, AttemptOf(zone, w, op).steps, op.Owner(), ClockOf(op))
  {
    hide AttemptSet, AttemptConsume;
    match op
    case SetField(a) => SetMoves(zone, w, a);
    case Consume(owner, name, event, now) => ConsumeMoves(zone, w, owner, name, event, now);
    case Rollover(owner, now) =>
  }

  lemma {:induction false} LastWrite(w: World, steps: seq<Step>)
    ensures Exec(w, steps).disk == w.disk || exists step :: step in steps && step.Write? && Exec(w, steps).disk == Some(step.state)
    decreases |steps|
  {
    if steps != [] {
      LastWrite(Do(w, steps[0]), steps[1..]);
      assert forall step :: step in steps[1..] ==> step in steps;
      assert steps[0] in steps;
    }
  }

  lemma UnmovedFile(s: State)
    ensures EpochsAdvance(s, s) && ConsumedStays(s, s)
  {
  }

  lemma MovedFileIsolates(zone: Zone, disk: Option<State>, state: State, owner: string, now: int, other: string, t: int)
    requires Moves(zone, disk, state, owner, now)
    ensures other != owner ==> VisibleTo(zone, Some(state), other, t) == VisibleTo(zone, disk, other, t)
    ensures disk.Some? ==> EpochsAdvance(disk.value, state) && ConsumedStays(disk.value, state)
  {
    var s, s0 := ReadState(zone, disk, now), ReadState(zone, disk, t);
    assert s.fields == s0.fields && s.ownerEpochs == s0.ownerEpochs;
  }

  /** Owner isolation and monotone epochs: an operation of one owner, stopped anywhere, leaves
      what every other owner sees unchanged at every time, never moves an owner's epoch back,
      and never revives or alters a consumed field. */
  lemma OwnersAreIsolated(zone: Zone, w: World, op: Op, k: nat, other: string, t: int)
    requires Kept(w) && k <= |AttemptOf(zone, w, op).steps|
    ensures var after := Exec(w, AttemptOf(zone, w, op).steps[..k]);
            && (other != op.Owner() ==> VisibleTo(zone, after.disk, other, t) == VisibleTo(zone, w.disk, other, t))
            && (w.disk.Some? ==> after.disk.Some? && EpochsAdvance(w.disk.value, after.disk.value)
                                 && ConsumedStays(w.disk.value, after.disk.value))
  {
    hide AttemptOf, Exec, Kept, Moves, VisibleTo, EpochsAdvance, ConsumedStays;
    var steps := AttemptOf(zone, w, op).steps;
    OperationMoves(zone, w, op);
    LastWrite(w, steps[..k]);
    var after := Exec(w, steps[..k]);
    if after.disk != w.disk {
      var step :| step in steps[..k] && step.Write? && after.disk == Some(step.state);
      assert step in steps;
      MovedFileIsolates(zone, w.disk, step.state, op.Owner(), ClockOf(op), other, t);
    } else if w.disk.Some? {
      UnmovedFile(w.disk.value);
    }
  }
}
