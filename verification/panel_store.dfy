/** PanelStore: the state file rewritten in place and the bus appended to, one durable step
    at a time (panel.py:680-715, 811-841, 893-1260). */
module PanelStores {
  import opened Basics
  import opened PanelModel
  import opened PanelOutbox

  /** An attempt carried out up to the first failed step; its answer is given exactly when
      no step failed. */
  ghost predicate Carried(before: World, after: World, a: Attempt, r: Result<Reply, PanelError>) {
    exists k :: 0 <= k <= |a.steps| && after == Exec(before, a.steps[..k]) &&
      (if k < |a.steps| then r == Err(WriteFailed) else r == a.reply)
  }

  lemma NothingCarried(w: World, a: Attempt)
    requires a.steps == []
    ensures Carried(w, w, a, a.reply)
  {
    assert a.steps[..0] == [] && Exec(w, []) == w;
  }

  /** One more step in front of an attempt. */
  lemma CarryOn(before: World, step: Step, rest: Attempt, after: World, r: Result<Reply, PanelError>)
    requires Carried(Do(before, step), after, rest, r)
    ensures Carried(before, after, Attempt([step] + rest.steps, rest.reply), r)
  {
    var a := Attempt([step] + rest.steps, rest.reply);
    var k :| 0 <= k <= |rest.steps| && after == Exec(Do(before, step), rest.steps[..k]) &&
      (if k < |rest.steps| then r == Err(WriteFailed) else r == rest.reply);
    assert a.steps[..k + 1][0] == step && a.steps[..k + 1][1..] == rest.steps[..k];
  }

  lemma FailedAtOnce(w: World, a: Attempt)
    requires a.steps != []
    ensures Carried(w, w, a, Err(WriteFailed))
  {
    assert a.steps[..0] == [] && Exec(w, []) == w;
  }

  class PanelStore {
    const zone: Zone
    var disk: Option<State>
    var bus: seq<BusEvent>

    constructor (zone: Zone)
      ensures this.zone == zone && Here() == World(None, []) && Valid()
    {
      this.zone := zone;
      disk, bus := None, [];
    }

    function Here(): World
      reads this
    {
      World(disk, bus)
    }

    ghost predicate Valid()
      reads this
    {
      Kept(Here())
    }

    /** Atomic replacement of the state file; it may fail. */
    method WriteState(s: State) returns (ok: bool)
      modifies this`disk
      ensures Here() == if ok then Do(old(Here()), Write(s)) else old(Here())
    {
      ok := *;
      if ok { disk := Some(s); }
    }

    /** A durable bus append; it may fail. */
    method EmitEvent(e: BusEvent) returns (ok: bool)
      modifies this`bus
      ensures Here() == if ok then Do(old(Here()), Emit(e)) else old(Here())
    {
      ok := *;
      if ok { bus := bus + [e]; }
    }

    /** _bus_projection_exists: scan for the first event with this id. */
    method BusProjectionExists(p: Projection) returns (r: Result<bool, PanelError>)
      ensures r == match OnBus(bus, p.Id())
                   case None => Ok(false)
                   case Some(body) => if body == p.Body() then Ok(true) else Err(BusConflict)
    {
      for i := 0 to |bus|
        invariant OnBus(bus, p.Id()) == OnBus(bus[i..], p.Id())
      {
        assert bus[i..][1..] == bus[i + 1..];
        if bus[i].PanelEvent? && bus[i].id == p.Id() {
          return if bus[i].body == p.Body() then Ok(true) else Err(BusConflict);
        }
      }
      return Ok(false);
    }

    /** _finish_projection: deliver unless delivered, then drop the marker. */
    method FinishProjection(s: State, p: Projection, f: Field) returns (r: Result<Reply, PanelError>)
      requires p.status.PendingDelivery?
      modifies this
      ensures Carried(old(Here()), Here(), Finish(old(bus), s, p, [], f), r)
    {
      ghost var before := Here();
      ghost var a := Finish(bus, s, p, [], f);
      FinishIsTail(bus, s, p, [], f);
      assert [] + Tail(bus, s, p) == Tail(bus, s, p);
      var compact := Compacted(s, p.Id());
      ghost var settled: Attempt := Attempt([Write(compact)], Ok(Settled(f, p.Id())));
      var found := BusProjectionExists(p);
      if found.Err? {
        NothingCarried(before, a);
        return Err(found.error);
      }
      if !found.value {
        var ok := EmitEvent(PanelEvent(p.Id(), p.Body()));
        if !ok {
          FailedAtOnce(before, a);
          return Err(WriteFailed);
        }
      }
      ghost var middle := Here();
      var ok := WriteState(compact);
      r := if ok then Ok(Settled(f, p.Id())) else Err(WriteFailed);
      if ok {
        NothingCarried(Here(), Attempt([], Ok(Settled(f, p.Id()))));
        CarryOn(middle, Write(compact), Attempt([], Ok(Settled(f, p.Id()))), Here(), r);
        assert [Write(compact)] + [] == [Write(compact)];
      } else {
        FailedAtOnce(middle, settled);
      }
      if !found.value {
        CarryOn(before, Emit(PanelEvent(p.Id(), p.Body())), settled, Here(), r);
        assert [Emit(PanelEvent(p.Id(), p.Body()))] + [Write(compact)] == a.steps;
      }
    }

    /** Write a file holding the marker, then finish. */
    method MarkAndFinish(s: State, p: Projection, f: Field) returns (r: Result<Reply, PanelError>)
      requires p.status.PendingDelivery?
      modifies this
      ensures Carried(old(Here()), Here(), Finish(old(bus), s, p, [Write(s)], f), r)
    {
      hide Carried, Finish;
      ghost var before := Here();
      ghost var a := Finish(bus, s, p, [Write(s)], f);
      ghost var rest := Finish(bus, s, p, [], f);
      FinishIsTail(bus, s, p, [Write(s)], f);
      FinishIsTail(bus, s, p, [], f);
      assert a.steps == [Write(s)] + rest.steps;
      assert a == Attempt([Write(s)] + rest.steps, rest.reply);
      var ok := WriteState(s);
      if !ok {
        FailedAtOnce(before, a);
        return Err(WriteFailed);
      }
      r := FinishProjection(s, p, f);
      CarryOn(before, Write(s), rest, Here(), r);
    }

    method RedeliverField(s: State, marker: Projection, f: Field) returns (r: Result<Reply, PanelError>)
      requires marker.status.PendingDelivery?
      requires marker.Id() in s.projections ==> s.projections[marker.Id()].status.PendingDelivery?
      modifies this
      ensures Carried(old(Here()), Here(), Redeliver(old(bus), s, marker, f), r)
    {
      hide Carried, Finish;
      if marker.Id() in s.projections {
        r := FinishProjection(s, s.projections[marker.Id()], f);
      } else {
        r := MarkAndFinish(s.(projections := s.projections[marker.Id() := marker]), marker, f);
      }
    }

    /** set_field. */
    method Set(a: SetArgs) returns (r: Result<Reply, PanelError>)
      requires Valid()
      modifies this
      ensures Carried(old(Here()), Here(), AttemptSet(zone, old(Here()), a), r)
      ensures Valid()
    {
      hide Carried, Finish;
      OperationStaysValid(zone, Here(), SetField(a), AttemptSet(zone, Here(), a));
      ghost var before := Here();
      ghost var attempt := AttemptSet(zone, before, a);
      if attempt.steps == [] { NothingCarried(before, attempt); }
      if !ArgumentsFit(a) { return Err(BadArguments); }
      var typed := Typed(zone, a);
      var key := StorageKey(a.owner, a.name);
      var s := ReadState(zone, disk, a.observedAt);
      var stored: Option<int> := if a.owner in s.ownerEpochs then Some(s.ownerEpochs[a.owner]) else None;
      if key in s.fields {
        var existing := s.fields[key];
        if existing.sourceEvent == a.sourceEvent {
          if !SameProjection(existing, typed) { return Err(SourceConflict); }
          r := RedeliverField(s, UpdateProjection(existing), existing);
          return;
        }
        if stored.None? { stored := Some(existing.epoch); }
        if typed.epoch < stored.value { return Ok(Current(existing)); }
        if typed.observedAt < existing.observedAt { return Ok(Current(existing)); }
        if typed.observedAt == existing.observedAt { return Err(SameInstant); }
        if typed.epoch < existing.epoch { return Ok(Current(existing)); }
        if existing.consume.Once? { return Err(NotConsumed); }
      } else if stored.Some? && typed.epoch < stored.value {
        return Err(StaleForOwner);
      }
      var p := UpdateProjection(typed);
      s := s.(ownerEpochs := s.ownerEpochs[a.owner := typed.epoch]);
      s := s.(fields := s.fields[key := typed], projections := s.projections[p.Id() := p]);
      r := MarkAndFinish(s, p, typed);
    }

    /** consume. */
    method ConsumeField(owner: string, name: string, event: string, now: int) returns (r: Result<Reply, PanelError>)
      requires Valid()
      modifies this
      ensures Carried(old(Here()), Here(), AttemptConsume(zone, old(Here()), owner, name, event, now), r)
      ensures Valid()
    {
      hide Carried, Finish;
      OperationStaysValid(zone, Here(), Consume(owner, name, event, now), AttemptConsume(zone, Here(), owner, name, event, now));
      ghost var before := Here();
      ghost var attempt := AttemptConsume(zone, before, owner, name, event, now);
      if attempt.steps == [] { NothingCarried(before, attempt); }
      if !PlainText(owner) || !PlainText(name) { return Err(BadArguments); }
      var key := StorageKey(owner, name);
      var s := ReadState(zone, disk, now);
      if key !in s.fields { return Err(Absent); }
      var f := s.fields[key];
      if !f.consume.Once? { return Err(NotConsumeOnce); }
      if event != f.sourceEvent { return Err(WrongSource); }
      if f.consumedBy.Some? {
        if f.consumedBy != Some(event) { return Err(ConsumedByOther); }
        r := RedeliverField(s, ConsumeProjection(f), f);
        return;
      }
      if f.expiresAt.Some? && f.expiresAt.value <= now { return Err(ExpiredField); }
      var target := if f.owner in s.ownerEpochs then s.ownerEpochs[f.owner] else EpochOf(zone, now);
      if f.reset.Daily? && f.epoch != target { return Err(StaleEpoch); }
      StorageKeyInjective(owner, name, f.owner, f.name);
      var consumed := f.(consumedBy := Some(event), consumedAt := Some(now));
      var p := ConsumeProjection(f);
      s := s.(fields := s.fields[key := consumed], projections := s.projections[p.Id() := p]);
      r := MarkAndFinish(s, p, consumed);
    }

    /** rollover: a loop deletes the owner's outdated daily fields. */
    method RollOver(owner: string, now: int) returns (r: Result<Reply, PanelError>)
      requires Valid()
      modifies this
      ensures Carried(old(Here()), Here(), AttemptRollover(zone, old(Here()), owner, now), r)
      ensures Valid()
    {
      hide Carried;
      OperationStaysValid(zone, Here(), Rollover(owner, now), AttemptRollover(zone, Here(), owner, now));
      ghost var before := Here();
      ghost var attempt := AttemptRollover(zone, before, owner, now);
      if attempt.steps == [] { NothingCarried(before, attempt); }
      var epoch := EpochOf(zone, now);
      var s := ReadState(zone, disk, now);
      if epoch < s.epoch { return Ok(Rolled); }
      if owner in s.ownerEpochs && epoch < s.ownerEpochs[owner] { return Ok(Rolled); }
      var changed := epoch > s.epoch;
      if owner !in s.ownerEpochs || epoch > s.ownerEpochs[owner] { changed := true; }
      var fields := s.fields;
      var todo := s.fields.Keys;
      var removed := false;
      while todo != {}
        invariant todo <= s.fields.Keys
        invariant forall k :: k in fields <==> k in s.fields && (k in todo || !ResetBy(s.fields[k], owner, epoch))
        invariant forall k <- fields :: fields[k] == s.fields[k]
        invariant removed <==> exists k :: k in s.fields && k !in fields
      {
        var k :| k in todo;
        todo := todo - {k};
        if ResetBy(s.fields[k], owner, epoch) {
          fields := fields - {k};
          removed := true;
          assert k in s.fields && k !in fields;
        }
      }
      assert fields == Reset(s.fields, owner, epoch);
      assert !removed ==> fields == s.fields;
      if changed || removed {
        s := s.(epoch := epoch, ownerEpochs := s.ownerEpochs[owner := epoch], fields := fields);
        assert attempt.steps == [Write(s)];
        var ok := WriteState(s);
        if !ok {
          FailedAtOnce(before, attempt);
          return Err(WriteFailed);
        }
        NothingCarried(Here(), Attempt([], Ok(Rolled)));
        CarryOn(before, Write(s), Attempt([], Ok(Rolled)), Here(), Ok(Rolled));
        assert [Write(s)] + [] == [Write(s)];
      }
      return Ok(Rolled);
    }

    /** _visible_records for one owner. */
    method VisibleRecords(owner: string, now: int) returns (visible: map<string, Field>)
      ensures visible == VisibleTo(zone, disk, owner, now)
    {
      var s := ReadState(zone, disk, now);
      var currentEpoch := EpochOf(zone, now);
      visible := map[];
      var todo := s.fields.Keys;
      while todo != {}
        invariant todo <= s.fields.Keys
        invariant forall k :: k in visible <==>
          k in s.fields && k !in todo && s.fields[k].owner == owner && Visible(zone, s, s.fields[k], now)
        invariant forall k <- visible :: visible[k] == s.fields[k]
      {
        var k :| k in todo;
        todo := todo - {k};
        var f := s.fields[k];
        if f.owner != owner { continue; }
        if f.expiresAt.Some? && f.expiresAt.value <= now { continue; }
        var target := if f.owner in s.ownerEpochs then s.ownerEpochs[f.owner] else currentEpoch;
        if f.reset.Daily? && f.epoch != target { continue; }
        if f.consume.Once? && f.consumedBy.Some? { continue; }
        visible := visible[k := f];
      }
    }
  }

  /** Whatever part of an operation was carried out, the invariant holds. */
  lemma OperationStaysValid(zone: Zone, w: World, op: Op, a: Attempt)
    requires Kept(w) && a == AttemptOf(zone, w, op)
    ensures forall after, r :: Carried(w, after, a, r) ==> Kept(after)
  {
    hide AttemptOf, Kept;
    forall after, r | Carried(w, after, a, r) ensures Kept(after) {
      var k :| 0 <= k <= |a.steps| && after == Exec(w, a.steps[..k]) &&
        (if k < |a.steps| then r == Err(WriteFailed) else r == a.reply);
      OperationKept(zone, w, op, k);
    }
  }
}
