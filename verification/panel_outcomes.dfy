/** What one completed panel call does to the file and the bus, field by field, and what the owner
    sees afterwards (panel.py:811-841, 924-1260). */
module PanelOutcomes {
  import opened Basics
  import opened PanelModel
  import opened PanelOutbox
  import opened PanelSettlement
  import opened PanelConflicts
  import opened PanelLosses

  /** The panel day with number e begins at its anchor hour, local time, and lasts a day. */
  lemma EpochMeans(zone: Zone, t: int)
    requires 0 <= zone.anchorHour <= 23
    ensures var begins := EpochOf(zone, t) * 86400 + zone.anchorHour * 3600;
            begins <= t + zone.offset < begins + 86400
  {
  }

  /** The file as a call finds it; without one, an empty file of the call's day. */
  function Found(zone: Zone, w: World, now: int): State {
    if w.disk.Some? then w.disk.value else State(EpochOf(zone, now), map[], map[], map[])
  }

  /** The arguments a set may be given. */
  predicate Fit(a: SetArgs) {
    && SEPARATOR !in a.owner && SEPARATOR !in a.name && 0.0 <= a.confidence <= 1.0
    && (a.persistence.ConsumeOnce? <==> a.consume.Once?)
    && (a.persistence.Persistent? ==> a.ttl.None?)
    && (!a.persistence.Persistent? ==> a.ttl.Some? && 0 < a.ttl.value)
  }

  /** The field holds what the call was given: its value under its source, until its time to live has
      passed, in the day it was observed in, and not consumed. */
  predicate Holds(zone: Zone, f: Field, a: SetArgs) {
    && f.owner == a.owner && f.name == a.name && f.value == a.value && f.source == a.source
    && f.sourceEvent == a.sourceEvent && f.observedAt == a.observedAt && f.confidence == a.confidence
    && f.reset == a.reset && f.persistence == a.persistence && f.consume == a.consume
    && (a.persistence.Persistent? ==> f.expiresAt == None)
    && (!a.persistence.Persistent? && a.ttl.Some? ==> f.expiresAt == Some(a.observedAt + a.ttl.value))
    && f.epoch == EpochOf(zone, a.observedAt) && f.consumedBy == None && f.consumedAt == None
  }

  function IdOf(kind: Kind, f: Field): ProjectionId { ProjectionId(kind, f.owner, f.name, f.sourceEvent) }

  /** The event that announces a field; only updates carry its expiry. */
  function Announcement(kind: Kind, f: Field): BusEvent {
    PanelEvent(IdOf(kind, f), Projection(kind, f.source, f.name, f.owner, f.sourceEvent,
                                         if kind.FieldUpdated? then f.expiresAt else None, Delivered))
  }

  /** The bus after the announcement: exactly one event more, unless it was there. */
  function Announced(bus: seq<BusEvent>, e: BusEvent): seq<BusEvent>
    requires e.PanelEvent?
  {
    if exists earlier :: earlier in bus && earlier.PanelEvent? && earlier.id == e.id then bus else bus + [e]
  }

  lemma {:induction false} OnBusMeans(bus: seq<BusEvent>, id: ProjectionId)
    ensures OnBus(bus, id).Some? <==> exists earlier :: earlier in bus && earlier.PanelEvent? && earlier.id == id
    ensures OnBus(bus, id).Some? ==> PanelEvent(id, OnBus(bus, id).value) in bus
    decreases |bus|
  {
    if bus != [] {
      OnBusMeans(bus[1..], id);
      assert forall e :: e in bus <==> e == bus[0] || e in bus[1..];
      if bus[0].PanelEvent? && bus[0].id == id { assert bus[0] in bus; }
    }
  }

  /** The call settles: the file is left like this, the announcement is on the bus, its marker is gone. */
  predicate SettlesWith(w: World, attempt: Attempt, file: State, kind: Kind, f: Field) {
    && attempt.reply == Ok(Settled(f, IdOf(kind, f)))
    && Exec(w, attempt.steps) == World(Some(file.(projections := file.projections - {IdOf(kind, f)})),
                                       Announced(w.bus, Announcement(kind, f)))
  }

  /** The bus already carries another announcement under this id. */
  predicate Blocked(bus: seq<BusEvent>, e: BusEvent)
    requires e.PanelEvent?
  {
    OnBus(bus, e.id).Some? && OnBus(bus, e.id).value != e.body
  }

  lemma SettledWorld(zone: Zone, w: World, op: Op)
    requires Kept(w) && Admitted(zone, w, op)
    ensures !op.Rollover? && AnnouncedField(zone, w, op).Some?
    ensures !Reused(w.bus, Marker(zone, w, op)) ==>
              Exec(w, AttemptOf(zone, w, op).steps) == PanelSettlement.Delivered(w, Marked(zone, w, op), Marker(zone, w, op))
  {
    hide Admitted, AttemptOf, Tail, Known, AnnouncedField;
    AdmittedSteps(zone, w, op);
    var marked, p := Marked(zone, w, op), Marker(zone, w, op);
    if !Reused(w.bus, p) {
      if Waiting(zone, w, op) {
        WaitingIsMarked(zone, w, op);
        TailDelivers(w, marked, p);
      } else {
        var steps := [Write(marked)] + Tail(w.bus, marked, p);
        assert steps[0] == Write(marked) && steps[1..] == Tail(w.bus, marked, p);
        TailDelivers(Do(w, Write(marked)), marked, p);
      }
    }
  }

  lemma WaitingIsMarked(zone: Zone, w: World, op: Op)
    requires Kept(w) && Admitted(zone, w, op) && !op.Rollover? && AnnouncedField(zone, w, op).Some? && Waiting(zone, w, op)
    ensures w.disk == Some(Marked(zone, w, op))
  {
    var s, p := w.disk.value, Marker(zone, w, op);
    if op.SetField? {
      var f := s.fields[KeyOf(op)];
      StorageKeyInjective(op.args.owner, op.args.name, f.owner, f.name);
    } else {
      var f := s.fields[KeyOf(op)];
      StorageKeyInjective(op.owner, op.name, f.owner, f.name);
    }
    assert s.projections[p.Id()] == p;
    assert s.projections[p.Id() := p] == s.projections;
  }

  // ---- set -------------------------------------------------------------------------------

  /** Nothing the owner has is newer than what the call observed, and it would not replace a field
      that is to be consumed. */
  predicate Newest(zone: Zone, s: State, a: SetArgs) {
    var key := StorageKey(a.owner, a.name);
    && (a.owner in s.ownerEpochs ==> s.ownerEpochs[a.owner] <= EpochOf(zone, a.observedAt))
    && (key in s.fields ==> s.fields[key].observedAt < a.observedAt && s.fields[key].epoch <= EpochOf(zone, a.observedAt)
                            && !s.fields[key].consume.Once?)
  }

  /** A set of a source event that is not the stored one settles exactly when it fits, is newest and is
      not blocked on the bus; then the file holds a field with exactly what it was given. */
  lemma SetMeans(zone: Zone, w: World, a: SetArgs)
    requires Kept(w)
    requires var s, key := Found(zone, w, a.observedAt), StorageKey(a.owner, a.name);
             key in s.fields ==> s.fields[key].sourceEvent != a.sourceEvent
    ensures var s, key, attempt := Found(zone, w, a.observedAt), StorageKey(a.owner, a.name), AttemptOf(zone, w, SetField(a));
            var settled := attempt.reply.Ok? && attempt.reply.value.Settled?;
            && (settled ==>
                  var f := attempt.reply.value.field;
                  && Holds(zone, f, a)
                  && SettlesWith(w, attempt, s.(fields := s.fields[key := f], ownerEpochs := s.ownerEpochs[a.owner := f.epoch]), FieldUpdated, f))
            && (settled || attempt.reply == Err(BusConflict) <==> Fit(a) && Newest(zone, s, a))
            && (attempt.reply == Err(BusConflict) ==>
                  forall f :: Holds(zone, f, a) ==> Blocked(w.bus, Announcement(FieldUpdated, f)))
            && (settled ==> !Blocked(w.bus, Announcement(FieldUpdated, attempt.reply.value.field)))
  {
    hide AttemptOf, Exec, Finish, Tail, StoreAndFinish, Redeliver;
    var op := SetField(a);
    var s, key := Found(zone, w, a.observedAt), StorageKey(a.owner, a.name);
    AdmittedIff(zone, w, op);
    if Admitted(zone, w, op) {
      SettlesUnlessReused(zone, w, op);
      SettledWorld(zone, w, op);
      var f := AnnouncedField(zone, w, op).value;
      assert Holds(zone, f, a);
      OnBusMeans(w.bus, IdOf(FieldUpdated, f));
      var p := UpdateProjection(f);
      assert s.projections[p.Id() := p] - {p.Id()} == s.projections - {p.Id()};
      forall g | Holds(zone, g, a) ensures g == f { SameHolding(zone, f, g, a); }
      if !Reused(w.bus, Marker(zone, w, op)) { NewSetReply(zone, w, a); }
    }
  }

  lemma SameHolding(zone: Zone, f: Field, g: Field, a: SetArgs)
    requires Fit(a) && Holds(zone, f, a) && Holds(zone, g, a)
    ensures f == g
  {
  }

  lemma NewSetReply(zone: Zone, w: World, a: SetArgs)
    requires Kept(w) && Admitted(zone, w, SetField(a)) && AttemptOf(zone, w, SetField(a)).reply.Ok?
    requires var s, key := Found(zone, w, a.observedAt), StorageKey(a.owner, a.name);
             key in s.fields ==> s.fields[key].sourceEvent != a.sourceEvent
    ensures AttemptOf(zone, w, SetField(a)).reply.value.Settled?
    ensures AttemptOf(zone, w, SetField(a)).reply.value.field == AnnouncedField(zone, w, SetField(a)).value
  {
    hide Finish;
    var s, f := ReadState(zone, w.disk, a.observedAt), Typed(zone, a);
    var raised := s.(ownerEpochs := s.ownerEpochs[a.owner := f.epoch]);
    if StorageKey(a.owner, a.name) in s.fields {
      var g := s.fields[StorageKey(a.owner, a.name)];
      StorageKeyInjective(a.owner, a.name, g.owner, g.name);
    }
    StoreReply(w.bus, raised, UpdateProjection(f), f);
  }

  /** What a set that neither settles nor is blocked answers; it writes nothing. */
  lemma SetIsTurnedAway(zone: Zone, w: World, a: SetArgs)
    requires Kept(w)
    requires var s, key := Found(zone, w, a.observedAt), StorageKey(a.owner, a.name);
             key in s.fields ==> s.fields[key].sourceEvent != a.sourceEvent || !Fit(a)
    requires !(Fit(a) && Newest(zone, Found(zone, w, a.observedAt), a))
    ensures var s, key, attempt := Found(zone, w, a.observedAt), StorageKey(a.owner, a.name), AttemptOf(zone, w, SetField(a));
            && attempt.steps == []
            && (!Fit(a) ==> attempt.reply == Err(BadArguments))
            && (Fit(a) && key !in s.fields ==> attempt.reply == Err(StaleForOwner))
            && (Fit(a) && key in s.fields ==>
                  var f, day := s.fields[key], EpochOf(zone, a.observedAt);
                  attempt.reply == if (a.owner in s.ownerEpochs && day < s.ownerEpochs[a.owner]) || a.observedAt < f.observedAt then Ok(Current(f))
                                   else if a.observedAt == f.observedAt then Err(SameInstant) else Err(NotConsumed))
  {
    hide StoreAndFinish, Redeliver, EpochOf;
    var s, key := Found(zone, w, a.observedAt), StorageKey(a.owner, a.name);
    if key in s.fields && Fit(a) { StorageKeyInjective(a.owner, a.name, s.fields[key].owner, s.fields[key].name); }
  }

  /** A set of the stored source event changes no field: with the stored content, at any time, it makes
      sure the stored field is announced; with other content it is refused. */
  lemma SetAgainMeans(zone: Zone, w: World, a: SetArgs)
    requires Kept(w) && w.disk.Some? && Fit(a)
    requires var s, key := w.disk.value, StorageKey(a.owner, a.name); key in s.fields && s.fields[key].sourceEvent == a.sourceEvent
    ensures var s, attempt := w.disk.value, AttemptOf(zone, w, SetField(a));
            var f := s.fields[StorageKey(a.owner, a.name)];
            var same := && f.value == a.value && f.source == a.source && f.confidence == a.confidence
                        && f.reset == a.reset && f.persistence == a.persistence && f.consume == a.consume;
            && (!same ==> attempt == Attempt([], Err(SourceConflict)))
            && (same && Blocked(w.bus, Announcement(FieldUpdated, f)) ==> attempt.reply == Err(BusConflict))
            && (same && !Blocked(w.bus, Announcement(FieldUpdated, f)) ==> SettlesWith(w, attempt, s, FieldUpdated, f))
  {
    hide Exec, Finish, Tail, StoreAndFinish;
    var op, s, key := SetField(a), w.disk.value, StorageKey(a.owner, a.name);
    var f := s.fields[key];
    StorageKeyInjective(a.owner, a.name, f.owner, f.name);
    if Admitted(zone, w, op) {
      SettlesUnlessReused(zone, w, op);
      SettledWorld(zone, w, op);
      OnBusMeans(w.bus, IdOf(FieldUpdated, f));
      var p := UpdateProjection(f);
      assert s.projections[p.Id() := p] - {p.Id()} == s.projections - {p.Id()};
      RedeliverReplies(w, s, p, f);
    }
  }

  // ---- consume ---------------------------------------------------------------------------

  /** The field is there to be consumed by this event. */
  predicate Consumable(zone: Zone, s: State, key: string, event: string, now: int) {
    && key in s.fields && s.fields[key].consume.Once? && s.fields[key].sourceEvent == event && s.fields[key].consumedBy.None?
    && (s.fields[key].expiresAt.Some? ==> now < s.fields[key].expiresAt.value)
    && (s.fields[key].reset.Daily? ==> s.fields[key].owner in s.ownerEpochs && s.fields[key].epoch == s.ownerEpochs[s.fields[key].owner])
  }

  /** A first consume settles exactly when the field is there to be consumed and its id is not blocked;
      then the field is the same but for who consumed it and when. */
  lemma ConsumeMeans(zone: Zone, w: World, owner: string, name: string, event: string, now: int)
    requires Kept(w) && SEPARATOR !in owner && SEPARATOR !in name
    requires var s, key := Found(zone, w, now), StorageKey(owner, name); key in s.fields ==> s.fields[key].consumedBy.None?
    ensures var s, key, attempt := Found(zone, w, now), StorageKey(owner, name), AttemptOf(zone, w, Consume(owner, name, event, now));
            && (Consumable(zone, s, key, event, now) ==>
                  var f := s.fields[key].(consumedBy := Some(event), consumedAt := Some(now));
                  if Blocked(w.bus, Announcement(FieldConsumed, f)) then attempt.reply == Err(BusConflict)
                  else SettlesWith(w, attempt, s.(fields := s.fields[key := f]), FieldConsumed, f))
            && (!Consumable(zone, s, key, event, now) ==> attempt.steps == [] && attempt.reply.Err?)
            && (attempt.reply == Err(Absent) <==> key !in s.fields)
            && (attempt.reply == Err(NotConsumeOnce) <==> key in s.fields && !s.fields[key].consume.Once?)
            && (attempt.reply == Err(WrongSource) <==> key in s.fields && s.fields[key].consume.Once? && s.fields[key].sourceEvent != event)
  {
    hide Exec, Finish, Tail, Redeliver;
    var op, s, key := Consume(owner, name, event, now), Found(zone, w, now), StorageKey(owner, name);
    if key in s.fields { StorageKeyInjective(owner, name, s.fields[key].owner, s.fields[key].name); }
    if Consumable(zone, s, key, event, now) {
      assert Admitted(zone, w, op);
      SettlesUnlessReused(zone, w, op);
      SettledWorld(zone, w, op);
      var f := s.fields[key].(consumedBy := Some(event), consumedAt := Some(now));
      OnBusMeans(w.bus, IdOf(FieldConsumed, f));
      var p := ConsumeProjection(s.fields[key]);
      assert s.projections[p.Id() := p] - {p.Id()} == s.projections - {p.Id()};
      StoreReplies(w.bus, s, p, f);
    }
  }

  /** A repeated consume changes no field, and makes sure the consumption is announced. */
  lemma ConsumeAgainMeans(zone: Zone, w: World, owner: string, name: string, event: string, now: int)
    requires Kept(w) && w.disk.Some? && SEPARATOR !in owner && SEPARATOR !in name
    requires var s, key := w.disk.value, StorageKey(owner, name);
             key in s.fields && s.fields[key].consume.Once? && s.fields[key].sourceEvent == event && s.fields[key].consumedBy.Some?
    ensures var s, attempt := w.disk.value, AttemptOf(zone, w, Consume(owner, name, event, now));
            var f := s.fields[StorageKey(owner, name)];
            && (f.consumedBy != Some(event) ==> attempt == Attempt([], Err(ConsumedByOther)))
            && (f.consumedBy == Some(event) ==>
                  if Blocked(w.bus, Announcement(FieldConsumed, f)) then attempt.reply == Err(BusConflict)
                  else SettlesWith(w, attempt, s, FieldConsumed, f))
  {
    hide Exec, Finish, Tail, StoreAndFinish;
    var op, s, key := Consume(owner, name, event, now), w.disk.value, StorageKey(owner, name);
    var f := s.fields[key];
    StorageKeyInjective(owner, name, f.owner, f.name);
    if f.consumedBy == Some(event) {
      SettlesUnlessReused(zone, w, op);
      SettledWorld(zone, w, op);
      OnBusMeans(w.bus, IdOf(FieldConsumed, f));
      var p := ConsumeProjection(f);
      assert s.projections[p.Id() := p] - {p.Id()} == s.projections - {p.Id()};
      RedeliverReplies(w, s, p, f);
    }
  }

  // ---- rollover --------------------------------------------------------------------------

  /** A rollover that is not behind the panel's or the owner's day opens the day for the owner: exactly
      the owner's daily fields of earlier days are gone. One that is behind does nothing. */
  lemma RolloverMeans(zone: Zone, w: World, owner: string, now: int)
    ensures var s, day, attempt := Found(zone, w, now), EpochOf(zone, now), AttemptOf(zone, w, Rollover(owner, now));
            var v := Exec(w, attempt.steps);
            && attempt.reply == Ok(Rolled) && v.bus == w.bus
            && if day < s.epoch || (owner in s.ownerEpochs && day < s.ownerEpochs[owner]) then v == w
               else && v.disk.Some? && v.disk.value.epoch == day && v.disk.value.projections == s.projections
                    && v.disk.value.ownerEpochs == s.ownerEpochs[owner := day]
                    && (forall k :: k in v.disk.value.fields <==>
                          k in s.fields && !(s.fields[k].owner == owner && s.fields[k].reset.Daily? && s.fields[k].epoch < day))
                    && (forall k <- v.disk.value.fields :: v.disk.value.fields[k] == s.fields[k])
  {
    hide EpochOf;
    var steps := AttemptOf(zone, w, Rollover(owner, now)).steps;
    if steps != [] {
      assert steps[1..] == [];
    }
    var s, day := Found(zone, w, now), EpochOf(zone, now);
    if owner in s.ownerEpochs && s.ownerEpochs[owner] == day { assert s.ownerEpochs[owner := day] == s.ownerEpochs; }
  }

  // ---- what the owner sees ---------------------------------------------------------------

  /** A field that was just set is seen by its owner, and by nobody else, from then until it expires. */
  lemma SetIsVisible(zone: Zone, w: World, a: SetArgs, reader: string, now: int)
    requires Kept(w)
    requires var s, key := Found(zone, w, a.observedAt), StorageKey(a.owner, a.name);
             key in s.fields ==> s.fields[key].sourceEvent != a.sourceEvent
    requires var reply := AttemptOf(zone, w, SetField(a)).reply; reply.Ok? && reply.value.Settled?
    ensures var v, key := Exec(w, AttemptOf(zone, w, SetField(a)).steps), StorageKey(a.owner, a.name);
            var seen := VisibleTo(zone, v.disk, reader, now);
            && (key in seen <==> reader == a.owner && (a.persistence.Persistent? || now < a.observedAt + a.ttl.value))
            && (key in seen ==> Holds(zone, seen[key], a))
  {
    hide AttemptOf, Exec, EpochOf;
    SetMeans(zone, w, a);
  }

  /** A consumed field is seen by nobody, at any time. */
  lemma ConsumedIsNotVisible(zone: Zone, w: World, owner: string, name: string, event: string, now: int, reader: string, later: int)
    requires Kept(w) && SEPARATOR !in owner && SEPARATOR !in name
    requires var attempt := AttemptOf(zone, w, Consume(owner, name, event, now)); attempt.reply.Ok?
    ensures StorageKey(owner, name) !in VisibleTo(zone, Exec(w, AttemptOf(zone, w, Consume(owner, name, event, now)).steps).disk, reader, later)
  {
    hide Exec, EpochOf, Finish;
    var s, key := Found(zone, w, now), StorageKey(owner, name);
    if key !in s.fields || s.fields[key].consumedBy.None? {
      ConsumeMeans(zone, w, owner, name, event, now);
    } else {
      ConsumeAgainMeans(zone, w, owner, name, event, now);
    }
  }

  /** After the owner's rollover into a day nothing of an earlier day that resets daily is seen. */
  lemma RolledIsNotVisible(zone: Zone, w: World, owner: string, now: int, later: int)
    requires Kept(w)
    requires var s, day := Found(zone, w, now), EpochOf(zone, now); s.epoch <= day && (owner in s.ownerEpochs ==> s.ownerEpochs[owner] <= day)
    ensures var seen := VisibleTo(zone, Exec(w, AttemptOf(zone, w, Rollover(owner, now)).steps).disk, owner, later);
            forall k <- seen :: seen[k].reset.Daily? ==> seen[k].epoch == EpochOf(zone, now)
  {
    hide AttemptOf, Exec, EpochOf;
    RolloverMeans(zone, w, owner, now);
  }

  /** What else is on the panel stays visible: a call shows or hides only its own field. */
  lemma VisibleIff(zone: Zone, s: State, owner: string, now: int, k: string)
    requires StateKept(s)
    ensures var seen := VisibleTo(zone, Some(s), owner, now);
            && (k in seen <==>
                  && k in s.fields && s.fields[k].owner == owner
                  && (s.fields[k].expiresAt.None? || now < s.fields[k].expiresAt.value)
                  && (s.fields[k].reset.KeepAcrossDays? || s.fields[k].epoch == s.ownerEpochs[owner])
                  && (s.fields[k].consume.Repeatable? || s.fields[k].consumedBy.None?))
            && (k in seen ==> seen[k] == s.fields[k])
  {
    hide EpochOf;
  }
}
