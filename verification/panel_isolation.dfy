/** Owners over whole runs: what one owner finds in the panel is what it would find if nobody else
    used it, as long as the epoch they share does not swallow one of its rollovers
    (panel.py:924-1260). */
module PanelIsolation {
  import opened Basics
  import opened PanelModel
  import opened PanelOutbox

  /** The part of the file that belongs to one owner. */
  datatype OwnView = OwnView(fields: map<string, Field>, epoch: Option<int>, markers: map<ProjectionId, Projection>)

  function OwnOf(s: State, o: string): OwnView {
    OwnView(map k | k in s.fields && s.fields[k].owner == o :: s.fields[k],
            if o in s.ownerEpochs then Some(s.ownerEpochs[o]) else None,
            map id | id in s.projections && id.owner == o :: s.projections[id])
  }

  function Own(disk: Option<State>, o: string): OwnView {
    if disk.Some? then OwnOf(disk.value, o) else OwnView(map[], None, map[])
  }

  ghost predicate SameBus(a: seq<BusEvent>, b: seq<BusEvent>, o: string) {
    forall id: ProjectionId :: id.owner == o ==> OnBus(a, id) == OnBus(b, id)
  }

  /** Two worlds one owner cannot tell apart. */
  ghost predicate SameTo(w: World, v: World, o: string) {
    Own(w.disk, o) == Own(v.disk, o) && SameBus(w.bus, v.bus, o)
  }

  lemma ReadOwn(zone: Zone, disk: Option<State>, now: int, o: string)
    ensures OwnOf(ReadState(zone, disk, now), o) == Own(disk, o)
  {
  }

  lemma EmitSame(a: seq<BusEvent>, b: seq<BusEvent>, e: BusEvent, o: string)
    requires SameBus(a, b, o)
    ensures SameBus(a + [e], b + [e], o)
    ensures e.OtherEvent? || e.id.owner != o ==> SameBus(a + [e], b, o)
  {
    forall id: ProjectionId
      ensures id.owner == o ==> OnBus(a + [e], id) == OnBus(b + [e], id)
      ensures id.owner == o && (e.OtherEvent? || e.id.owner != o) ==> OnBus(a + [e], id) == OnBus(b, id)
    {
      CountAppend(a, e, id);
      CountAppend(b, e, id);
    }
  }

  // ---- other owners' operations ----------------------------------------------------------

  /** Steps that leave one owner's part of the file and of the bus alone. */
  ghost predicate Aside(disk: Option<State>, steps: seq<Step>, o: string) {
    forall step <- steps ::
      match step
      case Write(s) => OwnOf(s, o) == Own(disk, o)
      case Emit(e) => e.PanelEvent? && e.id.owner != o
  }

  lemma {:induction false} AsideStaysSame(w: World, v: World, steps: seq<Step>, k: nat, o: string)
    requires SameTo(w, v, o) && k <= |steps| && Aside(v.disk, steps, o)
    ensures SameTo(Exec(w, steps[..k]), v, o)
    decreases |steps|
  {
    if k > 0 {
      assert steps[0] in steps && steps[..k][0] == steps[0] && steps[..k][1..] == steps[1..][..k - 1];
      assert forall step <- steps[1..] :: step in steps;
      match steps[0] {
        case Write(s) =>
        case Emit(e) => EmitSame(w.bus, v.bus, e, o);
      }
      AsideStaysSame(Do(w, steps[0]), v, steps[1..], k - 1, o);
    }
  }

  lemma MarkerAside(s: State, p: Projection, o: string)
    requires p.owner != o
    ensures OwnOf(s.(projections := s.projections[p.Id() := p]), o) == OwnOf(s, o)
    ensures OwnOf(s.(projections := s.projections - {p.Id()}), o) == OwnOf(s, o)
  {
  }

  lemma FinishAside(disk: Option<State>, bus: seq<BusEvent>, s: State, p: Projection, before: seq<Step>, f: Field, o: string)
    requires OwnOf(s, o) == Own(disk, o) && p.owner != o && Aside(disk, before, o)
    ensures Aside(disk, Finish(bus, s, p, before, f).steps, o)
  {
    hide OwnOf;
    MarkerAside(s, p, o);
  }

  lemma RedeliverAside(disk: Option<State>, bus: seq<BusEvent>, s: State, p: Projection, f: Field, o: string)
    requires OwnOf(s, o) == Own(disk, o) && p.owner != o && (p.Id() in s.projections ==> s.projections[p.Id()].Id() == p.Id())
    ensures Aside(disk, Redeliver(bus, s, p, f).steps, o)
  {
    hide OwnOf, Finish;
    if p.Id() in s.projections {
      FinishAside(disk, bus, s, s.projections[p.Id()], [], f, o);
    } else {
      MarkerAside(s, p, o);
      var marked := s.(projections := s.projections[p.Id() := p]);
      FinishAside(disk, bus, marked, p, [Write(marked)], f, o);
    }
  }

  lemma StoreAside(disk: Option<State>, bus: seq<BusEvent>, s: State, p: Projection, f: Field, o: string)
    requires OwnOf(s, o) == Own(disk, o) && p.owner == f.owner != o
    requires StorageKey(f.owner, f.name) in s.fields ==> s.fields[StorageKey(f.owner, f.name)].owner == f.owner
    ensures Aside(disk, StoreAndFinish(bus, s, p, f).steps, o)
  {
    hide Finish;
    var stored := s.(fields := s.fields[StorageKey(f.owner, f.name) := f], projections := s.projections[p.Id() := p]);
    assert OwnOf(stored, o) == OwnOf(s, o);
    FinishAside(disk, bus, stored, p, [Write(stored)], f, o);
  }

  lemma EpochAside(s: State, owner: string, epoch: int, o: string)
    requires owner != o
    ensures OwnOf(s.(ownerEpochs := s.ownerEpochs[owner := epoch]), o) == OwnOf(s, o)
  {
  }

  lemma RolloverAside(zone: Zone, w: World, owner: string, now: int, o: string)
    requires owner != o
    ensures Aside(w.disk, AttemptRollover(zone, w, owner, now).steps, o)
  {
    ReadOwn(zone, w.disk, now, o);
    var s := ReadState(zone, w.disk, now);
    var epoch := EpochOf(zone, now);
    var t := s.(epoch := epoch, ownerEpochs := s.ownerEpochs[owner := epoch], fields := Reset(s.fields, owner, epoch));
    assert OwnOf(t, o) == OwnOf(s, o);
  }

  /** Whose operation it is decides whose part of the panel moves. */
  lemma OperationAside(zone: Zone, w: World, op: Op, o: string)
    requires Kept(w) && op.Owner() != o
    ensures Aside(w.disk, AttemptOf(zone, w, op).steps, o)
  {
    hide Redeliver, StoreAndFinish, OwnOf, AttemptRollover;
    match op
    case SetField(a) =>
      ReadOwn(zone, w.disk, a.observedAt, o);
      var s, key := ReadState(zone, w.disk, a.observedAt), StorageKey(a.owner, a.name);
      if AttemptSet(zone, w, a).steps != [] {
        if key in s.fields { StorageKeyInjective(a.owner, a.name, s.fields[key].owner, s.fields[key].name); }
        if key in s.fields && s.fields[key].sourceEvent == a.sourceEvent {
          RedeliverAside(w.disk, w.bus, s, UpdateProjection(s.fields[key]), s.fields[key], o);
        } else {
          var f := Typed(zone, a);
          EpochAside(s, a.owner, f.epoch, o);
          StoreAside(w.disk, w.bus, s.(ownerEpochs := s.ownerEpochs[a.owner := f.epoch]), UpdateProjection(f), f, o);
        }
      }
    case Consume(owner, name, event, now) =>
      ReadOwn(zone, w.disk, now, o);
      var s, key := ReadState(zone, w.disk, now), StorageKey(owner, name);
      if AttemptConsume(zone, w, owner, name, event, now).steps != [] {
        var f := s.fields[key];
        StorageKeyInjective(owner, name, f.owner, f.name);
        if f.consumedBy.Some? {
          RedeliverAside(w.disk, w.bus, s, ConsumeProjection(f), f, o);
        } else {
          StoreAside(w.disk, w.bus, s, ConsumeProjection(f), f.(consumedBy := Some(event), consumedAt := Some(now)), o);
        }
      }
    case Rollover(owner, now) => RolloverAside(zone, w, owner, now, o);
  }

  // ---- the owner's own sets and consumes ---------------------------------------------------

  /** Step by step the same, as far as the owner can tell. */
  ghost predicate Alike(a: seq<Step>, b: seq<Step>, o: string) {
    && |a| == |b|
    && forall i :: 0 <= i < |a| ==>
         match a[i]
         case Write(s) => b[i].Write? && OwnOf(s, o) == OwnOf(b[i].state, o)
         case Emit(_) => b[i] == a[i]
  }

  lemma {:induction false} AlikeStaysSame(w: World, v: World, a: seq<Step>, b: seq<Step>, k: nat, o: string)
    requires SameTo(w, v, o) && Alike(a, b, o) && k <= |a|
    ensures SameTo(Exec(w, a[..k]), Exec(v, b[..k]), o)
    decreases |a|
  {
    if k > 0 {
      assert a[..k][0] == a[0] && a[..k][1..] == a[1..][..k - 1];
      assert b[..k][0] == b[0] && b[..k][1..] == b[1..][..k - 1];
      match a[0] {
        case Write(s) =>
        case Emit(e) => EmitSame(w.bus, v.bus, e, o);
      }
      AlikeStaysSame(Do(w, a[0]), Do(v, b[0]), a[1..], b[1..], k - 1, o);
    }
  }

  lemma MarkerEntered(s: State, p: Projection, o: string)
    ensures OwnOf(s.(projections := s.projections[p.Id() := p]), o) ==
            OwnOf(s, o).(markers := if p.owner == o then OwnOf(s, o).markers[p.Id() := p] else OwnOf(s, o).markers)
  {
  }

  lemma MarkerRemoved(s: State, id: ProjectionId, o: string)
    ensures OwnOf(s.(projections := s.projections - {id}), o) == OwnOf(s, o).(markers := OwnOf(s, o).markers - {id})
  {
  }

  lemma MarkerAlike(s: State, t: State, p: Projection, o: string)
    requires OwnOf(s, o) == OwnOf(t, o)
    ensures OwnOf(s.(projections := s.projections[p.Id() := p]), o) == OwnOf(t.(projections := t.projections[p.Id() := p]), o)
    ensures OwnOf(s.(projections := s.projections - {p.Id()}), o) == OwnOf(t.(projections := t.projections - {p.Id()}), o)
  {
    hide OwnOf;
    MarkerEntered(s, p, o);
    MarkerEntered(t, p, o);
    MarkerRemoved(s, p.Id(), o);
    MarkerRemoved(t, p.Id(), o);
  }

  lemma FinishAlike(w: World, v: World, s: State, t: State, p: Projection, a: seq<Step>, b: seq<Step>, f: Field, o: string)
    requires SameBus(w.bus, v.bus, o) && OwnOf(s, o) == OwnOf(t, o) && p.owner == o && Alike(a, b, o)
    ensures Alike(Finish(w.bus, s, p, a, f).steps, Finish(v.bus, t, p, b, f).steps, o)
    ensures Finish(w.bus, s, p, a, f).reply == Finish(v.bus, t, p, b, f).reply
  {
    hide OwnOf;
    MarkerAlike(s, t, p, o);
    assert p.Id().owner == o && OnBus(w.bus, p.Id()) == OnBus(v.bus, p.Id());
  }

  lemma RedeliverAlike(w: World, v: World, s: State, t: State, p: Projection, f: Field, o: string)
    requires SameBus(w.bus, v.bus, o) && OwnOf(s, o) == OwnOf(t, o) && p.owner == o
    requires p.Id() in s.projections ==> s.projections[p.Id()].Id() == p.Id()
    ensures Alike(Redeliver(w.bus, s, p, f).steps, Redeliver(v.bus, t, p, f).steps, o)
    ensures Redeliver(w.bus, s, p, f).reply == Redeliver(v.bus, t, p, f).reply
  {
    hide Finish;
    var id := p.Id();
    assert id in s.projections <==> id in OwnOf(s, o).markers;
    assert id in t.projections <==> id in OwnOf(t, o).markers;
    if id in s.projections {
      assert OwnOf(s, o).markers[id] == s.projections[id] && OwnOf(t, o).markers[id] == t.projections[id];
      FinishAlike(w, v, s, t, s.projections[id], [], [], f, o);
    } else {
      MarkerAlike(s, t, p, o);
      var marked, also := s.(projections := s.projections[id := p]), t.(projections := t.projections[id := p]);
      FinishAlike(w, v, marked, also, p, [Write(marked)], [Write(also)], f, o);
    }
  }

  lemma StoreAlike(w: World, v: World, s: State, t: State, p: Projection, f: Field, o: string)
    requires SameBus(w.bus, v.bus, o) && OwnOf(s, o) == OwnOf(t, o) && p.owner == f.owner == o
    ensures Alike(StoreAndFinish(w.bus, s, p, f).steps, StoreAndFinish(v.bus, t, p, f).steps, o)
    ensures StoreAndFinish(w.bus, s, p, f).reply == StoreAndFinish(v.bus, t, p, f).reply
  {
    hide Finish;
    var key := StorageKey(f.owner, f.name);
    var s1, t1 := s.(fields := s.fields[key := f]), t.(fields := t.fields[key := f]);
    assert OwnOf(s1, o).fields == OwnOf(s, o).fields[key := f] && OwnOf(t1, o).fields == OwnOf(t, o).fields[key := f];
    MarkerAlike(s1, t1, p, o);
    var stored, also := s1.(projections := s1.projections[p.Id() := p]), t1.(projections := t1.projections[p.Id() := p]);
    FinishAlike(w, v, stored, also, p, [Write(stored)], [Write(also)], f, o);
  }

  lemma EpochAlike(s: State, t: State, epoch: int, o: string)
    requires OwnOf(s, o) == OwnOf(t, o)
    ensures OwnOf(s.(ownerEpochs := s.ownerEpochs[o := epoch]), o) == OwnOf(t.(ownerEpochs := t.ownerEpochs[o := epoch]), o)
  {
    var s1, t1 := s.(ownerEpochs := s.ownerEpochs[o := epoch]), t.(ownerEpochs := t.ownerEpochs[o := epoch]);
    assert OwnOf(s1, o).fields == OwnOf(s, o).fields && OwnOf(t1, o).fields == OwnOf(t, o).fields;
    assert OwnOf(s1, o).markers == OwnOf(s, o).markers && OwnOf(t1, o).markers == OwnOf(t, o).markers;
  }

  /** A field of the owner is found under its key in both files or in neither. */
  lemma SameField(s: State, t: State, o: string, name: string)
    requires StateKept(s) && StateKept(t) && OwnOf(s, o) == OwnOf(t, o) && PlainText(o) && PlainText(name)
    ensures var key := StorageKey(o, name);
            && (key in s.fields <==> key in t.fields)
            && (key in s.fields ==> s.fields[key] == t.fields[key] && s.fields[key].owner == o && s.fields[key].name == name)
    ensures o in s.ownerEpochs <==> o in t.ownerEpochs
    ensures o in s.ownerEpochs ==> s.ownerEpochs[o] == t.ownerEpochs[o]
  {
    var key := StorageKey(o, name);
    if key in s.fields {
      StorageKeyInjective(o, name, s.fields[key].owner, s.fields[key].name);
      assert key in OwnOf(s, o).fields && OwnOf(t, o).fields[key] == s.fields[key];
    }
    if key in t.fields {
      StorageKeyInjective(o, name, t.fields[key].owner, t.fields[key].name);
      assert key in OwnOf(t, o).fields && OwnOf(s, o).fields[key] == t.fields[key];
    }
  }

  lemma KeptState(zone: Zone, w: World, now: int)
    requires Kept(w)
    ensures StateKept(ReadState(zone, w.disk, now))
  {
  }

  lemma MarkersNamed(s: State, id: ProjectionId)
    requires StateKept(s)
    ensures id in s.projections ==> s.projections[id].Id() == id
  {
  }

  lemma SetAlike(zone: Zone, w: World, v: World, a: SetArgs)
    requires Kept(w) && Kept(v) && SameTo(w, v, a.owner)
    ensures Alike(AttemptSet(zone, w, a).steps, AttemptSet(zone, v, a).steps, a.owner)
    ensures AttemptSet(zone, w, a).reply == AttemptSet(zone, v, a).reply
  {
    hide Redeliver, StoreAndFinish, OwnOf, StateKept, Kept;
    var o := a.owner;
    if ArgumentsFit(a) {
      var s, t := ReadState(zone, w.disk, a.observedAt), ReadState(zone, v.disk, a.observedAt);
      var key, f := StorageKey(o, a.name), Typed(zone, a);
      ReadOwn(zone, w.disk, a.observedAt, o);
      ReadOwn(zone, v.disk, a.observedAt, o);
      KeptState(zone, w, a.observedAt);
      KeptState(zone, v, a.observedAt);
      SameField(s, t, o, a.name);
      if key in s.fields {
        var p := UpdateProjection(s.fields[key]);
        MarkersNamed(s, p.Id());
        RedeliverAlike(w, v, s, t, p, s.fields[key], o);
      }
      EpochAlike(s, t, f.epoch, o);
      StoreAlike(w, v, s.(ownerEpochs := s.ownerEpochs[o := f.epoch]), t.(ownerEpochs := t.ownerEpochs[o := f.epoch]), UpdateProjection(f), f, o);
    }
  }

  lemma ConsumeAlike(zone: Zone, w: World, v: World, o: string, name: string, event: string, now: int)
    requires Kept(w) && Kept(v) && SameTo(w, v, o)
    ensures Alike(AttemptConsume(zone, w, o, name, event, now).steps, AttemptConsume(zone, v, o, name, event, now).steps, o)
    ensures AttemptConsume(zone, w, o, name, event, now).reply == AttemptConsume(zone, v, o, name, event, now).reply
  {
    hide Redeliver, StoreAndFinish, OwnOf, StateKept, Kept;
    if PlainText(o) && PlainText(name) {
      var s, t, key := ReadState(zone, w.disk, now), ReadState(zone, v.disk, now), StorageKey(o, name);
      ReadOwn(zone, w.disk, now, o);
      ReadOwn(zone, v.disk, now, o);
      KeptState(zone, w, now);
      KeptState(zone, v, now);
      SameField(s, t, o, name);
      if key in s.fields {
        var f := s.fields[key];
        var p := ConsumeProjection(f);
        MarkersNamed(s, p.Id());
        RedeliverAlike(w, v, s, t, p, f, o);
        StoreAlike(w, v, s, t, p, f.(consumedBy := Some(event), consumedAt := Some(now)), o);
      }
    }
  }

  // ---- the owner's rollovers -------------------------------------------------------------

  /** What a rollover means to its owner. */
  function Rolled(view: OwnView, o: string, epoch: int): OwnView {
    if view.epoch.Some? && epoch < view.epoch.value then view
    else OwnView(Reset(view.fields, o, epoch), Some(epoch), view.markers)
  }

  /** The shared epoch does not swallow the rollover: it is not ahead of the rollover's day, unless
      the owner's own epoch is too. */
  predicate OnTime(zone: Zone, w: World, op: Op) {
    op.Rollover? ==>
      var s, epoch := ReadState(zone, w.disk, op.now), EpochOf(zone, op.now);
      s.epoch <= epoch || (op.owner in s.ownerEpochs && epoch < s.ownerEpochs[op.owner])
  }

  lemma RolloverMeans(zone: Zone, w: World, o: string, now: int)
    ensures |AttemptRollover(zone, w, o, now).steps| <= 1
    ensures Exec(w, AttemptRollover(zone, w, o, now).steps).bus == w.bus
    ensures Own(Exec(w, AttemptRollover(zone, w, o, now).steps).disk, o) ==
            if OnTime(zone, w, Rollover(o, now)) then Rolled(Own(w.disk, o), o, EpochOf(zone, now)) else Own(w.disk, o)
  {
    var s, epoch := ReadState(zone, w.disk, now), EpochOf(zone, now);
    ReadOwn(zone, w.disk, now, o);
    var steps := AttemptRollover(zone, w, o, now).steps;
    var t := s.(epoch := epoch, ownerEpochs := s.ownerEpochs[o := epoch], fields := Reset(s.fields, o, epoch));
    assert OwnOf(t, o).fields == Reset(OwnOf(s, o).fields, o, epoch);
    assert OwnOf(t, o).markers == OwnOf(s, o).markers;
    if steps == [] {
      if Reset(s.fields, o, epoch) == s.fields { assert Reset(OwnOf(s, o).fields, o, epoch) == OwnOf(s, o).fields; }
    } else {
      assert steps == [Write(t)] && steps[1..] == [];
    }
  }

  // ---- runs ------------------------------------------------------------------------------

  function Mine(events: seq<Event>, o: string): seq<Event> {
    if events == [] then []
    else Mine(Front(events), o) + (if Last(events).Panel? && Last(events).op.Owner() == o then [Last(events)] else [])
  }

  /** None of the owner's rollovers is swallowed along a run. */
  predicate OnTimeRun(zone: Zone, events: seq<Event>, o: string) {
    events != [] ==>
      && OnTimeRun(zone, Front(events), o)
      && (Last(events).Panel? && Last(events).op.Owner() == o ==> OnTime(zone, Run(zone, Front(events)), Last(events).op))
  }

  /** Alone in the panel, an owner is never behind the shared epoch. */
  predicate Alone(disk: Option<State>, o: string) {
    disk.Some? ==> o in disk.value.ownerEpochs && disk.value.epoch <= disk.value.ownerEpochs[o]
  }

  lemma AloneOnTime(zone: Zone, w: World, op: Op)
    requires Alone(w.disk, op.Owner())
    ensures OnTime(zone, w, op)
  {
  }

  ghost predicate WritesAlone(steps: seq<Step>, o: string) {
    forall step <- steps :: step.Write? ==> Alone(Some(step.state), o)
  }

  lemma FinishAlone(bus: seq<BusEvent>, s: State, p: Projection, before: seq<Step>, f: Field, o: string)
    requires Alone(Some(s), o) && WritesAlone(before, o)
    ensures WritesAlone(Finish(bus, s, p, before, f).steps, o)
  {
  }

  lemma OwnStepsAlone(zone: Zone, w: World, op: Op)
    requires Kept(w) && Alone(w.disk, op.Owner())
    ensures WritesAlone(AttemptOf(zone, w, op).steps, op.Owner())
  {
    hide Finish, Kept;
    var o := op.Owner();
    match op
    case SetField(a) =>
      var s, key, f := ReadState(zone, w.disk, a.observedAt), StorageKey(a.owner, a.name), Typed(zone, a);
      if AttemptSet(zone, w, a).steps != [] {
        if key in s.fields && s.fields[key].sourceEvent == a.sourceEvent {
          RedeliverAlone(w.bus, s, UpdateProjection(s.fields[key]), s.fields[key], o);
        } else {
          StoreAlone(w.bus, s.(ownerEpochs := s.ownerEpochs[o := f.epoch]), UpdateProjection(f), f, o);
        }
      }
    case Consume(_, name, event, now) =>
      var s, key := ReadState(zone, w.disk, now), StorageKey(o, name);
      if AttemptConsume(zone, w, o, name, event, now).steps != [] {
        var f := s.fields[key];
        RedeliverAlone(w.bus, s, ConsumeProjection(f), f, o);
        StoreAlone(w.bus, s, ConsumeProjection(f), f.(consumedBy := Some(event), consumedAt := Some(now)), o);
      }
    case Rollover(_, _) =>
  }

  lemma RedeliverAlone(bus: seq<BusEvent>, s: State, p: Projection, f: Field, o: string)
    requires Alone(Some(s), o)
    ensures WritesAlone(Redeliver(bus, s, p, f).steps, o)
  {
    hide Finish;
    if p.Id() in s.projections {
      FinishAlone(bus, s, s.projections[p.Id()], [], f, o);
    } else {
      var marked := s.(projections := s.projections[p.Id() := p]);
      FinishAlone(bus, marked, p, [Write(marked)], f, o);
    }
  }

  lemma StoreAlone(bus: seq<BusEvent>, s: State, p: Projection, f: Field, o: string)
    requires Alone(Some(s), o)
    ensures WritesAlone(StoreAndFinish(bus, s, p, f).steps, o)
  {
    hide Finish;
    var stored := s.(fields := s.fields[StorageKey(f.owner, f.name) := f], projections := s.projections[p.Id() := p]);
    FinishAlone(bus, stored, p, [Write(stored)], f, o);
  }

  lemma {:induction false} ExecAlone(w: World, steps: seq<Step>, o: string)
    requires Alone(w.disk, o) && WritesAlone(steps, o)
    ensures Alone(Exec(w, steps).disk, o)
    decreases |steps|
  {
    if steps != [] {
      assert steps[0] in steps && forall step <- steps[1..] :: step in steps;
      ExecAlone(Do(w, steps[0]), steps[1..], o);
    }
  }

  /** One of the owner's operations, cut off or not, in two worlds it cannot tell apart: it is
      answered the same, and leaves worlds it cannot tell apart. */
  lemma OwnStepSame(zone: Zone, w: World, v: World, op: Op, n: nat)
    requires Kept(w) && Kept(v) && SameTo(w, v, op.Owner()) && OnTime(zone, w, op) && OnTime(zone, v, op)
    ensures SameTo(Happen(zone, w, Panel(op, n)), Happen(zone, v, Panel(op, n)), op.Owner())
    ensures AttemptOf(zone, w, op).reply == AttemptOf(zone, v, op).reply
  {
    hide AttemptSet, AttemptConsume, AttemptRollover, Kept, OwnOf, SameBus, OnTime, Own;
    var o := op.Owner();
    var a, b := AttemptOf(zone, w, op).steps, AttemptOf(zone, v, op).steps;
    match op
    case SetField(args) =>
      SetAlike(zone, w, v, args);
      AlikeStaysSame(w, v, a, b, if n < |a| then n else |a|, o);
    case Consume(_, name, event, now) =>
      ConsumeAlike(zone, w, v, o, name, event, now);
      AlikeStaysSame(w, v, a, b, if n < |a| then n else |a|, o);
    case Rollover(_, now) =>
      RolloverReply(zone, w, o, now);
      RolloverReply(zone, v, o, now);
      RolloverMeans(zone, w, o, now);
      RolloverMeans(zone, v, o, now);
      RolloverHappens(zone, w, op, n);
      RolloverHappens(zone, v, op, n);
      NothingToRoll(zone, w, op);
      NothingToRoll(zone, v, op);
  }

  lemma RolloverReply(zone: Zone, w: World, o: string, now: int)
    ensures AttemptRollover(zone, w, o, now).reply == Ok(Reply.Rolled)
  {
  }

  lemma RolloverHappens(zone: Zone, w: World, op: Op, n: nat)
    requires op.Rollover? && |AttemptOf(zone, w, op).steps| <= 1
    ensures Happen(zone, w, Panel(op, n)) == if n == 0 then w else Exec(w, AttemptOf(zone, w, op).steps)
  {
    var steps := AttemptOf(zone, w, op).steps;
    assert steps[..|steps|] == steps && steps[..0] == [];
  }

  lemma NothingToRoll(zone: Zone, w: World, op: Op)
    requires op.Rollover?
    ensures AttemptOf(zone, w, op).steps == [] ==> Exec(w, AttemptOf(zone, w, op).steps) == w
  {
  }

  /** Non-interference: whatever other owners do, crash or retry, an owner whose rollovers are not
      swallowed finds exactly what it would find alone in the panel, and sees the same fields at
      every time. */
  lemma {:induction false} OthersDoNotInterfere(zone: Zone, events: seq<Event>, o: string)
    requires OnTimeRun(zone, events, o)
    ensures SameTo(Run(zone, events), Run(zone, Mine(events, o)), o)
    ensures Alone(Run(zone, Mine(events, o)).disk, o)
    ensures forall t :: VisibleTo(zone, Run(zone, events).disk, o, t) == VisibleTo(zone, Run(zone, Mine(events, o)).disk, o, t)
  {
    hide SameTo, Kept, Happen, OnTime, Alone, VisibleTo;
    if events == [] {
      NobodyYet(o);
    } else {
      OthersDoNotInterfere(zone, Front(events), o);
      var w, v, e := Run(zone, Front(events)), Run(zone, Mine(Front(events), o)), Last(events);
      RunsDeliverAtMostOnce(zone, Front(events));
      RunsDeliverAtMostOnce(zone, Mine(Front(events), o));
      if e.Panel? && e.op.Owner() == o {
        AloneOnTime(zone, v, e.op);
        OwnStepSame(zone, w, v, e.op, e.steps);
        OwnStepAlone(zone, v, e.op, e.steps);
        FrontOfAppend(Mine(Front(events), o), e);
      } else {
        OtherStepSame(zone, w, v, e, o);
        assert Mine(events, o) == Mine(Front(events), o);
      }
    }
    forall t ensures VisibleTo(zone, Run(zone, events).disk, o, t) == VisibleTo(zone, Run(zone, Mine(events, o)).disk, o, t) {
      SameIsVisible(zone, Run(zone, events), Run(zone, Mine(events, o)), o, t);
    }
  }

  /** Anything that is not the owner's own doing. */
  lemma OtherStepSame(zone: Zone, w: World, v: World, e: Event, o: string)
    requires Kept(w) && SameTo(w, v, o) && (e.Panel? ==> e.op.Owner() != o)
    ensures SameTo(Happen(zone, w, e), v, o)
  {
    hide Kept, AttemptOf, Own, SameBus;
    match e
    case Elsewhere(name) => ElsewhereSame(w, v, name, o);
    case Panel(op, n) =>
      var steps := AttemptOf(zone, w, op).steps;
      OperationAside(zone, w, op, o);
      SameToItself(w, o);
      AsideStaysSame(w, w, steps, if n < |steps| then n else |steps|, o);
      SameToTransitive(Happen(zone, w, e), w, v, o);
  }

  lemma NobodyYet(o: string)
    ensures SameTo(World(None, []), World(None, []), o) && Alone(None, o)
  {
  }

  lemma ElsewhereSame(w: World, v: World, name: string, o: string)
    requires SameTo(w, v, o)
    ensures SameTo(w.(bus := w.bus + [OtherEvent(name)]), v, o)
  {
    EmitSame(w.bus, v.bus, OtherEvent(name), o);
  }

  lemma SameToItself(w: World, o: string)
    ensures SameTo(w, w, o)
  {
  }

  lemma SameToTransitive(u: World, w: World, v: World, o: string)
    requires SameTo(u, w, o) && SameTo(w, v, o)
    ensures SameTo(u, v, o)
  {
  }

  lemma OwnStepAlone(zone: Zone, v: World, op: Op, n: nat)
    requires Kept(v) && Alone(v.disk, op.Owner())
    ensures Alone(Happen(zone, v, Panel(op, n)).disk, op.Owner())
  {
    hide AttemptOf, Kept, Alone;
    var steps := AttemptOf(zone, v, op).steps;
    OwnStepsAlone(zone, v, op);
    var k := if n < |steps| then n else |steps|;
    assert forall step <- steps[..k] :: step in steps;
    ExecAlone(v, steps[..k], op.Owner());
  }

  lemma SameIsVisible(zone: Zone, w: World, v: World, o: string, t: int)
    requires SameTo(w, v, o)
    ensures VisibleTo(zone, w.disk, o, t) == VisibleTo(zone, v.disk, o, t)
  {
    hide SameBus;
    var s, u := ReadState(zone, w.disk, t), ReadState(zone, v.disk, t);
    ReadOwn(zone, w.disk, t, o);
    ReadOwn(zone, v.disk, t, o);
    forall k | k in s.fields && s.fields[k].owner == o ensures k in u.fields && u.fields[k] == s.fields[k] {
      assert k in OwnOf(s, o).fields && OwnOf(u, o).fields[k] == s.fields[k];
    }
    forall k | k in u.fields && u.fields[k].owner == o ensures k in s.fields && s.fields[k] == u.fields[k] {
      assert k in OwnOf(u, o).fields && OwnOf(s, o).fields[k] == u.fields[k];
    }
    assert OwnOf(s, o).epoch == OwnOf(u, o).epoch;
  }

  /** The condition is exact, step for step: a completed rollover that is swallowed leaves the owner
      with something else than it would find alone exactly when, alone, it would have changed
      anything. */
  lemma SwallowedRolloverDiffersIff(zone: Zone, w: World, v: World, o: string, now: int)
    requires SameTo(w, v, o) && Alone(v.disk, o)
    ensures var event := Panel(Rollover(o, now), 1);
            SameTo(Happen(zone, w, event), Happen(zone, v, event), o) <==>
            (OnTime(zone, w, Rollover(o, now)) || Rolled(Own(v.disk, o), o, EpochOf(zone, now)) == Own(v.disk, o))
  {
    hide AttemptRollover, Own, OwnOf, SameBus, OnTime, Rolled, Alone;
    var op := Rollover(o, now);
    AloneOnTime(zone, v, op);
    RolloverMeans(zone, w, o, now);
    RolloverMeans(zone, v, o, now);
    RolloverHappens(zone, w, op, 1);
    RolloverHappens(zone, v, op, 1);
  }

  /** It happens: one owner rolls over at a later clock, and another owner's rollover of the day in
      between is swallowed. */
  lemma SwallowingHappens()
    ensures var zone, first, second := Zone(0, 0), Panel(Rollover("x", 2 * DAY), 1), Panel(Rollover("o", DAY), 1);
            !SameTo(Run(zone, [first, second]), Run(zone, Mine([first, second], "o")), "o")
  {
    var zone, first, second := Zone(0, 0), Panel(Rollover("x", 2 * DAY), 1), Panel(Rollover("o", DAY), 1);
    var both := [first, second];
    assert Front(both) == [first] && Last(both) == second && Front([first]) == [] && Last([first]) == first;
    assert Mine([], "o") == [] && Mine([first], "o") == [] && Mine(both, "o") == [second] && Front([second]) == [];
    var nobody := World(None, []);
    assert Run(zone, []) == nobody;
    var w := Happen(zone, nobody, first);
    var steps := AttemptRollover(zone, nobody, "x", 2 * DAY).steps;
    assert EpochOf(zone, 2 * DAY) == 2 && |steps| == 1 && steps[1..] == [];
    RolloverHappens(zone, nobody, first.op, 1);
    assert Exec(nobody, steps) == Do(nobody, steps[0]);
    assert w.disk.value.epoch == 2 && "o" !in w.disk.value.ownerEpochs;
    assert Run(zone, [first]) == w && Run(zone, both) == Happen(zone, w, second);
    assert Run(zone, [second]) == Happen(zone, nobody, second);
    OthersDoNotInterfere(zone, [first], "o");
    SwallowedRolloverDiffersIff(zone, w, nobody, "o", DAY);
    assert EpochOf(zone, DAY) == 1;
  }
}
