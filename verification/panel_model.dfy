/** The panel: an owner-scoped state file, an outbox of pending projections inside it, and
    the event bus they are delivered to (moonbite_plugin/panel.py). */
module PanelModel {
  import opened Basics

  datatype ResetPolicy = Daily | KeepAcrossDays
  datatype Persistence = Ttl | Persistent | ConsumeOnce
  datatype ConsumePolicy = Repeatable | Once
  datatype Kind = FieldUpdated | FieldConsumed

  datatype Field = Field(
    owner: string, name: string, value: string, source: string, sourceEvent: string,
    observedAt: int, expiresAt: Option<int>, confidence: real, epoch: int,
    reset: ResetPolicy, persistence: Persistence, consume: ConsumePolicy,
    consumedBy: Option<string>, consumedAt: Option<int>)

  /** The projection event id: a digest of these four, so an injective function of them. */
  datatype ProjectionId = ProjectionId(kind: Kind, owner: string, field: string, sourceEvent: string)

  datatype Status = PendingDelivery | Delivered

  datatype Projection = Projection(
    kind: Kind, source: string, field: string, owner: string, sourceEvent: string,
    expiresAt: Option<int>, status: Status)
  {
    function Id(): ProjectionId { ProjectionId(kind, owner, field, sourceEvent) }
    function Body(): Projection { this.(status := Delivered) }
  }

  /** The durable file. */
  datatype State = State(
    epoch: int, ownerEpochs: map<string, int>, fields: map<string, Field>,
    projections: map<ProjectionId, Projection>)

  /** Bus events: canonical panel projections, and everything anyone else emits. */
  datatype BusEvent = PanelEvent(id: ProjectionId, body: Projection) | OtherEvent(name: string)

  datatype World = World(disk: Option<State>, bus: seq<BusEvent>)

  // ---- keys and epochs -----------------------------------------------------------------

  const SEPARATOR := '\U{1F}'

  predicate PlainText(s: string) { SEPARATOR !in s }

  function StorageKey(owner: string, name: string): string { owner + [SEPARATOR] + name }

  /** Owners and names free of the separator are recovered from the key. */
  lemma StorageKeyInjective(o1: string, n1: string, o2: string, n2: string)
    requires PlainText(o1) && PlainText(o2)
    requires StorageKey(o1, n1) == StorageKey(o2, n2)
    ensures o1 == o2 && n1 == n2
  {
    var k := StorageKey(o1, n1);
    assert forall i :: 0 <= i < |o1| ==> k[i] == o1[i] && o1[i] in o1;
    assert forall i :: 0 <= i < |o2| ==> k[i] == o2[i] && o2[i] in o2;
    assert k[|o1|] == SEPARATOR && k[|o2|] == SEPARATOR;
    assert |o1| == |o2|;
    assert k[..|o1|] == o1 && k[..|o2|] == o2;
    assert k[|o1| + 1..] == n1 && k[|o2| + 1..] == n2;
  }

  const DAY := 86400

  /** A fixed offset from UTC and the hour at which a panel day begins. */
  datatype Zone = Zone(offset: int, anchorHour: int)

  /** The local date, or the date before when the anchor hour has not struck yet. */
  function EpochOf(zone: Zone, t: int): int {
    var local := t + zone.offset;
    var day := local / DAY;
    if (local % DAY) / 3600 < zone.anchorHour then day - 1 else day
  }

  // ---- operations ------------------------------------------------------------------------

  datatype SetArgs = SetArgs(
    owner: string, name: string, value: string, source: string, sourceEvent: string,
    observedAt: int, ttl: Option<int>, confidence: real,
    reset: ResetPolicy, persistence: Persistence, consume: ConsumePolicy)

  datatype Op =
    | SetField(args: SetArgs)
    | Consume(owner: string, name: string, sourceEvent: string, now: int)
    | Rollover(owner: string, now: int)
  {
    function Owner(): string {
      match this
      case SetField(args) => args.owner
      case Consume(owner, _, _, _) => owner
      case Rollover(owner, _) => owner
    }
  }

  datatype PanelError =
    | BadArguments | SourceConflict | StaleForOwner | SameInstant | NotConsumed
    | Absent | NotConsumeOnce | WrongSource | ConsumedByOther | ExpiredField | StaleEpoch
    | BusConflict | WriteFailed

  /** A durable step: replace the state file, or append one event to the bus. */
  datatype Step = Write(state: State) | Emit(event: BusEvent)

  datatype Reply =
    | Settled(field: Field, id: ProjectionId)  // delivered and compacted
    | Current(field: Field)                    // an older event: explicit no-op
    | Rolled

  datatype Attempt = Attempt(steps: seq<Step>, reply: Result<Reply, PanelError>)

  function Refuse(e: PanelError): Attempt { Attempt([], Err(e)) }

  predicate ArgumentsFit(a: SetArgs) {
    && PlainText(a.owner) && PlainText(a.name)
    && 0.0 <= a.confidence <= 1.0
    && (a.consume.Once? <==> a.persistence.ConsumeOnce?)
    && (if a.persistence.Persistent? then a.ttl.None? else a.ttl.Some? && a.ttl.value > 0)
  }

  function Typed(zone: Zone, a: SetArgs): Field {
    Field(a.owner, a.name, a.value, a.source, a.sourceEvent, a.observedAt,
          if a.persistence.Persistent? || a.ttl.None? then None else Some(a.observedAt + a.ttl.value),
          a.confidence, EpochOf(zone, a.observedAt), a.reset, a.persistence, a.consume, None, None)
  }

  function ReadState(zone: Zone, disk: Option<State>, now: int): State {
    match disk
    case Some(s) => s
    case None => State(EpochOf(zone, now), map[], map[], map[])
  }

  predicate SameProjection(x: Field, y: Field) {
    && x.owner == y.owner && x.name == y.name && x.value == y.value && x.source == y.source
    && x.confidence == y.confidence && x.reset == y.reset && x.persistence == y.persistence
    && x.consume == y.consume
  }

  function UpdateProjection(f: Field): Projection {
    Projection(FieldUpdated, f.source, f.name, f.owner, f.sourceEvent, f.expiresAt, PendingDelivery)
  }

  function ConsumeProjection(f: Field): Projection {
    Projection(FieldConsumed, f.source, f.name, f.owner, f.sourceEvent, None, PendingDelivery)
  }

  /** The first bus event with this id, if any. */
  function OnBus(bus: seq<BusEvent>, id: ProjectionId): Option<Projection> {
    if bus == [] then None
    else if bus[0].PanelEvent? && bus[0].id == id then Some(bus[0].body)
    else OnBus(bus[1..], id)
  }

  /** Deliver once, then compact the marker, after `before` has been written. */
  function Finish(bus: seq<BusEvent>, s: State, p: Projection, before: seq<Step>, f: Field): Attempt {
    var compact := Write(s.(projections := s.projections - {p.Id()}));
    var done := Ok(Settled(f, p.Id()));
    if p.status.Delivered? then Attempt(before + [compact], done)
    else
      match OnBus(bus, p.Id())
      case None => Attempt(before + [Emit(PanelEvent(p.Id(), p.Body())), compact], done)
      case Some(body) => if body == p.Body() then Attempt(before + [compact], done) else Attempt(before, Err(BusConflict))
  }

  /** An already stored source event: recreate the marker if it was compacted, and finish. */
  function Redeliver(bus: seq<BusEvent>, s: State, marker: Projection, f: Field): Attempt {
    var id := marker.Id();
    if id in s.projections then Finish(bus, s, s.projections[id], [], f)
    else
      var marked := s.(projections := s.projections[id := marker]);
      Finish(bus, marked, marker, [Write(marked)], f)
  }

  /** Store a field and its marker in one write, and finish. */
  function StoreAndFinish(bus: seq<BusEvent>, s: State, p: Projection, f: Field): Attempt {
    var stored := s.(fields := s.fields[StorageKey(f.owner, f.name) := f], projections := s.projections[p.Id() := p]);
    Finish(bus, stored, p, [Write(stored)], f)
  }

  function StoredEpoch(s: State, owner: string, existing: Option<Field>): Option<int> {
    if owner in s.ownerEpochs then Some(s.ownerEpochs[owner])
    else if existing.Some? then Some(existing.value.epoch)
    else None
  }

  function AttemptSet(zone: Zone, w: World, a: SetArgs): Attempt {
    if !ArgumentsFit(a) then Refuse(BadArguments)
    else
      var typed := Typed(zone, a);
      var key := StorageKey(a.owner, a.name);
      var s := ReadState(zone, w.disk, a.observedAt);
      var existing := if key in s.fields then Some(s.fields[key]) else None;
      var stored := StoredEpoch(s, a.owner, existing);
      if existing.Some? && existing.value.sourceEvent == a.sourceEvent then
        if !SameProjection(existing.value, typed) then Refuse(SourceConflict)
        else Redeliver(w.bus, s, UpdateProjection(existing.value), existing.value)
      else if stored.Some? && typed.epoch < stored.value then
        if existing.Some? then Attempt([], Ok(Current(existing.value))) else Refuse(StaleForOwner)
      else if existing.Some? && typed.observedAt < existing.value.observedAt then Attempt([], Ok(Current(existing.value)))
      else if existing.Some? && typed.observedAt == existing.value.observedAt then Refuse(SameInstant)
      else if existing.Some? && typed.epoch < existing.value.epoch then Attempt([], Ok(Current(existing.value)))
      else if existing.Some? && existing.value.consume.Once? then Refuse(NotConsumed)
      else
        StoreAndFinish(w.bus, s.(ownerEpochs := s.ownerEpochs[a.owner := typed.epoch]), UpdateProjection(typed), typed)
  }

  function AttemptConsume(zone: Zone, w: World, owner: string, name: string, event: string, now: int): Attempt {
    if !PlainText(owner) || !PlainText(name) then Refuse(BadArguments)
    else
      var key := StorageKey(owner, name);
      var s := ReadState(zone, w.disk, now);
      if key !in s.fields then Refuse(Absent)
      else
        var f := s.fields[key];
        if !f.consume.Once? then Refuse(NotConsumeOnce)
        else if f.sourceEvent != event then Refuse(WrongSource)
        else if f.consumedBy.Some? then
          if f.consumedBy == Some(event) then Redeliver(w.bus, s, ConsumeProjection(f), f) else Refuse(ConsumedByOther)
        else if f.expiresAt.Some? && f.expiresAt.value <= now then Refuse(ExpiredField)
        else if f.reset.Daily? && f.epoch != (if f.owner in s.ownerEpochs then s.ownerEpochs[f.owner] else EpochOf(zone, now)) then
          Refuse(StaleEpoch)
        else
          StoreAndFinish(w.bus, s, ConsumeProjection(f), f.(consumedBy := Some(event), consumedAt := Some(now)))
  }

  predicate ResetBy(f: Field, owner: string, epoch: int) { f.owner == owner && f.reset.Daily? && f.epoch < epoch }

  function Reset(fields: map<string, Field>, owner: string, epoch: int): map<string, Field> {
    map k | k in fields && !ResetBy(fields[k], owner, epoch) :: fields[k]
  }

  function AttemptRollover(zone: Zone, w: World, owner: string, now: int): Attempt {
    var epoch := EpochOf(zone, now);
    var s := ReadState(zone, w.disk, now);
    if epoch < s.epoch || (owner in s.ownerEpochs && epoch < s.ownerEpochs[owner]) then Attempt([], Ok(Rolled))
    else
      var fields := Reset(s.fields, owner, epoch);
      var newDay := epoch > s.epoch || owner !in s.ownerEpochs || epoch > s.ownerEpochs[owner];
      if !newDay && fields == s.fields then Attempt([], Ok(Rolled))
      else Attempt([Write(s.(epoch := epoch, ownerEpochs := s.ownerEpochs[owner := epoch], fields := fields))], Ok(Rolled))
  }

  function AttemptOf(zone: Zone, w: World, op: Op): Attempt {
    match op
    case SetField(args) => AttemptSet(zone, w, args)
    case Consume(owner, name, event, now) => AttemptConsume(zone, w, owner, name, event, now)
    case Rollover(owner, now) => AttemptRollover(zone, w, owner, now)
  }

  function Do(w: World, step: Step): World {
    match step
    case Write(s) => w.(disk := Some(s))
    case Emit(e) => w.(bus := w.bus + [e])
  }

  /** The world after some steps. */
  function Exec(w: World, steps: seq<Step>): World
    decreases |steps|
  {
    if steps == [] then w else Exec(Do(w, steps[0]), steps[1..])
  }

  /** What a reader of the panel sees for one owner at one time. */
  predicate Visible(zone: Zone, s: State, f: Field, now: int) {
    && (f.expiresAt.Some? ==> f.expiresAt.value > now)
    && (f.reset.Daily? ==> f.epoch == (if f.owner in s.ownerEpochs then s.ownerEpochs[f.owner] else EpochOf(zone, now)))
    && !(f.consume.Once? && f.consumedBy.Some?)
  }

  function VisibleTo(zone: Zone, disk: Option<State>, owner: string, now: int): map<string, Field> {
    var s := ReadState(zone, disk, now);
    map k | k in s.fields && s.fields[k].owner == owner && Visible(zone, s, s.fields[k], now) :: s.fields[k]
  }
}
