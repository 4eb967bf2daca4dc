/** Memory cards, the maintenance history, and the views derived from both ledgers
    (moonbite_plugin/memory.py:621-755, 889-977, 1343-1657). */
module MemoryModel {
  import opened Basics

  datatype HistoryStatus = CurrentStatus | Historical | Corrected
  datatype LifecycleStatus = Active | Archived
  datatype SupersessionKind = Evolution | Correction | Dedupe

  datatype Card = Card(
    id: string, content: string, history: HistoryStatus, lifecycle: LifecycleStatus,
    supersedes: seq<string>, kind: Option<SupersessionKind>, related: seq<string>)

  /** What a caller asks to store; without an id a fresh one is drawn. */
  datatype Draft = Draft(
    id: Option<string>, content: string, history: HistoryStatus, lifecycle: LifecycleStatus,
    supersedes: seq<string>, kind: Option<SupersessionKind>, related: seq<string>)

  datatype Operation = Merge | Retire | Distill
  datatype Permission = Safe | Reporting | Manual

  function Level(p: Permission): nat {
    match p case Safe => 1 case Reporting => 2 case Manual => 3
  }

  function Required(op: Operation): Permission {
    match op case Merge => Safe case Retire => Reporting case Distill => Manual
  }

  datatype Ref = CardRef(id: string) | DiaryRef(id: string)

  /** An opened evidence record; evidence digests are modelled by the records themselves. */
  datatype Raw = RawCard(card: Card) | RawDiary(entry: Entry)

  datatype Entry = Entry(id: string, text: string)

  datatype Proposal = Proposal(
    proposalId: string, requestId: string, operation: Operation, refs: seq<Ref>,
    evidence: seq<Raw>, reason: string, value: Option<Draft>)

  datatype Event = Event(
    eventId: string, proposalId: string, operation: Operation, activity: string, permission: Permission,
    created: Option<Card>, archived: seq<string>)

  /** The four append-only ledgers. */
  datatype Store = Store(cards: seq<Card>, diary: seq<Entry>, proposals: seq<Proposal>, history: seq<Event>)

  function CreatedCards(history: seq<Event>): seq<Card> {
    if history == [] then []
    else CreatedCards(Front(history)) + (if Last(history).created.Some? then [Last(history).created.value] else [])
  }

  /** Replay order: base cards first, then the cards created by maintenance. */
  function AllCards(s: Store): seq<Card> { s.cards + CreatedCards(s.history) }

  function ArchivedIds(history: seq<Event>): seq<string> {
    if history == [] then [] else ArchivedIds(Front(history)) + Last(history).archived
  }

  /** _diary_rows refuses the whole diary when an entry id repeats. */
  predicate DistinctEntries(diary: seq<Entry>) {
    forall i, j :: 0 <= i < j < |diary| ==> diary[i].id != diary[j].id
  }

  function EntryIds(diary: seq<Entry>): set<string> { set e <- diary :: e.id }

  function FindEntry(diary: seq<Entry>, id: string): Option<Entry> {
    if diary == [] then None else if diary[0].id == id then Some(diary[0]) else FindEntry(diary[1..], id)
  }

  function Ids(cards: seq<Card>): set<string> { set c <- cards :: c.id }

  predicate DistinctIds(cards: seq<Card>) {
    forall i, j :: 0 <= i < j < |cards| ==> cards[i].id != cards[j].id
  }

  // ---- derived views -----------------------------------------------------------------

  datatype View = View(card: Card, history: HistoryStatus, lifecycle: LifecycleStatus, supersededBy: Option<string>)

  type Views = map<string, View>

  function Initial(cards: seq<Card>): Views {
    if cards == [] then map[]
    else
      var c := Last(cards);
      Initial(Front(cards))[c.id := View(c, c.history, c.lifecycle, None)]
  }

  function Derived(c: Card): HistoryStatus { if c.kind == Some(Correction) then Corrected else Historical }

  /** One supersession applied to the views; missing and twice-superseded cards are errors. */
  function MarkOne(v: Views, c: Card, x: string): Option<Views> {
    if x !in v || v[x].supersededBy.Some? then None
    else Some(v[x := v[x].(history := Derived(c), supersededBy := Some(c.id))])
  }

  function MarkAll(v: Views, c: Card, xs: seq<string>): Option<Views> {
    if xs == [] then Some(v)
    else
      match MarkAll(v, c, Front(xs))
      case None => None
      case Some(u) => MarkOne(u, c, Last(xs))
  }

  predicate RelatedExist(v: Views, c: Card) { forall x <- c.related :: x in v }

  function MarkCards(v: Views, cards: seq<Card>): Option<Views> {
    if cards == [] then Some(v)
    else
      match MarkCards(v, Front(cards))
      case None => None
      case Some(u) =>
        match MarkAll(u, Last(cards), Last(cards).supersedes)
        case None => None
        case Some(t) => if RelatedExist(t, Last(cards)) then Some(t) else None
  }

  function Archive(v: Views, ids: seq<string>): Option<Views> {
    if ids == [] then Some(v)
    else
      match Archive(v, Front(ids))
      case None => None
      case Some(u) => if Last(ids) in u then Some(u[Last(ids) := u[Last(ids)].(lifecycle := Archived)]) else None
  }

  predicate EventShape(e: Event) {
    if e.operation.Retire? then e.created.None? && e.archived != [] && IdsValid(e.archived)
    else e.created.Some? && e.archived == []
  }

  predicate HistoryReadable(s: Store) {
    && (forall e <- s.history :: EventShape(e))
    && (forall i, j :: 0 <= i < j < |s.history| ==>
          s.history[i].eventId != s.history[j].eventId && s.history[i].proposalId != s.history[j].proposalId)
  }

  /** _card_rows succeeds: a valid history, and no card id twice over both ledgers. */
  predicate CardsReadable(s: Store) { HistoryReadable(s) && DistinctIds(AllCards(s)) }

  /** _compute_card_views: None stands for a raised state error. */
  function ComputeViews(s: Store): Option<Views> {
    if !CardsReadable(s) then None
    else
      match MarkCards(Initial(AllCards(s)), AllCards(s))
      case None => None
      case Some(v) => Archive(v, ArchivedIds(s.history))
  }

  // ---- operations --------------------------------------------------------------------

  datatype MemoryError =
    | Corrupt | BadIds | MissingRelation | SelfReference | SupersederNotCurrent | TargetNotCurrent
    | KindMismatch | CardExists | BadRefs | RequestConflict | EvidenceMissing | ValueRequired
    | ProposalMissing | ReplayConflict | PermissionDenied | EvidenceChanged | CardsOnly | AlreadyArchived

  predicate IdsValid(xs: seq<string>) { Distinct(xs) && |xs| <= 64 }

  /** _build_card. */
  function BuildCard(s: Store, d: Draft, newId: string): Result<Card, MemoryError> {
    match ComputeViews(s)
    case None => Err(Corrupt)
    case Some(v) =>
      var id := if d.id.Some? then d.id.value else newId;
      if !IdsValid(d.supersedes) || !IdsValid(d.related) then Err(BadIds)
      else if exists x :: x in d.supersedes + d.related && x !in v then Err(MissingRelation)
      else if id in d.supersedes + d.related then Err(SelfReference)
      else if d.supersedes != [] && !d.history.CurrentStatus? then Err(SupersederNotCurrent)
      else if exists x :: x in d.supersedes && (x in v ==> !v[x].history.CurrentStatus? || !v[x].lifecycle.Active?) then
        Err(TargetNotCurrent)
      else if (d.supersedes != []) != d.kind.Some? then Err(KindMismatch)
      else if id in v then Err(CardExists)
      else Ok(Card(id, d.content, d.history, d.lifecycle, d.supersedes, d.kind, d.related))
  }

  function FindCard(cards: seq<Card>, id: string): Option<Card> {
    if cards == [] then None
    else if cards[0].id == id then Some(cards[0])
    else FindCard(cards[1..], id)
  }

  /** _open_raw: the whole ledger is validated first; base cards are searched before created
      ones. A missing record is an error of its callers. */
  function Open(s: Store, ref: Ref): Result<Raw, MemoryError> {
    match ref
    case DiaryRef(id) =>
      if !DistinctEntries(s.diary) then Err(Corrupt)
      else
        var found := FindEntry(s.diary, id);
        if found.Some? then Ok(RawDiary(found.value)) else Err(EvidenceMissing)
    case CardRef(id) =>
      if !CardsReadable(s) then Err(Corrupt)
      else
        var found := FindCard(AllCards(s), id);
        if found.Some? then Ok(RawCard(found.value)) else Err(EvidenceMissing)
  }

  /** All the evidence in order, or the first error. */
  function OpenAll(s: Store, refs: seq<Ref>): Result<seq<Raw>, MemoryError> {
    if refs == [] then Ok([])
    else
      var front, last := OpenAll(s, Front(refs)), Open(s, Last(refs));
      if front.Err? then front else if last.Err? then Err(last.error) else Ok(front.value + [last.value])
  }

  predicate RefsValid(refs: seq<Ref>) { 1 <= |refs| <= 20 && Distinct(refs) }

  /** One stored proposal as every read of the proposal ledger re-validates it. */
  predicate ProposalReadable(s: Store, p: Proposal) {
    && RefsValid(p.refs)
    && OpenAll(s, p.refs) == Ok(p.evidence)
    && (p.operation.Retire? || p.value.Some?)
  }

  predicate ProposalsReadable(s: Store) {
    && (forall p <- s.proposals :: ProposalReadable(s, p))
    && (forall i, j :: 0 <= i < j < |s.proposals| ==>
          s.proposals[i].proposalId != s.proposals[j].proposalId && s.proposals[i].requestId != s.proposals[j].requestId)
  }

  function CardIdsOf(refs: seq<Ref>): seq<string> {
    if refs == [] then []
    else CardIdsOf(Front(refs)) + (if Last(refs).CardRef? then [Last(refs).id] else [])
  }

  /** Values in order, each kept the first time it occurs. */
  function Deduplicated(xs: seq<string>): (r: seq<string>)
    ensures Distinct(r) && (forall x :: x in r <==> x in xs) && |r| <= |xs|
  {
    if xs == [] then []
    else
      var r := Deduplicated(Front(xs));
      SplitLast(xs);
      if Last(xs) in r then r else r + [Last(xs)]
  }

  /** Where a value first occurs, or the length if it does not. */
  function FirstAt(xs: seq<string>, x: string): nat {
    if xs == [] then 0 else if xs[0] == x then 0 else 1 + FirstAt(xs[1..], x)
  }

  lemma {:induction false} FirstAtFront(xs: seq<string>, x: string, last: string)
    ensures FirstAt(xs + [last], x) == if x in xs then FirstAt(xs, x) else if x == last then |xs| else |xs| + 1
    ensures x in xs ==> FirstAt(xs, x) < |xs|
    decreases |xs|
  {
    if xs == [] {
      assert [] + [last] == [last] && [last][1..] == [];
    } else {
      assert (xs + [last])[1..] == xs[1..] + [last] && xs == [xs[0]] + xs[1..];
      FirstAtFront(xs[1..], x, last);
    }
  }

  /** Each value is kept at its first place: the kept values come in the order they first occur. */
  lemma {:induction false} DeduplicatedInOrder(xs: seq<string>)
    ensures forall i, j :: 0 <= i < j < |Deduplicated(xs)| ==>
              FirstAt(xs, Deduplicated(xs)[i]) < FirstAt(xs, Deduplicated(xs)[j])
  {
    if xs != [] {
      DeduplicatedInOrder(Front(xs));
      SplitLast(xs);
      forall x | x in xs ensures FirstAt(xs, x) == if x in Front(xs) then FirstAt(Front(xs), x) else |xs| - 1 {
        FirstAtFront(Front(xs), x, Last(xs));
      }
      forall x | x in Front(xs) ensures FirstAt(Front(xs), x) < |xs| - 1 { FirstAtFront(Front(xs), x, Last(xs)); }
    }
  }

  /** _card_from_maintenance: the draft a proposal stands for. */
  function DraftOf(p: Proposal): Result<Draft, MemoryError> {
    if p.value.None? then Err(ValueRequired)
    else
      var d, cards := p.value.value, CardIdsOf(p.refs);
      if p.operation.Merge? then
        if |cards| != |p.refs| then Err(CardsOnly)
        else Ok(d.(supersedes := cards, kind := Some(if d.kind.Some? then d.kind.value else Dedupe)))
      else if d.kind.Some? then Err(KindMismatch)
      else Ok(d.(supersedes := [], kind := None, related := Deduplicated(d.related + cards)))
  }

  function NotYetArchived(v: Views, ids: seq<string>): seq<string> {
    if ids == [] then []
    else NotYetArchived(v, Front(ids)) +
         (if Last(ids) in v && !v[Last(ids)].lifecycle.Archived? then [Last(ids)] else [])
  }

  function FindProposal(ps: seq<Proposal>, id: string): Option<Proposal> {
    if ps == [] then None else if ps[0].proposalId == id then Some(ps[0]) else FindProposal(ps[1..], id)
  }

  function FindRequest(ps: seq<Proposal>, id: string): Option<Proposal> {
    if ps == [] then None else if ps[0].requestId == id then Some(ps[0]) else FindRequest(ps[1..], id)
  }

  function FindEvent(es: seq<Event>, proposal: string): Option<Event> {
    if es == [] then None else if es[0].proposalId == proposal then Some(es[0]) else FindEvent(es[1..], proposal)
  }

  datatype Op =
    | AddCard(draft: Draft, newId: string)
    | AppendDiary(id: string, text: string)
    | Propose(requestId: string, operation: Operation, refs: seq<Ref>, reason: string, value: Option<Draft>, newId: string)
    | Apply(proposalId: string, activity: string, permission: Permission, newEventId: string, newCardId: string)

  datatype Reply = CardAdded(card: Card) | DiaryAppended | Proposed(proposal: Proposal) | Applied(event: Event)

  /** What applying a proposal would record. */
  function Effect(s: Store, p: Proposal, newCardId: string): Result<(Option<Card>, seq<string>), MemoryError> {
    if p.operation.Retire? then
      match ComputeViews(s)
      case None => Err(Corrupt)
      case Some(v) =>
        if exists r :: r in p.refs && !r.CardRef? then Err(CardsOnly)
        else if NotYetArchived(v, CardIdsOf(p.refs)) == [] then Err(AlreadyArchived)
        else Ok((None, NotYetArchived(v, CardIdsOf(p.refs))))
    else
      match DraftOf(p)
      case Err(e) => Err(e)
      case Ok(d) =>
        match BuildCard(s, d, newCardId)
        case Err(e) => Err(e)
        case Ok(c) => Ok((Some(c), []))
  }

  function StepPropose(s: Store, op: Op): (Store, Result<Reply, MemoryError>)
    requires op.Propose?
  {
    if !RefsValid(op.refs) then (s, Err(BadRefs))
    else if !op.operation.Retire? && op.value.None? then (s, Err(ValueRequired))
    else if !ProposalsReadable(s) then (s, Err(Corrupt))
    else
      match FindRequest(s.proposals, op.requestId)
      case Some(p) =>
        if p.operation == op.operation && p.refs == op.refs && p.reason == op.reason && p.value == op.value
        then (s, Ok(Proposed(p))) else (s, Err(RequestConflict))
      case None =>
        match OpenAll(s, op.refs)
        case Err(e) => (s, Err(e))
        case Ok(evidence) =>
          var p := Proposal(op.newId, op.requestId, op.operation, op.refs, evidence, op.reason, op.value);
          (s.(proposals := s.proposals + [p]), Ok(Proposed(p)))
  }

  function StepApply(s: Store, op: Op): (Store, Result<Reply, MemoryError>)
    requires op.Apply?
  {
    if !HistoryReadable(s) then (s, Err(Corrupt))
    else
      match FindEvent(s.history, op.proposalId)
      case Some(e) =>
        if e.activity == op.activity && e.permission == op.permission then (s, Ok(Applied(e))) else (s, Err(ReplayConflict))
      case None =>
        if !ProposalsReadable(s) then (s, Err(Corrupt))
        else
          match FindProposal(s.proposals, op.proposalId)
          case None => (s, Err(ProposalMissing))
          case Some(p) =>
            match OpenAll(s, p.refs)
            case Err(e) => (s, Err(e))
            case Ok(evidence) =>
              if evidence != p.evidence then (s, Err(EvidenceChanged))
              else if Level(op.permission) < Level(Required(p.operation)) then (s, Err(PermissionDenied))
              else
                match Effect(s, p, op.newCardId)
                case Err(e) => (s, Err(e))
                case Ok((created, archived)) =>
                  var e := Event(op.newEventId, p.proposalId, p.operation, op.activity, op.permission, created, archived);
                  (s.(history := s.history + [e]), Ok(Applied(e)))
  }

  function Step(s: Store, op: Op): (Store, Result<Reply, MemoryError>) {
    match op
    case AddCard(d, newId) =>
      (match BuildCard(s, d, newId)
       case Err(e) => (s, Err(e))
       case Ok(c) => (s.(cards := s.cards + [c]), Ok(CardAdded(c))))
    case AppendDiary(id, text) => (s.(diary := s.diary + [Entry(id, text)]), Ok(DiaryAppended))
    case Propose(_, _, _, _, _, _) => StepPropose(s, op)
    case Apply(_, _, _, _, _) => StepApply(s, op)
  }

  const EmptyStore := Store([], [], [], [])

  function RunFrom(s: Store, ops: seq<Op>): Store {
    if ops == [] then s else Step(RunFrom(s, Front(ops)), Last(ops)).0
  }

  function Run(ops: seq<Op>): Store { RunFrom(EmptyStore, ops) }
}
