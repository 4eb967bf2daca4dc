/** What one completed memory operation records, and what it does to the derived views
    (moonbite_plugin/memory.py:723-755, 851-977, 1422-1657). */
module MemoryOutcomes {
  import opened Basics
  import opened MemoryModel
  import opened MemoryGraph

  // ---- a new card ------------------------------------------------------------------------

  /** Another card may be stored under this id with these relations. */
  predicate Storable(v: Views, id: string, history: HistoryStatus, supersedes: seq<string>, kind: Option<SupersessionKind>, related: seq<string>) {
    && id !in v && id !in supersedes && id !in related
    && Distinct(supersedes) && |supersedes| <= 64 && Distinct(related) && |related| <= 64
    && (forall x <- related :: x in v)
    && (forall x <- supersedes :: x in v && v[x].history.CurrentStatus? && v[x].lifecycle.Active?)
    && (supersedes != [] ==> history.CurrentStatus? && kind.Some?)
    && (supersedes == [] ==> kind.None?)
  }

  /** The views gain one card: what it supersedes is historical, or corrected, and points to it; every
      other view is as it was. */
  ghost predicate GainsCard(v: Views, u: Views, c: Card) {
    && c.id !in v && u.Keys == v.Keys + {c.id}
    && u[c.id] == View(c, c.history, c.lifecycle, None)
    && (forall x <- v :: x in c.supersedes ==>
          u[x] == View(v[x].card, if c.kind == Some(Correction) then Corrected else Historical, v[x].lifecycle, Some(c.id)))
    && (forall x <- v :: x !in c.supersedes ==> u[x] == v[x])
  }

  predicate CardOf(c: Card, id: string, d: Draft) { c.id == id && c.content == d.content && c.history == d.history && c.lifecycle == d.lifecycle }

  function IdFor(d: Draft, newId: string): string { if d.id.Some? then d.id.value else newId }

  lemma BuildsIff(s: Store, d: Draft, newId: string)
    requires ComputeViews(s).Some?
    ensures var id := IdFor(d, newId);
            && (BuildCard(s, d, newId).Ok? <==> Storable(ComputeViews(s).value, id, d.history, d.supersedes, d.kind, d.related))
            && (BuildCard(s, d, newId).Ok? ==>
                  var c := BuildCard(s, d, newId).value;
                  CardOf(c, id, d) && c.supersedes == d.supersedes && c.kind == d.kind && c.related == d.related)
  {
    hide ComputeViews;
    assert forall x :: x in d.supersedes + d.related <==> x in d.supersedes || x in d.related;
  }

  /** Two descriptions of the same cards, one of them with one more. */
  lemma OneCardMore(v: Views, u: Views, cards: seq<Card>, more: seq<Card>, archived: seq<string>, c: Card)
    requires AllDescribed(v, cards, archived) && AllDescribed(u, more, archived)
    requires forall d :: d in more <==> d in cards || d == c
    requires c.id !in Ids(cards) && c.id !in archived && c.id !in c.supersedes
    requires forall d <- cards :: c.id !in d.supersedes
    ensures GainsCard(v, u, c)
  {
    assert c in more;
    assert Describes(u[c.id], c, more, archived);
    forall x | x in v
      ensures x in u
      ensures x in c.supersedes ==>
                u[x] == View(v[x].card, if c.kind == Some(Correction) then Corrected else Historical, v[x].lifecycle, Some(c.id))
      ensures x !in c.supersedes ==> u[x] == v[x]
    {
      var t :| t in cards && t.id == x;
      assert t in more;
      OneViewMore(v[x], u[x], t, cards, more, archived, c);
    }
    assert Ids(more) == Ids(cards) + {c.id};
  }

  lemma OneViewMore(v: View, u: View, t: Card, cards: seq<Card>, more: seq<Card>, archived: seq<string>, c: Card)
    requires Describes(v, t, cards, archived) && Describes(u, t, more, archived)
    requires forall d :: d in more <==> d in cards || d == c
    ensures t.id in c.supersedes ==>
              u == View(v.card, if c.kind == Some(Correction) then Corrected else Historical, v.lifecycle, Some(c.id))
    ensures t.id !in c.supersedes ==> u == v
  {
    if t.id in c.supersedes {
      assert c in more;
    } else if Unclaimed(cards, t.id) {
      assert Unclaimed(more, t.id);
    } else {
      var d :| d in cards && t.id in d.supersedes;
      assert d in more;
    }
  }

  lemma CardsOfGraph(s: Store, rank: map<string, nat>, c: Card)
    requires GraphSound(s, rank) && Fits(c, AllCards(s), rank)
    ensures c.id !in Ids(AllCards(s)) && c.id !in ArchivedIds(s.history) && c.id !in c.supersedes
    ensures forall d <- AllCards(s) :: c.id !in d.supersedes
  {
    forall d | d in AllCards(s) ensures c.id !in d.supersedes { assert RefersBack(d, rank); }
  }

  /** Adding a card succeeds exactly when it is storable; then it is the card that was asked for, and
      the views gain it. */
  lemma AddMeans(s: Store, rank: map<string, nat>, d: Draft, newId: string)
    requires GraphSound(s, rank)
    ensures ComputeViews(s).Some?
    ensures var v, id, (t, r) := ComputeViews(s).value, IdFor(d, newId), Step(s, AddCard(d, newId));
            && (r.Ok? <==> Storable(v, id, d.history, d.supersedes, d.kind, d.related))
            && (r.Err? ==> t == s)
            && (r.Ok? ==>
                  && r.value.CardAdded? && CardOf(r.value.card, id, d)
                  && r.value.card.supersedes == d.supersedes && r.value.card.kind == d.kind && r.value.card.related == d.related
                  && t == s.(cards := s.cards + [r.value.card])
                  && ComputeViews(t).Some? && GainsCard(v, ComputeViews(t).value, r.value.card))
  {
    hide ComputeViews, BuildCard, Grown, Fits, AllDescribed, HistoryReadable, Storable, GainsCard;
    ViewsNeverRaise(s, rank);
    BuildsIff(s, d, newId);
    BuiltCardFits(s, rank, d, newId);
    if BuildCard(s, d, newId).Ok? {
      var c, t := BuildCard(s, d, newId).value, Step(s, AddCard(d, newId)).0;
      var rank' := AddCardKeepsSound(s, rank, d, newId);
      ViewsNeverRaise(t, rank');
      CardsOfGraph(s, rank, c);
      InsertedMembers(s.cards, CreatedCards(s.history), c);
      OneCardMore(ComputeViews(s).value, ComputeViews(t).value, AllCards(s), AllCards(t), ArchivedIds(s.history), c);
    }
  }

  // ---- apply -----------------------------------------------------------------------------

  /** The permission an operation needs: a retire more than a merge, a distill the most. */
  predicate Permitted(operation: Operation, permission: Permission) {
    match operation
    case Merge => true
    case Retire => permission.Reporting? || permission.Manual?
    case Distill => permission.Manual?
  }

  predicate CitesOnlyCards(p: Proposal) { forall ref <- p.refs :: ref.CardRef? }

  /** The cited cards, as a list of ids in the order they are cited. */
  predicate CitedInOrder(xs: seq<string>, p: Proposal) { |xs| == |p.refs| && forall i :: 0 <= i < |xs| ==> p.refs[i] == CardRef(xs[i]) }

  lemma {:induction false} AllCardsCited(refs: seq<Ref>)
    ensures |CardIdsOf(refs)| <= |refs|
    ensures |CardIdsOf(refs)| == |refs| <==> forall ref <- refs :: ref.CardRef?
    ensures |CardIdsOf(refs)| == |refs| ==> forall i :: 0 <= i < |refs| ==> refs[i] == CardRef(CardIdsOf(refs)[i])
  {
    if refs != [] {
      AllCardsCited(Front(refs));
      SplitLast(refs);
      assert Last(refs) in refs && forall ref <- Front(refs) :: ref in refs;
    }
  }

  /** The receipt of an apply. */
  predicate Receipt(s: Store, t: Store, r: Result<Reply, MemoryError>, p: Proposal, op: Op)
    requires op.Apply?
  {
    && r.Ok? && r.value.Applied? && t == s.(history := s.history + [r.value.event])
    && r.value.event.eventId == op.newEventId && r.value.event.proposalId == p.proposalId
    && r.value.event.operation == p.operation && r.value.event.activity == op.activity && r.value.event.permission == op.permission
  }

  /** A merge stores a card that supersedes exactly the cited cards. */
  ghost predicate Merges(v: Views, u: Views, p: Proposal, newCardId: string, e: Event)
    requires p.value.Some?
  {
    var d := p.value.value;
    && e.created.Some? && e.archived == []
    && var c := e.created.value;
       && CardOf(c, IdFor(d, newCardId), d) && CitedInOrder(c.supersedes, p) && c.related == d.related
       && c.kind == Some(if d.kind.Some? then d.kind.value else Dedupe)
       && GainsCard(v, u, c)
       && (forall ref <- p.refs :: ref.id in u && u[ref.id].supersededBy == Some(c.id))
  }

  /** A distill stores a card that supersedes nothing and is related to the cited cards. */
  ghost predicate Distills(v: Views, u: Views, p: Proposal, newCardId: string, e: Event)
    requires p.value.Some?
  {
    var d := p.value.value;
    && e.created.Some? && e.archived == []
    && var c := e.created.value;
       && CardOf(c, IdFor(d, newCardId), d) && c.supersedes == [] && c.kind == None
       && (forall x :: x in c.related <==> x in d.related || CardRef(x) in p.refs)
       && GainsCard(v, u, c)
  }

  /** A retire archives every cited card and touches no other. */
  ghost predicate Retires(v: Views, u: Views, p: Proposal, e: Event) {
    && e.created.None? && u.Keys == v.Keys
    && (forall x :: x in e.archived <==> CardRef(x) in p.refs && x in v && v[x].lifecycle.Active?)
    && (forall x <- v :: u[x] == if CardRef(x) in p.refs then v[x].(lifecycle := Archived) else v[x])
  }

  /** What each operation needs beyond its permission. */
  ghost predicate Applicable(v: Views, p: Proposal, newCardId: string) {
    if p.operation.Retire? then CitesOnlyCards(p) && exists x :: CardRef(x) in p.refs && x in v && v[x].lifecycle.Active?
    else
      && p.value.Some?
      && var d := p.value.value;
         if p.operation.Merge? then
           && CitesOnlyCards(p)
           && Storable(v, IdFor(d, newCardId), d.history, CardIdsOf(p.refs), Some(if d.kind.Some? then d.kind.value else Dedupe), d.related)
         else
           d.kind.None? && Storable(v, IdFor(d, newCardId), d.history, [], None, Deduplicated(d.related + CardIdsOf(p.refs)))
  }

  /** A first apply of a proposal succeeds exactly when it is permitted and applicable; then the receipt
      is written, and the views change as the operation says. */
  lemma ApplyMeans(s: Store, rank: map<string, nat>, op: Op, p: Proposal)
    requires GraphSound(s, rank) && ProposalsReadable(s) && op.Apply? && NewlyDrawn(s, op)
    requires p in s.proposals && p.proposalId == op.proposalId && forall e <- s.history :: e.proposalId != op.proposalId
    ensures ComputeViews(s).Some?
    ensures var v, (t, r) := ComputeViews(s).value, Step(s, op);
            && (r.Ok? <==> Permitted(p.operation, op.permission) && Applicable(v, p, op.newCardId))
            && (r.Err? ==> t == s)
            && (!Permitted(p.operation, op.permission) ==> r == Err(PermissionDenied))
            && (r.Ok? ==>
                  && Receipt(s, t, r, p, op) && ComputeViews(t).Some?
                  && var u, e := ComputeViews(t).value, r.value.event;
                     match p.operation
                     case Merge => p.value.Some? && Merges(v, u, p, op.newCardId, e)
                     case Distill => p.value.Some? && Distills(v, u, p, op.newCardId, e)
                     case Retire => Retires(v, u, p, e))
  {
    hide ComputeViews, Effect, Grown, HistoryReadable, ProposalsReadable, OpenAll, GraphSound, Applicable, Merges, Distills, Retires, AllDescribed, StepApply;
    ViewsNeverRaise(s, rank);
    OnlyProposal(s, op.proposalId, p);
    NotAppliedYet(s.history, op.proposalId);
    EffectFits(s, rank, p, op.newCardId);
    EffectIff(s, rank, p, op.newCardId);
    ApplyTakesEffect(s, rank, op, p);
    if Step(s, op).1.Ok? {
      var rank' := ApplyKeepsSound(s, rank, op);
      ViewsNeverRaise(Step(s, op).0, rank');
      EffectShows(s, rank, rank', p, op);
    }
  }

  lemma OnlyProposal(s: Store, id: string, p: Proposal)
    requires ProposalsReadable(s) && p in s.proposals && p.proposalId == id
    ensures FindProposal(s.proposals, id) == Some(p)
  {
    hide ProposalReadable;
    IsFound(s.proposals, id, p);
    FoundProposal(s.proposals, id);
  }

  lemma {:induction false} IsFound(ps: seq<Proposal>, id: string, p: Proposal)
    requires p in ps && p.proposalId == id
    ensures FindProposal(ps, id).Some?
    decreases |ps|
  {
    if ps[0].proposalId != id { IsFound(ps[1..], id, p); }
  }

  lemma {:induction false} NotAppliedYet(es: seq<Event>, proposal: string)
    requires forall e <- es :: e.proposalId != proposal
    ensures FindEvent(es, proposal).None?
    decreases |es|
  {
    if es != [] { NotAppliedYet(es[1..], proposal); }
  }

  /** The step of an apply that was not made before, in terms of the effect it takes. */
  lemma ApplyTakesEffect(s: Store, rank: map<string, nat>, op: Op, p: Proposal)
    requires GraphSound(s, rank) && ProposalsReadable(s) && op.Apply?
    requires FindEvent(s.history, op.proposalId).None? && FindProposal(s.proposals, op.proposalId) == Some(p)
    requires OpenAll(s, p.refs) == Ok(p.evidence)
    ensures var (t, r) := Step(s, op);
            && (r.Ok? <==> Permitted(p.operation, op.permission) && Effect(s, p, op.newCardId).Ok?)
            && (r.Err? ==> t == s)
            && (!Permitted(p.operation, op.permission) ==> r == Err(PermissionDenied))
            && (r.Ok? ==>
                  && Receipt(s, t, r, p, op)
                  && (r.value.event.created, r.value.event.archived) == Effect(s, p, op.newCardId).value)
  {
    hide Effect, Grown, ProposalsReadable, OpenAll, HistoryReadable;
  }

  lemma EffectIff(s: Store, rank: map<string, nat>, p: Proposal, newCardId: string)
    requires GraphSound(s, rank) && ProposalsReadable(s) && p in s.proposals && ComputeViews(s).Some?
    ensures Effect(s, p, newCardId).Ok? <==> Applicable(ComputeViews(s).value, p, newCardId)
  {
    hide ComputeViews, GraphSound, Applicable, Effect;
    ReadableProposal(s, p);
    if p.operation.Retire? {
      RetireEffectIff(s, p, newCardId);
    } else {
      CreationEffectIff(s, p, newCardId);
    }
  }

  lemma ReadableProposal(s: Store, p: Proposal)
    requires ProposalsReadable(s) && p in s.proposals
    ensures Distinct(p.refs) && (p.operation.Retire? || p.value.Some?)
  {
    assert ProposalReadable(s, p);
  }

  lemma RetireEffectIff(s: Store, p: Proposal, newCardId: string)
    requires ComputeViews(s).Some? && p.operation.Retire? && Distinct(p.refs)
    ensures Effect(s, p, newCardId).Ok? <==> Applicable(ComputeViews(s).value, p, newCardId)
  {
    hide ComputeViews, NotYetArchived, CardIdsOf, Distinct;
    RetireIff(ComputeViews(s).value, p);
  }

  lemma CreationEffectIff(s: Store, p: Proposal, newCardId: string)
    requires ComputeViews(s).Some? && !p.operation.Retire? && p.value.Some?
    ensures Effect(s, p, newCardId).Ok? <==> Applicable(ComputeViews(s).value, p, newCardId)
  {
    hide ComputeViews, BuildCard, Storable, CardIdsOf, Deduplicated;
    AllCardsCited(p.refs);
    if DraftOf(p).Ok? { BuildsIff(s, DraftOf(p).value, newCardId); }
  }

  lemma RetireIff(v: Views, p: Proposal)
    requires Distinct(p.refs)
    ensures NotYetArchived(v, CardIdsOf(p.refs)) != [] <==> exists x :: CardRef(x) in p.refs && x in v && v[x].lifecycle.Active?
  {
    var open := NotYetArchived(v, CardIdsOf(p.refs));
    CardIdsOfRefs(p.refs);
    NotYetArchivedIds(v, CardIdsOf(p.refs));
    if open != [] { assert open[0] in open; }
  }

  /** The views after the effect. */
  lemma EffectShows(s: Store, rank: map<string, nat>, rank': map<string, nat>, p: Proposal, op: Op)
    requires GraphSound(s, rank) && ProposalsReadable(s) && op.Apply? && p in s.proposals && ComputeViews(s).Some?
    requires var (t, r) := Step(s, op);
             && Receipt(s, t, r, p, op) && GraphSound(t, rank') && ComputeViews(t).Some?
             && Effect(s, p, op.newCardId).Ok?
             && (r.value.event.created, r.value.event.archived) == Effect(s, p, op.newCardId).value
    ensures var v, (t, r) := ComputeViews(s).value, Step(s, op);
            var u, e := ComputeViews(t).value, r.value.event;
            match p.operation
            case Merge => p.value.Some? && Merges(v, u, p, op.newCardId, e)
            case Distill => p.value.Some? && Distills(v, u, p, op.newCardId, e)
            case Retire => Retires(v, u, p, e)
  {
    hide ComputeViews, Effect, GraphSound, ProposalsReadable, Merges, Distills, Retires, AllDescribed, Step, Receipt;
    var t := Step(s, op).0;
    ReceiptIsHistory(s, t, Step(s, op).1, p, op);
    var e := Step(s, op).1.value.event;
    ViewsNeverRaise(s, rank);
    ViewsNeverRaise(t, rank');
    EffectFits(s, rank, p, op.newCardId);
    if p.operation.Retire? {
      RetireShows(s, t, p, op.newCardId, e);
    } else {
      CreationShows(s, t, rank, p, op.newCardId, e);
    }
  }

  lemma ReceiptIsHistory(s: Store, t: Store, r: Result<Reply, MemoryError>, p: Proposal, op: Op)
    requires op.Apply? && Receipt(s, t, r, p, op)
    ensures r.Ok? && r.value.Applied?
    ensures t == s.(history := s.history + [r.value.event])
    ensures AllCards(t) == AllCards(s) + (if r.value.event.created.Some? then [r.value.event.created.value] else [])
    ensures ArchivedIds(t.history) == ArchivedIds(s.history) + r.value.event.archived
  {
    FrontOfAppend(s.history, r.value.event);
  }

  lemma CreationShows(s: Store, t: Store, rank: map<string, nat>, p: Proposal, newCardId: string, e: Event)
    requires GraphSound(s, rank) && !p.operation.Retire? && ComputeViews(s).Some? && ComputeViews(t).Some?
    requires AllDescribed(ComputeViews(s).value, AllCards(s), ArchivedIds(s.history))
    requires AllDescribed(ComputeViews(t).value, AllCards(t), ArchivedIds(t.history))
    requires Effect(s, p, newCardId) == Ok((e.created, e.archived)) && e.created.Some? && e.archived == []
    requires Fits(e.created.value, AllCards(s), rank)
    requires AllCards(t) == AllCards(s) + [e.created.value] && ArchivedIds(t.history) == ArchivedIds(s.history) + e.archived
    ensures p.value.Some?
    ensures p.operation.Merge? ==> Merges(ComputeViews(s).value, ComputeViews(t).value, p, newCardId, e)
    ensures p.operation.Distill? ==> Distills(ComputeViews(s).value, ComputeViews(t).value, p, newCardId, e)
  {
    hide ComputeViews, GraphSound, BuildCard, Storable, AllDescribed, Fits, AllCards, ArchivedIds;
    var c, v, u := e.created.value, ComputeViews(s).value, ComputeViews(t).value;
    BuildsIff(s, DraftOf(p).value, newCardId);
    AllCardsCited(p.refs);
    CitedCards(p.refs);
    CardsOfGraph(s, rank, c);
    assert ArchivedIds(s.history) + [] == ArchivedIds(s.history);
    OneCardMore(v, u, AllCards(s), AllCards(t), ArchivedIds(s.history), c);
    FitsKnown(s, rank, c);
    ViewsNeverRaise(s, rank);
  }

  lemma FitsKnown(s: Store, rank: map<string, nat>, c: Card)
    requires Fits(c, AllCards(s), rank)
    ensures forall x <- c.supersedes :: x in rank
  {
  }

  lemma {:induction false} CitedCards(refs: seq<Ref>)
    ensures forall x :: x in CardIdsOf(refs) <==> CardRef(x) in refs
  {
    if refs != [] {
      CitedCards(Front(refs));
      SplitLast(refs);
    }
  }

  lemma RetireShows(s: Store, t: Store, p: Proposal, newCardId: string, e: Event)
    requires p.operation.Retire? && ComputeViews(s).Some? && ComputeViews(t).Some?
    requires AllDescribed(ComputeViews(s).value, AllCards(s), ArchivedIds(s.history))
    requires AllDescribed(ComputeViews(t).value, AllCards(t), ArchivedIds(t.history))
    requires Effect(s, p, newCardId) == Ok((e.created, e.archived))
    requires e.created.None? && AllCards(t) == AllCards(s) && ArchivedIds(t.history) == ArchivedIds(s.history) + e.archived
    requires ProposalsReadable(s) && p in s.proposals
    ensures Retires(ComputeViews(s).value, ComputeViews(t).value, p, e)
  {
    hide ComputeViews, AllDescribed, Describes, AllCards, ArchivedIds, Effect, ProposalsReadable, Distinct, CardIdsOf, NotYetArchived;
    var v, u, cards := ComputeViews(s).value, ComputeViews(t).value, AllCards(s);
    ReadableProposal(s, p);
    RetireTakes(s, p, newCardId, e);
    SameCardsDescribed(v, u, cards, ArchivedIds(s.history), ArchivedIds(t.history));
    forall x | x in v ensures u[x] == if CardRef(x) in p.refs then v[x].(lifecycle := Archived) else v[x] {
      var c := CardBehind(v, u, cards, ArchivedIds(s.history), ArchivedIds(t.history), x);
      ArchivedMore(v[x], u[x], c, cards, ArchivedIds(s.history), e.archived);
    }
  }

  lemma RetireTakes(s: Store, p: Proposal, newCardId: string, e: Event)
    requires p.operation.Retire? && ComputeViews(s).Some? && Distinct(p.refs) && Effect(s, p, newCardId) == Ok((e.created, e.archived))
    ensures forall x :: x in e.archived <==> CardRef(x) in p.refs && x in ComputeViews(s).value && ComputeViews(s).value[x].lifecycle.Active?
  {
    hide ComputeViews, Distinct, CardIdsOf, NotYetArchived;
    CardIdsOfRefs(p.refs);
    NotYetArchivedIds(ComputeViews(s).value, CardIdsOf(p.refs));
  }

  lemma SameCardsDescribed(v: Views, u: Views, cards: seq<Card>, archived: seq<string>, more: seq<string>)
    requires AllDescribed(v, cards, archived) && AllDescribed(u, cards, more)
    ensures u.Keys == v.Keys
  {
  }

  lemma CardBehind(v: Views, u: Views, cards: seq<Card>, archived: seq<string>, more: seq<string>, x: string) returns (c: Card)
    requires AllDescribed(v, cards, archived) && AllDescribed(u, cards, more) && x in v
    ensures x in u && c.id == x && Describes(v[x], c, cards, archived) && Describes(u[x], c, cards, more)
  {
    hide Describes;
    c :| c in cards && c.id == x;
  }

  lemma ArchivedMore(v: View, u: View, c: Card, cards: seq<Card>, archived: seq<string>, more: seq<string>)
    requires Describes(v, c, cards, archived) && Describes(u, c, cards, archived + more)
    ensures u == if c.id in more then v.(lifecycle := Archived) else v
  {
    if !Unclaimed(cards, c.id) {
      var d :| d in cards && c.id in d.supersedes;
    }
  }

  // ---- propose ---------------------------------------------------------------------------

  /** The record a reference names. */
  predicate Names(s: Store, ref: Ref, raw: Raw) {
    match ref
    case CardRef(id) => raw.RawCard? && raw.card in AllCards(s) && raw.card.id == id
    case DiaryRef(id) => raw.RawDiary? && raw.entry in s.diary && raw.entry.id == id
  }

  /** The ledger a reference is looked up in is readable and has the record. */
  predicate Opens(s: Store, ref: Ref) {
    match ref
    case CardRef(id) => CardsReadable(s) && id in Ids(AllCards(s))
    case DiaryRef(id) => DistinctEntries(s.diary) && id in EntryIds(s.diary)
  }

  lemma {:induction false} EntryIsFound(diary: seq<Entry>, id: string)
    ensures FindEntry(diary, id).Some? <==> id in EntryIds(diary)
    ensures FindEntry(diary, id).Some? ==> FindEntry(diary, id).value in diary && FindEntry(diary, id).value.id == id
    decreases |diary|
  {
    if diary != [] {
      EntryIsFound(diary[1..], id);
      assert forall e :: e in diary <==> e == diary[0] || e in diary[1..];
    }
  }

  lemma OpenMeans(s: Store, ref: Ref)
    ensures Open(s, ref).Ok? <==> Opens(s, ref)
    ensures Open(s, ref).Ok? ==> Names(s, ref, Open(s, ref).value)
  {
    hide CardsReadable, DistinctEntries, AllCards;
    EntryIsFound(s.diary, ref.id);
    FoundIsMember(AllCards(s), ref.id);
  }

  lemma {:induction false} OpenAllMeans(s: Store, refs: seq<Ref>)
    ensures OpenAll(s, refs).Ok? <==> forall ref <- refs :: Opens(s, ref)
    ensures OpenAll(s, refs).Ok? ==>
              |OpenAll(s, refs).value| == |refs| && forall i :: 0 <= i < |refs| ==> Names(s, refs[i], OpenAll(s, refs).value[i])
  {
    hide Open, Opens, Names;
    if refs != [] {
      OpenAllMeans(s, Front(refs));
      OpenMeans(s, Last(refs));
      SplitLast(refs);
      assert Last(refs) in refs && forall ref <- Front(refs) :: ref in refs;
    }
  }

  predicate WellPosed(op: Op)
    requires op.Propose?
  {
    1 <= |op.refs| <= 20 && Distinct(op.refs) && (op.operation.Retire? || op.value.Some?)
  }

  /** A new request is recorded, with the evidence it cites, exactly when all of it opens. */
  lemma ProposeMeans(s: Store, op: Op)
    requires op.Propose? && ProposalsReadable(s) && forall q <- s.proposals :: q.requestId != op.requestId
    ensures var (t, r) := Step(s, op);
            && (r.Ok? <==> WellPosed(op) && forall ref <- op.refs :: Opens(s, ref))
            && (r.Err? ==> t == s)
            && (r.Ok? ==>
                  && r.value.Proposed? && t == s.(proposals := s.proposals + [r.value.proposal])
                  && var p := r.value.proposal;
                     && p.proposalId == op.newId && p.requestId == op.requestId && p.operation == op.operation && p.refs == op.refs
                     && p.reason == op.reason && p.value == op.value && |p.evidence| == |p.refs|
                     && forall i :: 0 <= i < |p.refs| ==> Names(s, p.refs[i], p.evidence[i]))
  {
    hide ProposalsReadable, OpenAll, Opens, Names;
    NotAskedYet(s.proposals, op.requestId);
    OpenAllMeans(s, op.refs);
  }

  lemma {:induction false} NotAskedYet(ps: seq<Proposal>, request: string)
    requires forall q <- ps :: q.requestId != request
    ensures FindRequest(ps, request).None?
    decreases |ps|
  {
    if ps != [] { NotAskedYet(ps[1..], request); }
  }

  lemma {:induction false} RequestIsFound(ps: seq<Proposal>, request: string, q: Proposal)
    requires q in ps && q.requestId == request
    ensures FindRequest(ps, request).Some? && FindRequest(ps, request).value in ps && FindRequest(ps, request).value.requestId == request
    decreases |ps|
  {
    if ps[0].requestId != request { RequestIsFound(ps[1..], request, q); }
  }

  /** A request that was made before is answered with its proposal if it asks for the same. */
  lemma ProposeAgainMeans(s: Store, op: Op, q: Proposal)
    requires op.Propose? && ProposalsReadable(s) && WellPosed(op) && q in s.proposals && q.requestId == op.requestId
    ensures Step(s, op) ==
            (s, if q.operation == op.operation && q.refs == op.refs && q.reason == op.reason && q.value == op.value
                then Ok(Proposed(q)) else Err(RequestConflict))
  {
    RequestIsFound(s.proposals, op.requestId, q);
    hide OpenAll, ProposalReadable;
    var found := FindRequest(s.proposals, op.requestId).value;
    assert found == q;
  }
}
