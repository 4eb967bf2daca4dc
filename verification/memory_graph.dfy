/** Card-graph closure: whatever cards are added and whatever maintenance is proposed and
    applied, the views can always be computed, every card has at most one superseder, and
    supersession is acyclic. */
module MemoryGraph {
  import opened Basics
  import opened MemoryModel

  predicate Unclaimed(cards: seq<Card>, x: string) { forall d <- cards :: x !in d.supersedes }

  /** No id is superseded by two cards, or twice by one. */
  ghost predicate OneSuperseder(cards: seq<Card>) {
    && (forall c <- cards :: Distinct(c.supersedes))
    && (forall c, d, x | c in cards && d in cards && x in c.supersedes && x in d.supersedes :: c.id == d.id)
  }

  /** Every reference goes to a card of lower rank. */
  ghost predicate RefersBack(c: Card, rank: map<string, nat>) {
    c.id in rank && forall x :: x in c.supersedes || x in c.related ==> x in rank && rank[x] < rank[c.id]
  }

  /** A card list grown by references to earlier cards only. The rank is the order of
      creation, which is not the order of replay. */
  ghost predicate Grown(cards: seq<Card>, rank: map<string, nat>) {
    && DistinctIds(cards)
    && rank.Keys == Ids(cards)
    && (forall id <- rank :: rank[id] < |rank|)
    && (forall c <- cards :: RefersBack(c, rank))
    && OneSuperseder(cards)
  }

  /** The card ledgers: a readable history over a grown graph. */
  ghost predicate GraphSound(s: Store, rank: map<string, nat>) {
    && Grown(AllCards(s), rank)
    && (forall x <- ArchivedIds(s.history) :: x in rank)
    && HistoryReadable(s)
  }

  /** All four ledgers: evidence of every proposal opens as it did, and no diary id repeats. */
  ghost predicate Sound(s: Store, rank: map<string, nat>) {
    GraphSound(s, rank) && ProposalsReadable(s) && DistinctEntries(s.diary)
  }

  // ---- the views ---------------------------------------------------------------------

  lemma {:induction false} InitialMeans(cards: seq<Card>)
    requires DistinctIds(cards)
    ensures Initial(cards).Keys == Ids(cards)
    ensures forall c <- cards :: c.id in Initial(cards) && Initial(cards)[c.id] == View(c, c.history, c.lifecycle, None)
  {
    if cards != [] {
      var before, c := Front(cards), Last(cards);
      assert forall i :: 0 <= i < |before| ==> before[i] == cards[i];
      InitialMeans(before);
      SplitLast(cards);
      forall d | d in cards ensures d.id in Initial(cards) && Initial(cards)[d.id] == View(d, d.history, d.lifecycle, None) {
        if d in before {
          var i :| 0 <= i < |before| && before[i] == d;
          assert cards[i].id != cards[|cards| - 1].id;
        }
      }
      assert forall d <- before :: d in cards;
    }
  }

  lemma {:induction false} MarkAllMeans(v: Views, c: Card, xs: seq<string>)
    requires Distinct(xs) && forall x <- xs :: x in v && v[x].supersededBy.None?
    ensures MarkAll(v, c, xs).Some?
    ensures var u := MarkAll(v, c, xs).value;
            && u.Keys == v.Keys
            && (forall x <- xs :: u[x] == v[x].(history := Derived(c), supersededBy := Some(c.id)))
            && (forall x <- v :: x !in xs ==> u[x] == v[x])
  {
    if xs != [] {
      var before, x := Front(xs), Last(xs);
      assert forall y <- before :: y in xs;
      assert x in xs;
      assert forall i :: 0 <= i < |before| ==> before[i] == xs[i] != xs[|xs| - 1];
      MarkAllMeans(v, c, before);
      SplitLast(xs);
    }
  }

  /** After marking some of the cards: exactly the ids those cards supersede are marked, each
      with its superseder; every other view is as it started. */
  ghost predicate MarkedBy(start: Views, u: Views, done: seq<Card>) {
    && u.Keys == start.Keys
    && (forall d <- done :: forall x <- d.supersedes ::
          x in start && u[x] == start[x].(history := Derived(d), supersededBy := Some(d.id)))
    && (forall x <- start :: Unclaimed(done, x) ==> u[x] == start[x])
  }

  lemma MarkOneMoreCard(start: Views, u: Views, done: seq<Card>, c: Card)
    requires MarkedBy(start, u, done) && Distinct(c.supersedes)
    requires forall x <- start :: start[x].supersededBy.None?
    requires forall x <- c.supersedes :: x in start && Unclaimed(done, x)
    ensures MarkAll(u, c, c.supersedes).Some?
    ensures MarkedBy(start, MarkAll(u, c, c.supersedes).value, done + [c])
  {
    MarkAllMeans(u, c, c.supersedes);
    var t := MarkAll(u, c, c.supersedes).value;
    forall x | x in start && Unclaimed(done + [c], x) ensures t[x] == start[x] {
      assert c in done + [c] && forall d <- done :: d in done + [c];
      assert Unclaimed(done, x);
    }
    forall d, x | d in done + [c] && x in d.supersedes
      ensures x in start && t[x] == start[x].(history := Derived(d), supersededBy := Some(d.id))
    {
      if d in done { assert x !in c.supersedes; }
    }
  }

  lemma UnclaimedBefore(cards: seq<Card>, n: nat, x: string)
    requires DistinctIds(cards) && OneSuperseder(cards) && n < |cards| && x in cards[n].supersedes
    ensures Unclaimed(cards[..n], x)
  {
    forall d | d in cards[..n] ensures x !in d.supersedes {
      var i :| 0 <= i < n && cards[i] == d;
      assert d in cards && cards[n] in cards && cards[i].id != cards[n].id;
    }
  }

  /** What marking needs to know about the next card in replay order. */
  lemma NextCardReady(cards: seq<Card>, rank: map<string, nat>, n: nat)
    requires Grown(cards, rank) && n < |cards|
    ensures Distinct(cards[n].supersedes)
    ensures forall x <- cards[n].supersedes :: x in Initial(cards) && Unclaimed(cards[..n], x)
    ensures forall x <- cards[n].related :: x in Initial(cards)
    ensures forall x <- Initial(cards) :: Initial(cards)[x].supersededBy.None?
  {
    InitialMeans(cards);
    hide Initial;
    var c := cards[n];
    assert c in cards && RefersBack(c, rank);
    forall x | x in c.supersedes ensures Unclaimed(cards[..n], x) {
      UnclaimedBefore(cards, n, x);
    }
    forall x | x in Initial(cards) ensures Initial(cards)[x].supersededBy.None? {
      var d :| d in cards && d.id == x;
    }
  }

  lemma {:induction false} MarkCardsMeans(cards: seq<Card>, rank: map<string, nat>, n: nat)
    requires Grown(cards, rank) && n <= |cards|
    ensures MarkCards(Initial(cards), cards[..n]).Some?
    ensures MarkedBy(Initial(cards), MarkCards(Initial(cards), cards[..n]).value, cards[..n])
    decreases n
  {
    hide MarkedBy, Initial, Grown, MarkAll;
    var start := Initial(cards);
    if n == 0 {
      NothingMarked(start, cards[..0]);
    } else {
      var c := cards[n - 1];
      assert Front(cards[..n]) == cards[..n - 1] && Last(cards[..n]) == c;
      MarkCardsMeans(cards, rank, n - 1);
      NextCardReady(cards, rank, n - 1);
      var u := MarkCards(start, cards[..n - 1]).value;
      MarkOneMoreCard(start, u, cards[..n - 1], c);
      var t := MarkAll(u, c, c.supersedes).value;
      MarkedKeys(start, t, cards[..n - 1] + [c]);
      assert cards[..n - 1] + [c] == cards[..n];
      assert RelatedExist(t, c);
    }
  }

  lemma NothingMarked(start: Views, none: seq<Card>)
    requires none == []
    ensures MarkedBy(start, start, none)
  {
  }

  lemma MarkedKeys(start: Views, u: Views, done: seq<Card>)
    requires MarkedBy(start, u, done)
    ensures u.Keys == start.Keys
  {
  }

  lemma {:induction false} ArchiveMeans(v: Views, ids: seq<string>)
    requires forall x <- ids :: x in v
    ensures Archive(v, ids).Some?
    ensures Archive(v, ids).value.Keys == v.Keys
    ensures forall x <- v :: Archive(v, ids).value[x] == if x in ids then v[x].(lifecycle := Archived) else v[x]
  {
    if ids != [] {
      assert forall x <- Front(ids) :: x in ids;
      assert Last(ids) in ids;
      ArchiveMeans(v, Front(ids));
      SplitLast(ids);
    }
  }

  /** What a view says about its card. */
  ghost predicate Describes(v: View, c: Card, cards: seq<Card>, archived: seq<string>) {
    && v.card == c
    && (v.supersededBy.None? <==> Unclaimed(cards, c.id))
    && (forall d <- cards :: c.id in d.supersedes ==> v.supersededBy == Some(d.id) && v.history == Derived(d))
    && (v.supersededBy.None? ==> v.history == c.history)
    && v.lifecycle == (if c.id in archived then Archived else c.lifecycle)
  }

  ghost predicate AllDescribed(v: Views, cards: seq<Card>, archived: seq<string>) {
    v.Keys == Ids(cards) && forall c <- cards :: Describes(v[c.id], c, cards, archived)
  }

  lemma MarkedDescribes(cards: seq<Card>, u: Views, c: Card, archived: seq<string>)
    requires MarkedBy(Initial(cards), u, cards) && c in cards && c.id in u && c.id in Initial(cards)
    requires Initial(cards)[c.id] == View(c, c.history, c.lifecycle, None)
    ensures Describes(if c.id in archived then u[c.id].(lifecycle := Archived) else u[c.id], c, cards, archived)
  {
    if !Unclaimed(cards, c.id) {
      var d :| d in cards && c.id in d.supersedes;
    }
  }

  /** The views of a sound graph never raise, and they say exactly who supersedes whom. */
  lemma ViewsNeverRaise(s: Store, rank: map<string, nat>)
    requires GraphSound(s, rank)
    ensures ComputeViews(s).Some?
    ensures AllDescribed(ComputeViews(s).value, AllCards(s), ArchivedIds(s.history))
    ensures ComputeViews(s).value.Keys == rank.Keys
  {
    hide MarkedBy, Initial, MarkCards, Archive, Describes, OneSuperseder, HistoryReadable, ProposalsReadable;
    var cards := AllCards(s);
    InitialMeans(cards);
    MarkCardsMeans(cards, rank, |cards|);
    assert cards[..|cards|] == cards;
    var u := MarkCards(Initial(cards), cards).value;
    MarkedKeys(Initial(cards), u, cards);
    ArchiveMeans(u, ArchivedIds(s.history));
    var v := ComputeViews(s).value;
    forall c | c in cards ensures c.id in v && Describes(v[c.id], c, cards, ArchivedIds(s.history)) {
      MarkedDescribes(cards, u, c, ArchivedIds(s.history));
    }
  }

  // ---- acyclicity --------------------------------------------------------------------

  predicate Supersedes(cards: seq<Card>, a: string, b: string) {
    exists c :: c in cards && c.id == a && b in c.supersedes
  }

  predicate Chain(cards: seq<Card>, path: seq<string>)
    decreases |path|
  {
    |path| >= 2 ==> Supersedes(cards, path[0], path[1]) && Chain(cards, path[1..])
  }

  lemma {:induction false} ChainDescends(cards: seq<Card>, rank: map<string, nat>, path: seq<string>)
    requires Grown(cards, rank) && Chain(cards, path) && |path| >= 2
    ensures path[0] in rank && Last(path) in rank && rank[Last(path)] < rank[path[0]]
    decreases |path|
  {
    var c :| c in cards && c.id == path[0] && path[1] in c.supersedes;
    assert RefersBack(c, rank);
    if |path| > 2 {
      ChainDescends(cards, rank, path[1..]);
    }
  }

  /** No card supersedes itself through any chain. */
  lemma SupersessionIsAcyclic(s: Store, rank: map<string, nat>, path: seq<string>)
    requires GraphSound(s, rank) && |path| >= 2 && Chain(AllCards(s), path)
    ensures path[0] != Last(path)
  {
    ChainDescends(AllCards(s), rank, path);
  }

  // ---- growth ------------------------------------------------------------------------

  lemma InsertDistinct(a: seq<Card>, b: seq<Card>, c: Card)
    requires DistinctIds(a + b) && c.id !in Ids(a + b)
    ensures DistinctIds(a + [c] + b) && Ids(a + [c] + b) == Ids(a + b) + {c.id}
  {
    var before, after := a + b, a + [c] + b;
    forall i, j | 0 <= i < j < |after| ensures after[i].id != after[j].id {
      var x := if i < |a| then i else i - 1;
      var y := if j < |a| then j else j - 1;
      if i == |a| {
        assert after[j] == before[y] && before[y] in before;
      } else if j == |a| {
        assert after[i] == before[x] && before[x] in before;
      } else {
        assert after[i] == before[x] && after[j] == before[y];
      }
    }
    assert forall d :: d in after <==> d in before || d == c;
  }

  lemma InsertOneSuperseder(a: seq<Card>, b: seq<Card>, c: Card)
    requires OneSuperseder(a + b) && Distinct(c.supersedes) && forall x <- c.supersedes :: Unclaimed(a + b, x)
    ensures OneSuperseder(a + [c] + b)
  {
    assert forall d :: d in a + [c] + b <==> d in a + b || d == c;
  }

  /** What a new card must satisfy to fit a grown list. */
  ghost predicate Fits(c: Card, cards: seq<Card>, rank: map<string, nat>) {
    && c.id !in rank && Distinct(c.supersedes)
    && (forall x <- c.supersedes :: x in rank && Unclaimed(cards, x))
    && (forall x <- c.related :: x in rank)
  }

  lemma FitsIsNew(c: Card, cards: seq<Card>, rank: map<string, nat>)
    requires Fits(c, cards, rank)
    ensures c.id !in rank
  {
  }

  lemma RefersBackGrows(d: Card, c: Card, rank: map<string, nat>, top: nat)
    requires c.id !in rank && forall id <- rank :: rank[id] < top
    requires RefersBack(d, rank) || (d == c && forall x :: x in c.supersedes || x in c.related ==> x in rank)
    ensures RefersBack(d, rank[c.id := top])
  {
  }

  lemma RanksGrow(rank: map<string, nat>, id: string)
    requires id !in rank && forall x <- rank :: rank[x] < |rank|
    ensures var rank' := rank[id := |rank|]; |rank'| == |rank| + 1 && forall x <- rank' :: rank'[x] < |rank'|
  {
    assert rank[id := |rank|].Keys == rank.Keys + {id};
  }

  lemma InsertedMembers(a: seq<Card>, b: seq<Card>, c: Card)
    ensures forall d :: d in a + [c] + b <==> d in a + b || d == c
  {
  }

  /** Adding a card that fits to the members of a grown list, wherever it stands. */
  lemma GrownByCard(before: seq<Card>, after: seq<Card>, c: Card, rank: map<string, nat>)
    requires Grown(before, rank) && Fits(c, before, rank) && forall d :: d in after <==> d in before || d == c
    requires DistinctIds(after) && Ids(after) == Ids(before) + {c.id} && OneSuperseder(after)
    ensures Grown(after, rank[c.id := |rank|])
  {
    hide OneSuperseder, DistinctIds, RefersBack, Unclaimed, Ids;
    var rank' := rank[c.id := |rank|];
    RanksGrow(rank, c.id);
    forall d | d in after ensures RefersBack(d, rank') { RefersBackGrows(d, c, rank, |rank|); }
  }

  lemma GrownOneSuperseder(cards: seq<Card>, rank: map<string, nat>, c: Card)
    requires Grown(cards, rank) && Fits(c, cards, rank)
    ensures DistinctIds(cards) && OneSuperseder(cards) && c.id !in Ids(cards)
    ensures Distinct(c.supersedes) && forall x <- c.supersedes :: Unclaimed(cards, x)
  {
  }

  /** A card may be inserted anywhere in replay order once its references exist. */
  lemma InsertCard(a: seq<Card>, b: seq<Card>, c: Card, rank: map<string, nat>)
    requires Grown(a + b, rank) && Fits(c, a + b, rank)
    ensures Grown(a + [c] + b, rank[c.id := |rank|])
  {
    hide Grown, Fits, OneSuperseder, DistinctIds, Unclaimed, Ids;
    GrownOneSuperseder(a + b, rank, c);
    InsertDistinct(a, b, c);
    InsertOneSuperseder(a, b, c);
    InsertedMembers(a, b, c);
    GrownByCard(a + b, a + [c] + b, c, rank);
  }

  lemma {:induction false} FindAfterInsert(a: seq<Card>, b: seq<Card>, c: Card, id: string)
    requires id != c.id
    ensures FindCard(a + [c] + b, id) == FindCard(a + b, id)
    decreases |a|
  {
    if a == [] {
      assert ([] + [c] + b)[1..] == b && [] + b == b;
    } else {
      assert (a + [c] + b)[1..] == a[1..] + [c] + b && (a + b)[1..] == a[1..] + b;
      FindAfterInsert(a[1..], b, c, id);
    }
  }

  lemma {:induction false} FoundIsMember(cards: seq<Card>, id: string)
    ensures FindCard(cards, id).Some? <==> id in Ids(cards)
    ensures FindCard(cards, id).Some? ==> FindCard(cards, id).value in cards && FindCard(cards, id).value.id == id
    decreases |cards|
  {
    if cards != [] {
      FoundIsMember(cards[1..], id);
      assert forall c <- cards[1..] :: c in cards;
      assert forall c <- cards :: c == cards[0] || c in cards[1..];
      if id in Ids(cards) && cards[0].id != id {
        var c :| c in cards && c.id == id;
        assert c in cards[1..];
      }
    }
  }

  /** Evidence, once openable, opens to the same record ever after. */
  ghost predicate Opens(s: Store, t: Store) {
    forall ref :: Open(s, ref).Ok? ==> Open(t, ref) == Open(s, ref)
  }

  lemma {:induction false} OpenAllStable(s: Store, t: Store, refs: seq<Ref>)
    requires Opens(s, t) && OpenAll(s, refs).Ok?
    ensures OpenAll(t, refs) == OpenAll(s, refs)
  {
    if refs != [] {
      OpenAllStable(s, t, Front(refs));
    }
  }

  lemma ProposalsStayReadable(s: Store, t: Store)
    requires Opens(s, t) && ProposalsReadable(s) && t.proposals == s.proposals
    ensures ProposalsReadable(t)
  {
    forall p | p in t.proposals ensures ProposalReadable(t, p) {
      OpenAllStable(s, t, p.refs);
    }
  }

  lemma InsertOpens(s: Store, t: Store, a: seq<Card>, b: seq<Card>, c: Card)
    requires AllCards(s) == a + b && AllCards(t) == a + [c] + b && t.diary == s.diary
    requires c.id !in Ids(AllCards(s)) && CardsReadable(t)
    ensures Opens(s, t)
  {
    hide CardsReadable, AllCards;
    forall ref | Open(s, ref).Ok? ensures Open(t, ref) == Open(s, ref) {
      if ref.CardRef? {
        FoundIsMember(AllCards(s), ref.id);
        FindAfterInsert(a, b, c, ref.id);
      }
    }
  }

  /** A target whose view is current has no superseder yet. */
  lemma CurrentIsUnclaimed(v: Views, cards: seq<Card>, archived: seq<string>, x: string)
    requires AllDescribed(v, cards, archived) && x in v && v[x].history.CurrentStatus?
    ensures Unclaimed(cards, x)
  {
    var t :| t in cards && t.id == x;
    assert Describes(v[x], t, cards, archived);
  }

  /** A card that passed _build_card fits: new id, existing references, unclaimed targets. */
  lemma BuiltCardFits(s: Store, rank: map<string, nat>, d: Draft, newId: string)
    requires GraphSound(s, rank)
    ensures BuildCard(s, d, newId) != Err(Corrupt)
    ensures BuildCard(s, d, newId).Ok? ==> Fits(BuildCard(s, d, newId).value, AllCards(s), rank)
  {
    ViewsNeverRaise(s, rank);
    BuildPassed(s, d, newId);
    hide ComputeViews, Grown, AllDescribed, BuildCard;
    var v := ComputeViews(s).value;
    if BuildCard(s, d, newId).Ok? {
      var c := BuildCard(s, d, newId).value;
      forall x | x in c.supersedes ensures x in rank && Unclaimed(AllCards(s), x) {
        CurrentIsUnclaimed(v, AllCards(s), ArchivedIds(s.history), x);
      }
    }
  }

  lemma BuildPassed(s: Store, d: Draft, newId: string)
    requires ComputeViews(s).Some?
    ensures BuildCard(s, d, newId) != Err(Corrupt)
    ensures BuildCard(s, d, newId).Ok? ==>
              var c, v := BuildCard(s, d, newId).value, ComputeViews(s).value;
              && c.id !in v && Distinct(c.supersedes)
              && (forall x <- c.supersedes :: x in v && v[x].history.CurrentStatus?)
              && (forall x <- c.related :: x in v)
  {
    hide ComputeViews;
    assert forall x :: x in d.supersedes + d.related <==> x in d.supersedes || x in d.related;
  }

  lemma AddCardKeepsSound(s: Store, rank: map<string, nat>, d: Draft, newId: string) returns (rank': map<string, nat>)
    requires GraphSound(s, rank)
    ensures GraphSound(Step(s, AddCard(d, newId)).0, rank')
    ensures ProposalsReadable(s) ==> ProposalsReadable(Step(s, AddCard(d, newId)).0)
  {
    BuiltCardFits(s, rank, d, newId);
    match BuildCard(s, d, newId)
    case Err(_) => rank' := rank;
    case Ok(c) =>
      rank' := rank[c.id := |rank|];
      var t := s.(cards := s.cards + [c]);
      GrownIds(AllCards(s), rank);
      GrownIsDistinct(AllCards(s), rank);
      hide Grown, BuildCard, Open, DistinctIds;
      InsertCard(s.cards, CreatedCards(s.history), c, rank);
      GrownIsDistinct(AllCards(t), rank');
      assert HistoryReadable(t);
      InsertOpens(s, t, s.cards, CreatedCards(s.history), c);
      hide Opens, ProposalsReadable;
      if ProposalsReadable(s) { ProposalsStayReadable(s, t); }
  }

  lemma GrownIsDistinct(cards: seq<Card>, rank: map<string, nat>)
    requires Grown(cards, rank)
    ensures DistinctIds(cards)
  {
  }

  lemma GrownIds(cards: seq<Card>, rank: map<string, nat>)
    requires Grown(cards, rank)
    ensures rank.Keys == Ids(cards)
  {
  }

  lemma {:induction false} FindEventNone(es: seq<Event>, proposal: string)
    requires FindEvent(es, proposal).None?
    ensures forall e <- es :: e.proposalId != proposal
    decreases |es|
  {
    if es != [] {
      FindEventNone(es[1..], proposal);
      assert forall e <- es :: e == es[0] || e in es[1..];
    }
  }

  lemma {:induction false} FindRequestNone(ps: seq<Proposal>, id: string)
    requires FindRequest(ps, id).None?
    ensures forall p <- ps :: p.requestId != id
    decreases |ps|
  {
    if ps != [] {
      FindRequestNone(ps[1..], id);
      assert forall p <- ps :: p == ps[0] || p in ps[1..];
    }
  }

  lemma {:induction false} FoundProposal(ps: seq<Proposal>, id: string)
    requires FindProposal(ps, id).Some?
    ensures FindProposal(ps, id).value in ps && FindProposal(ps, id).value.proposalId == id
    decreases |ps|
  {
    if ps[0].proposalId != id {
      FoundProposal(ps[1..], id);
    }
  }

  lemma {:induction false} CardIdsOfRefs(refs: seq<Ref>)
    requires Distinct(refs)
    ensures Distinct(CardIdsOf(refs)) && |CardIdsOf(refs)| <= |refs|
    ensures forall x :: x in CardIdsOf(refs) <==> CardRef(x) in refs
  {
    if refs != [] {
      CardIdsOfRefs(Front(refs));
      SplitLast(refs);
      assert forall i :: 0 <= i < |refs| - 1 ==> refs[i] != Last(refs);
    }
  }

  lemma {:induction false} NotYetArchivedIds(v: Views, ids: seq<string>)
    requires Distinct(ids)
    ensures Distinct(NotYetArchived(v, ids)) && |NotYetArchived(v, ids)| <= |ids|
    ensures forall x :: x in NotYetArchived(v, ids) <==> x in ids && x in v && !v[x].lifecycle.Archived?
  {
    if ids != [] {
      NotYetArchivedIds(v, Front(ids));
      SplitLast(ids);
      assert forall i :: 0 <= i < |ids| - 1 ==> ids[i] != Last(ids);
    }
  }

  lemma HistoryStaysReadable(s: Store, e: Event)
    requires HistoryReadable(s) && EventShape(e)
    requires forall o <- s.history :: o.eventId != e.eventId && o.proposalId != e.proposalId
    ensures HistoryReadable(s.(history := s.history + [e]))
  {
    var t := s.(history := s.history + [e]);
    forall i, j | 0 <= i < j < |t.history|
      ensures t.history[i].eventId != t.history[j].eventId && t.history[i].proposalId != t.history[j].proposalId
    {
      if j == |s.history| { assert t.history[i] == s.history[i] && s.history[i] in s.history; }
    }
  }

  /** Recording one more history event. */
  lemma RecordEventKeepsSound(s: Store, rank: map<string, nat>, e: Event) returns (rank': map<string, nat>)
    requires GraphSound(s, rank) && ProposalsReadable(s) && EventShape(e)
    requires forall o <- s.history :: o.eventId != e.eventId && o.proposalId != e.proposalId
    requires forall x <- e.archived :: x in rank
    requires e.created.Some? ==> Fits(e.created.value, AllCards(s), rank)
    ensures GraphSound(s.(history := s.history + [e]), rank') && ProposalsReadable(s.(history := s.history + [e]))
  {
    hide Grown, ProposalsReadable, HistoryReadable, Fits, DistinctIds;
    var t := s.(history := s.history + [e]);
    FrontOfAppend(s.history, e);
    HistoryStaysReadable(s, e);
    if e.created.Some? {
      var c := e.created.value;
      rank' := rank[c.id := |rank|];
      GrownIds(AllCards(s), rank);
      FitsIsNew(c, AllCards(s), rank);
      assert AllCards(t) == AllCards(s) + [c] + [];
      assert AllCards(s) + [] == AllCards(s);
      InsertCard(AllCards(s), [], c, rank);
      GrownIsDistinct(AllCards(t), rank');
      InsertOpens(s, t, AllCards(s), [], c);
    } else {
      rank' := rank;
      assert AllCards(t) == AllCards(s);
      GrownIsDistinct(AllCards(t), rank);
      assert Opens(s, t);
    }
    ProposalsStayReadable(s, t);
  }

  /** Effects of applying a readable proposal: it never runs into corrupt state or changed
      evidence, and what it records fits the graph. */
  lemma EffectFits(s: Store, rank: map<string, nat>, p: Proposal, newCardId: string)
    requires GraphSound(s, rank) && ProposalsReadable(s) && p in s.proposals
    ensures OpenAll(s, p.refs) == Ok(p.evidence)
    ensures Effect(s, p, newCardId) != Err(Corrupt)
    ensures Effect(s, p, newCardId).Ok? ==>
              var (created, archived) := Effect(s, p, newCardId).value;
              && (p.operation.Retire? ==> created.None? && archived != [] && IdsValid(archived))
              && (!p.operation.Retire? ==> created.Some? && archived == [])
              && (forall x <- archived :: x in rank)
              && (created.Some? ==> Fits(created.value, AllCards(s), rank))
  {
    assert ProposalReadable(s, p);
    ViewsNeverRaise(s, rank);
    hide ComputeViews, BuildCard, Grown, AllDescribed, Fits, HistoryReadable, DraftOf, ProposalsReadable;
    if p.operation.Retire? {
      RetireFits(s, p, newCardId);
    } else if DraftOf(p).Ok? {
      BuiltCardFits(s, rank, DraftOf(p).value, newCardId);
    }
    DraftErrors(p);
  }

  lemma DraftErrors(p: Proposal)
    ensures DraftOf(p) != Err(Corrupt)
  {
  }

  lemma RetireFits(s: Store, p: Proposal, newCardId: string)
    requires p.operation.Retire? && RefsValid(p.refs) && ComputeViews(s).Some?
    ensures Effect(s, p, newCardId) != Err(Corrupt)
    ensures Effect(s, p, newCardId).Ok? ==>
              var (created, archived) := Effect(s, p, newCardId).value;
              created.None? && archived != [] && IdsValid(archived) && forall x <- archived :: x in ComputeViews(s).value
  {
    hide ComputeViews;
    CardIdsOfRefs(p.refs);
    NotYetArchivedIds(ComputeViews(s).value, CardIdsOf(p.refs));
  }

  /** Drawn ids that have not been used before. */
  predicate NewlyDrawn(s: Store, op: Op) {
    match op
    case Propose(_, _, _, _, _, newId) => forall p <- s.proposals :: p.proposalId != newId
    case Apply(_, _, _, newEventId, _) => forall e <- s.history :: e.eventId != newEventId
    case _ => true
  }

  /** A diary id is the caller's own choice; nothing in the store keeps it from repeating. */
  predicate NewEntry(s: Store, op: Op) { op.AppendDiary? ==> op.id !in EntryIds(s.diary) }

  predicate FreshFor(s: Store, op: Op) { NewlyDrawn(s, op) && NewEntry(s, op) }

  lemma OpenNeverCorrupt(s: Store, rank: map<string, nat>, ref: Ref)
    requires GraphSound(s, rank) && DistinctEntries(s.diary)
    ensures Open(s, ref) != Err(Corrupt)
  {
  }

  lemma {:induction false} OpenAllNeverCorrupt(s: Store, rank: map<string, nat>, refs: seq<Ref>)
    requires GraphSound(s, rank) && DistinctEntries(s.diary)
    ensures OpenAll(s, refs) != Err(Corrupt)
  {
    hide GraphSound, Open;
    if refs != [] {
      OpenAllNeverCorrupt(s, rank, Front(refs));
      OpenNeverCorrupt(s, rank, Last(refs));
    }
  }

  /** Whatever the diary looks like, a proposal is recorded only over a readable ledger. */
  lemma ProposeKeepsReadable(s: Store, op: Op)
    requires op.Propose? && NewlyDrawn(s, op)
    ensures var t := StepPropose(s, op).0;
            t.cards == s.cards && t.history == s.history && t.diary == s.diary
    ensures ProposalsReadable(s) ==> ProposalsReadable(StepPropose(s, op).0)
  {
    var t := StepPropose(s, op).0;
    if t != s {
      FindRequestNone(s.proposals, op.requestId);
      var p := Last(t.proposals);
      assert t.proposals == s.proposals + [p];
      assert Opens(s, t) by { assert AllCards(t) == AllCards(s); }
      hide Open, OpenAll;
      forall q | q in t.proposals ensures ProposalReadable(t, q) {
        OpenAllStable(s, t, q.refs);
      }
      forall i, j | 0 <= i < j < |t.proposals|
        ensures t.proposals[i].proposalId != t.proposals[j].proposalId && t.proposals[i].requestId != t.proposals[j].requestId
      {
        if j == |s.proposals| { assert t.proposals[i] == s.proposals[i] && s.proposals[i] in s.proposals; }
      }
    }
  }

  lemma ProposeKeepsSound(s: Store, rank: map<string, nat>, op: Op)
    requires Sound(s, rank) && op.Propose? && FreshFor(s, op)
    ensures Sound(StepPropose(s, op).0, rank)
    ensures StepPropose(s, op).1 != Err(Corrupt)
  {
    hide Grown, ProposalsReadable, OpenAll;
    ProposeKeepsReadable(s, op);
    OpenAllNeverCorrupt(s, rank, op.refs);
    assert AllCards(StepPropose(s, op).0) == AllCards(s);
  }

  /** Applying keeps the card graph sound over any diary; with readable proposals it never finds
      state corrupt, nor evidence missing or changed. */
  lemma ApplyKeepsSound(s: Store, rank: map<string, nat>, op: Op) returns (rank': map<string, nat>)
    requires GraphSound(s, rank) && op.Apply? && NewlyDrawn(s, op)
    ensures GraphSound(StepApply(s, op).0, rank')
    ensures ProposalsReadable(s) ==>
              && ProposalsReadable(StepApply(s, op).0)
              && StepApply(s, op).1 !in {Err(Corrupt), Err(EvidenceMissing), Err(EvidenceChanged)}
  {
    hide ComputeViews, BuildCard, Effect, Grown, ProposalsReadable, OpenAll;
    rank' := rank;
    if ProposalsReadable(s) && FindEvent(s.history, op.proposalId).None? && FindProposal(s.proposals, op.proposalId).Some? {
      FindEventNone(s.history, op.proposalId);
      FoundProposal(s.proposals, op.proposalId);
      var p := FindProposal(s.proposals, op.proposalId).value;
      EffectFits(s, rank, p, op.newCardId);
      EffectErrors(s, p, op.newCardId);
      if StepApply(s, op).0 != s {
        rank' := RecordEventKeepsSound(s, rank, Last(StepApply(s, op).0.history));
      }
    }
  }

  lemma EffectErrors(s: Store, p: Proposal, newCardId: string)
    ensures Effect(s, p, newCardId) !in {Err(EvidenceMissing), Err(EvidenceChanged)}
  {
  }

  // ---- the diary ---------------------------------------------------------------------

  predicate CitesDiary(p: Proposal) { exists ref :: ref in p.refs && ref.DiaryRef? }

  lemma {:induction false} FoundBefore(diary: seq<Entry>, e: Entry, id: string)
    requires id != e.id
    ensures FindEntry(diary + [e], id) == FindEntry(diary, id)
    decreases |diary|
  {
    if diary == [] {
      assert [] + [e] == [e] && [e][1..] == [];
    } else {
      assert (diary + [e])[1..] == diary[1..] + [e];
      FoundBefore(diary[1..], e, id);
    }
  }

  lemma {:induction false} FoundEntry(diary: seq<Entry>, id: string)
    ensures FindEntry(diary, id).Some? ==> id in EntryIds(diary)
    decreases |diary|
  {
    if diary != [] {
      FoundEntry(diary[1..], id);
      assert forall e <- diary[1..] :: e in diary;
      assert diary[0] in diary;
    }
  }

  lemma DistinctAfter(diary: seq<Entry>, e: Entry)
    ensures DistinctEntries(diary + [e]) <==> DistinctEntries(diary) && e.id !in EntryIds(diary)
  {
    var longer := diary + [e];
    if DistinctEntries(longer) {
      assert forall i :: 0 <= i < |diary| ==> longer[i] == diary[i];
      forall k | 0 <= k < |diary| ensures diary[k].id != e.id {
        assert longer[k].id != longer[|diary|].id;
      }
    }
    if DistinctEntries(diary) && e.id !in EntryIds(diary) {
      forall i, j | 0 <= i < j < |longer| ensures longer[i].id != longer[j].id {
        if j == |diary| { assert diary[i] in diary; }
      }
    }
  }

  /** A new entry opens nothing differently. */
  lemma NewEntryOpens(s: Store, e: Entry)
    requires DistinctEntries(s.diary) && e.id !in EntryIds(s.diary)
    ensures Opens(s, s.(diary := s.diary + [e]))
  {
    var t := s.(diary := s.diary + [e]);
    DistinctAfter(s.diary, e);
    assert AllCards(t) == AllCards(s) && (CardsReadable(t) <==> CardsReadable(s));
    hide CardsReadable, DistinctEntries, AllCards;
    forall ref | Open(s, ref).Ok? ensures Open(t, ref) == Open(s, ref) {
      if ref.DiaryRef? {
        FoundEntry(s.diary, ref.id);
        FoundBefore(s.diary, e, ref.id);
      }
    }
  }

  /** Card evidence does not depend on the diary. */
  lemma {:induction false} CardEvidenceOpens(s: Store, t: Store, refs: seq<Ref>)
    requires t.cards == s.cards && t.history == s.history && forall ref <- refs :: ref.CardRef?
    ensures OpenAll(t, refs) == OpenAll(s, refs)
  {
    if refs != [] {
      assert AllCards(t) == AllCards(s) && (CardsReadable(t) <==> CardsReadable(s));
      assert forall ref <- Front(refs) :: ref in refs;
      CardEvidenceOpens(s, t, Front(refs));
      assert Last(refs) in refs;
    }
  }

  /** With a repeated diary id no evidence from the diary opens. */
  lemma {:induction false} DiaryEvidenceFails(s: Store, refs: seq<Ref>)
    requires !DistinctEntries(s.diary) && exists ref :: ref in refs && ref.DiaryRef?
    ensures OpenAll(s, refs).Err?
  {
    if !Last(refs).DiaryRef? {
      var ref :| ref in refs && ref.DiaryRef?;
      SplitLast(refs);
      assert ref in Front(refs);
      DiaryEvidenceFails(s, Front(refs));
    }
  }

  lemma CitedDiaryIsUnreadable(s: Store, p: Proposal)
    requires !DistinctEntries(s.diary) && p in s.proposals && CitesDiary(p)
    ensures !ProposalsReadable(s)
  {
    DiaryEvidenceFails(s, p.refs);
  }

  /** Appending a diary entry keeps the stored proposals readable exactly when its id is new, or
      no proposal rests on the diary. */
  lemma AppendDiaryKeepsReadableIff(s: Store, id: string, text: string)
    requires ProposalsReadable(s)
    ensures ProposalsReadable(Step(s, AppendDiary(id, text)).0) <==>
            id !in EntryIds(s.diary) || forall p <- s.proposals :: !CitesDiary(p)
  {
    hide OpenAll, DistinctEntries, CitesDiary;
    var e, t := Entry(id, text), Step(s, AppendDiary(id, text)).0;
    DistinctAfter(s.diary, e);
    if forall p <- s.proposals :: !CitesDiary(p) {
      forall p | p in t.proposals ensures ProposalReadable(t, p) {
        OnlyCards(p);
        CardEvidenceOpens(s, t, p.refs);
      }
    } else {
      var p :| p in s.proposals && CitesDiary(p);
      if !DistinctEntries(s.diary) { CitedDiaryIsUnreadable(s, p); }
      if id in EntryIds(s.diary) {
        CitedDiaryIsUnreadable(t, p);
      } else {
        NewEntryOpens(s, e);
        ProposalsStayReadable(s, t);
      }
    }
  }

  lemma OnlyCards(p: Proposal)
    requires !CitesDiary(p)
    ensures forall ref <- p.refs :: ref.CardRef?
  {
  }

  /** While a stored proposal is unreadable, nothing is proposed, and nothing is applied that was
      not applied before. */
  lemma UnreadableProposalsBlock(s: Store, op: Op)
    requires !ProposalsReadable(s) && (op.Propose? || (op.Apply? && FindEvent(s.history, op.proposalId).None?))
    ensures Step(s, op).0 == s && Step(s, op).1.Err?
    ensures op.Propose? && RefsValid(op.refs) && (op.operation.Retire? || op.value.Some?) ==> Step(s, op).1 == Err(Corrupt)
    ensures op.Apply? ==> Step(s, op).1 == Err(Corrupt)
  {
    hide ProposalsReadable, HistoryReadable;
  }

  /** Ledgers only grow. */
  lemma StepOnlyGrows(s: Store, op: Op)
    ensures s.diary <= Step(s, op).0.diary && s.proposals <= Step(s, op).0.proposals
    ensures s.history <= Step(s, op).0.history && s.cards <= Step(s, op).0.cards
  {
    hide ComputeViews, BuildCard, Effect, ProposalsReadable, HistoryReadable, OpenAll;
  }

  lemma RepeatsStay(short: seq<Entry>, long: seq<Entry>)
    requires short <= long && !DistinctEntries(short)
    ensures !DistinctEntries(long)
  {
    var i, j :| 0 <= i < j < |short| && short[i].id == short[j].id;
    assert long[i] == short[i] && long[j] == short[j];
  }

  /** There is no way back: once a cited diary holds an id twice, no later operation, however
      chosen, makes the proposals readable again. */
  lemma {:induction false} RepeatedEntryIsForever(s: Store, p: Proposal, ops: seq<Op>)
    requires !DistinctEntries(s.diary) && p in s.proposals && CitesDiary(p)
    ensures !ProposalsReadable(RunFrom(s, ops))
    ensures !DistinctEntries(RunFrom(s, ops).diary) && p in RunFrom(s, ops).proposals
  {
    hide Step, ProposalsReadable, DistinctEntries, CitesDiary;
    if ops != [] {
      var t := RunFrom(s, Front(ops));
      RepeatedEntryIsForever(s, p, Front(ops));
      StepOnlyGrows(t, Last(ops));
      RepeatsStay(t.diary, Step(t, Last(ops)).0.diary);
      assert forall q <- t.proposals :: q in Step(t, Last(ops)).0.proposals;
    }
    CitedDiaryIsUnreadable(RunFrom(s, ops), p);
  }

  /** Three calls reach that state: an entry, a proposal resting on it, and the entry again. */
  lemma RepeatedEntryHappens()
    ensures var first := [AppendDiary("d", "x"), Propose("q", Retire, [DiaryRef("d")], "why", None, "p")];
            var s := Run(first);
            && ProposalsReadable(s) && |s.proposals| == 1 && CitesDiary(s.proposals[0])
            && !ProposalsReadable(Step(s, AppendDiary("d", "y")).0)
  {
    var entry, propose := AppendDiary("d", "x"), Propose("q", Retire, [DiaryRef("d")], "why", None, "p");
    assert Front([entry, propose]) == [entry] && Front([entry]) == [];
    var s0, s1 := RunFrom(EmptyStore, []), RunFrom(EmptyStore, [entry]);
    assert s1 == Store([], [Entry("d", "x")], [], []);
    assert FindEntry(s1.diary, "d") == Some(Entry("d", "x"));
    assert Front([DiaryRef("d")]) == [] && OpenAll(s1, []) == Ok([]);
    assert Open(s1, DiaryRef("d")) == Ok(RawDiary(Entry("d", "x"))) && Last([DiaryRef("d")]) == DiaryRef("d");
    assert OpenAll(s1, [DiaryRef("d")]) == Ok([] + [RawDiary(Entry("d", "x"))]);
    assert [] + [RawDiary(Entry("d", "x"))] == [RawDiary(Entry("d", "x"))] && propose.refs == [DiaryRef("d")];
    assert ProposalsReadable(s1) && FindRequest(s1.proposals, "q").None?;
    var p := Proposal("p", "q", Retire, [DiaryRef("d")], [RawDiary(Entry("d", "x"))], "why", None);
    var s := Run([entry, propose]);
    assert s == Step(s1, propose).0 && Distinct(propose.refs);
    assert StepPropose(s1, propose).1 == Ok(Proposed(p));
    assert s.proposals == [] + [p] && s.diary == s1.diary;
    ProposeKeepsReadable(s1, propose);
    assert DiaryRef("d") in p.refs && CitesDiary(p);
    assert Entry("d", "x") in s.diary;
    AppendDiaryKeepsReadableIff(s, "d", "y");
  }

  // ---- runs --------------------------------------------------------------------------

  lemma StepKeepsSound(s: Store, rank: map<string, nat>, op: Op) returns (rank': map<string, nat>)
    requires Sound(s, rank) && FreshFor(s, op)
    ensures Sound(Step(s, op).0, rank')
    ensures Step(s, op).1 != Err(Corrupt)
  {
    hide ComputeViews, BuildCard, Grown, StepPropose, StepApply, ProposalsReadable, DistinctEntries;
    match op
    case AddCard(d, newId) =>
      BuiltCardFits(s, rank, d, newId);
      rank' := AddCardKeepsSound(s, rank, d, newId);
    case AppendDiary(id, text) =>
      rank' := rank;
      assert AllCards(Step(s, op).0) == AllCards(s);
      AppendDiaryKeepsReadableIff(s, id, text);
      DistinctAfter(s.diary, Entry(id, text));
    case Propose(_, _, _, _, _, _) =>
      ProposeKeepsSound(s, rank, op);
      rank' := rank;
    case Apply(_, _, _, _, _) =>
      rank' := ApplyKeepsSound(s, rank, op);
      ApplyKeepsDiary(s, op);
  }

  lemma ApplyKeepsDiary(s: Store, op: Op)
    requires op.Apply?
    ensures StepApply(s, op).0.diary == s.diary
  {
    hide HistoryReadable, ProposalsReadable, OpenAll, Effect;
  }

  /** The card graph stays sound over any diary, repeated ids included. */
  lemma StepKeepsGraph(s: Store, rank: map<string, nat>, op: Op) returns (rank': map<string, nat>)
    requires GraphSound(s, rank) && NewlyDrawn(s, op)
    ensures GraphSound(Step(s, op).0, rank')
  {
    hide ComputeViews, BuildCard, Grown, StepPropose, StepApply, ProposalsReadable;
    rank' := rank;
    match op
    case AddCard(d, newId) => rank' := AddCardKeepsSound(s, rank, d, newId);
    case AppendDiary(id, text) => assert AllCards(Step(s, op).0) == AllCards(s);
    case Propose(_, _, _, _, _, _) =>
      ProposeKeepsReadable(s, op);
      assert AllCards(Step(s, op).0) == AllCards(s);
    case Apply(_, _, _, _, _) => rank' := ApplyKeepsSound(s, rank, op);
  }

  /** Ids drawn along a run are new when they are drawn; diary ids may repeat. */
  ghost predicate DrawnRun(ops: seq<Op>) {
    ops != [] ==> DrawnRun(Front(ops)) && NewlyDrawn(Run(Front(ops)), Last(ops))
  }

  /** Card-graph closure over every run of the store, whatever diary ids it uses: the views never
      raise and supersession has no cycle. */
  lemma {:induction false} RunsKeepViews(ops: seq<Op>) returns (rank: map<string, nat>)
    requires DrawnRun(ops)
    ensures GraphSound(Run(ops), rank)
    ensures ComputeViews(Run(ops)).Some?
    ensures forall path :: |path| >= 2 && Chain(AllCards(Run(ops)), path) ==> path[0] != Last(path)
  {
    hide GraphSound, ComputeViews, Step, AllCards;
    if ops == [] {
      rank := EmptyGraph();
    } else {
      rank := RunsKeepViews(Front(ops));
      rank := StepKeepsGraph(Run(Front(ops)), rank, Last(ops));
    }
    ViewsNeverRaise(Run(ops), rank);
    forall path | |path| >= 2 && Chain(AllCards(Run(ops)), path) ensures path[0] != Last(path) {
      SupersessionIsAcyclic(Run(ops), rank, path);
    }
  }

  lemma EmptyGraph() returns (rank: map<string, nat>)
    ensures GraphSound(EmptyStore, rank)
  {
    rank := map[];
  }

  ghost predicate FreshRun(ops: seq<Op>) {
    ops != [] ==> FreshRun(Front(ops)) && FreshFor(Run(Front(ops)), Last(ops))
  }

  /** Without repeated diary ids all four ledgers stay sound over every run. */
  lemma {:induction false} RunsStaySound(ops: seq<Op>) returns (rank: map<string, nat>)
    requires FreshRun(ops)
    ensures Sound(Run(ops), rank)
  {
    hide GraphSound, Step;
    if ops == [] {
      rank := EmptyGraph();
    } else {
      rank := RunsStaySound(Front(ops));
      rank := StepKeepsSound(Run(Front(ops)), rank, Last(ops));
    }
  }

  // ---- applied at most once ----------------------------------------------------------

  /** What a successful apply answers is on record under its proposal. */
  lemma AppliedIsRecorded(s: Store, op: Op)
    requires op.Apply? && Step(s, op).1.Ok?
    ensures Step(s, op).1.value.Applied?
    ensures var e := Step(s, op).1.value.event;
            FindEvent(Step(s, op).0.history, op.proposalId) == Some(e) && e.activity == op.activity && e.permission == op.permission
  {
    hide ProposalsReadable, HistoryReadable, OpenAll, Effect;
    var (t, r) := Step(s, op);
    if FindEvent(s.history, op.proposalId).None? {
      FoundProposal(s.proposals, op.proposalId);
      FindEventAppended(s.history, r.value.event, op.proposalId);
    }
  }

  lemma {:induction false} FoundStaysFound(short: seq<Event>, long: seq<Event>, proposal: string)
    requires short <= long && FindEvent(short, proposal).Some?
    ensures FindEvent(long, proposal) == FindEvent(short, proposal)
    decreases |short|
  {
    assert long[0] == short[0];
    if short[0].proposalId != proposal { FoundStaysFound(short[1..], long[1..], proposal); }
  }

  /** Whatever is done after it, the receipt of an apply stays the one on record. */
  lemma {:induction false} ReceiptStays(ops: seq<Op>, k: nat)
    requires k < |ops| && ops[k].Apply? && Step(Run(ops[..k]), ops[k]).1.Ok?
    ensures var first := Step(Run(ops[..k]), ops[k]).1;
            && first.value.Applied? && FindEvent(Run(ops).history, ops[k].proposalId) == Some(first.value.event)
            && first.value.event.activity == ops[k].activity && first.value.event.permission == ops[k].permission
    decreases |ops|
  {
    hide Step, FindEvent;
    AppliedIsRecorded(Run(ops[..k]), ops[k]);
    if k == |ops| - 1 {
      assert Front(ops) == ops[..k];
    } else {
      assert Front(ops)[..k] == ops[..k];
      ReceiptStays(Front(ops), k);
      var t := Run(Front(ops));
      StepOnlyGrows(t, Last(ops));
      FoundStaysFound(t.history, Step(t, Last(ops)).0.history, ops[k].proposalId);
    }
  }

  /** The same apply, whatever new ids it would draw. */
  predicate SameApply(op: Op, again: Op) {
    && op.Apply? && again.Apply? && again.proposalId == op.proposalId
    && again.activity == op.activity && again.permission == op.permission
  }

  /** Over every run a proposal has at most one receipt, and applying it again, however much later
      and under whatever new ids, changes nothing and answers with the first receipt. */
  lemma AppliedAtMostOnce(ops: seq<Op>)
    requires DrawnRun(ops)
    ensures var receipts := Run(ops).history;
            forall i, j :: 0 <= i < j < |receipts| ==> receipts[i].proposalId != receipts[j].proposalId
    ensures forall k, again | 0 <= k < |ops| && SameApply(ops[k], again) && Step(Run(ops[..k]), ops[k]).1.Ok? ::
              Step(Run(ops), again) == (Run(ops), Step(Run(ops[..k]), ops[k]).1)
  {
    hide Run, DrawnRun, FindEvent;
    var rank := RunsKeepViews(ops);
    SoundHistory(Run(ops), rank);
    forall k, again | 0 <= k < |ops| && SameApply(ops[k], again) && Step(Run(ops[..k]), ops[k]).1.Ok?
      ensures Step(Run(ops), again) == (Run(ops), Step(Run(ops[..k]), ops[k]).1)
    {
      ReceiptStays(ops, k);
      AppliedAgain(Run(ops), again);
    }
  }

  lemma SoundHistory(s: Store, rank: map<string, nat>)
    requires GraphSound(s, rank)
    ensures HistoryReadable(s)
  {
  }

  lemma AppliedAgain(s: Store, op: Op)
    requires HistoryReadable(s) && op.Apply? && FindEvent(s.history, op.proposalId).Some?
    requires var e := FindEvent(s.history, op.proposalId).value; e.activity == op.activity && e.permission == op.permission
    ensures Step(s, op) == (s, Ok(Applied(FindEvent(s.history, op.proposalId).value)))
  {
    hide HistoryReadable, FindEvent;
  }

  lemma {:induction false} FindEventAppended(es: seq<Event>, e: Event, proposal: string)
    requires FindEvent(es, proposal).None? && e.proposalId == proposal
    ensures FindEvent(es + [e], proposal) == Some(e)
    decreases |es|
  {
    if es != [] {
      assert (es + [e])[1..] == es[1..] + [e];
      FindEventAppended(es[1..], e, proposal);
    }
  }
}
