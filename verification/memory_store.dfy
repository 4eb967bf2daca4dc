/** MemoryStore: four append-only ledgers, the loops that rebuild the card views from them,
    and the mutators that append to them (memory.py:704-755, 851-977, 1422-1657). */
module MemoryStores {
  import opened Basics
  import opened MemoryModel

  lemma {:induction false} MarkAllStaysNone(v: Views, c: Card, xs: seq<string>, n: nat)
    requires n <= |xs| && MarkAll(v, c, xs[..n]).None?
    ensures MarkAll(v, c, xs).None?
    decreases |xs|
  {
    if n == |xs| {
      assert xs[..n] == xs;
    } else {
      assert Front(xs)[..n] == xs[..n];
      MarkAllStaysNone(v, c, Front(xs), n);
    }
  }

  lemma {:induction false} MarkCardsStaysNone(v: Views, cards: seq<Card>, n: nat)
    requires n <= |cards| && MarkCards(v, cards[..n]).None?
    ensures MarkCards(v, cards).None?
    decreases |cards|
  {
    if n == |cards| {
      assert cards[..n] == cards;
    } else {
      assert Front(cards)[..n] == cards[..n];
      MarkCardsStaysNone(v, Front(cards), n);
    }
  }

  lemma {:induction false} ArchiveStaysNone(v: Views, ids: seq<string>, n: nat)
    requires n <= |ids| && Archive(v, ids[..n]).None?
    ensures Archive(v, ids).None?
    decreases |ids|
  {
    if n == |ids| {
      assert ids[..n] == ids;
    } else {
      assert Front(ids)[..n] == ids[..n];
      ArchiveStaysNone(v, Front(ids), n);
    }
  }

  class MemoryStore {
    var cards: seq<Card>
    var diary: seq<Entry>
    var proposals: seq<Proposal>
    var history: seq<Event>

    function Value(): Store
      reads this
    {
      Store(cards, diary, proposals, history)
    }

    constructor ()
      ensures Value() == EmptyStore
    {
      cards, diary, proposals, history := [], [], [], [];
    }

    /** _card_rows: base cards, then created cards, with duplicate ids refused. */
    method CardRows() returns (r: Option<seq<Card>>)
      ensures r == if CardsReadable(Value()) then Some(AllCards(Value())) else None
    {
      if !HistoryReadable(Value()) { return None; }
      var all := cards;
      for i := 0 to |history|
        invariant all == cards + CreatedCards(history[..i])
      {
        assert Front(history[..i + 1]) == history[..i];
        if history[i].created.Some? { all := all + [history[i].created.value]; }
      }
      assert history[..|history|] == history;
      var seen: set<string> := {};
      for i := 0 to |all|
        invariant DistinctIds(all[..i])
        invariant seen == set c <- all[..i] :: c.id
      {
        if all[i].id in seen {
          var c :| c in all[..i] && c.id == all[i].id;
          var j :| 0 <= j < i && all[..i][j] == c;
          assert all[j].id == all[i].id;
          return None;
        }
        assert all[..i + 1] == all[..i] + [all[i]];
        seen := seen + {all[i].id};
      }
      assert all[..|all|] == all;
      return Some(all);
    }

    /** The ids one card supersedes, marked one after the other. */
    method MarkSuperseded(views: Views, c: Card) returns (r: Option<Views>)
      ensures r == MarkAll(views, c, c.supersedes)
    {
      var v := views;
      for i := 0 to |c.supersedes|
        invariant MarkAll(views, c, c.supersedes[..i]) == Some(v)
      {
        var x := c.supersedes[i];
        assert Front(c.supersedes[..i + 1]) == c.supersedes[..i];
        if x !in v || v[x].supersededBy.Some? {
          MarkAllStaysNone(views, c, c.supersedes, i + 1);
          return None;
        }
        v := v[x := v[x].(history := Derived(c), supersededBy := Some(c.id))];
      }
      assert c.supersedes[..|c.supersedes|] == c.supersedes;
      return Some(v);
    }

    /** First pass: every card as stored. */
    method StoredViews(all: seq<Card>) returns (views: Views)
      ensures views == Initial(all)
    {
      views := map[];
      for i := 0 to |all|
        invariant views == Initial(all[..i])
      {
        assert Front(all[..i + 1]) == all[..i];
        views := views[all[i].id := View(all[i], all[i].history, all[i].lifecycle, None)];
      }
      assert all[..|all|] == all;
    }

    /** Second pass: supersessions and the existence of related cards. */
    method MarkEveryCard(stored: Views, all: seq<Card>) returns (r: Option<Views>)
      ensures r == MarkCards(stored, all)
    {
      hide MarkAll;
      var views := stored;
      for i := 0 to |all|
        invariant MarkCards(stored, all[..i]) == Some(views)
      {
        assert Front(all[..i + 1]) == all[..i];
        var marked := MarkSuperseded(views, all[i]);
        if marked.None? || exists x :: x in all[i].related && x !in marked.value {
          MarkCardsStaysNone(stored, all, i + 1);
          return None;
        }
        views := marked.value;
      }
      assert all[..|all|] == all;
      return Some(views);
    }

    /** Third pass: the cards archived by the maintenance history. */
    method ArchiveEvery(marked: Views, archived: seq<string>) returns (r: Option<Views>)
      ensures r == Archive(marked, archived)
    {
      var views := marked;
      for i := 0 to |archived|
        invariant Archive(marked, archived[..i]) == Some(views)
      {
        assert Front(archived[..i + 1]) == archived[..i];
        var x := archived[i];
        if x !in views {
          ArchiveStaysNone(marked, archived, i + 1);
          return None;
        }
        views := views[x := views[x].(lifecycle := Archived)];
      }
      assert archived[..|archived|] == archived;
      return Some(views);
    }

    /** _compute_card_views. */
    method ComputeCardViews() returns (r: Option<Views>)
      ensures r == ComputeViews(Value())
    {
      hide MarkCards, Archive, Initial;
      var rows := CardRows();
      if rows.None? { return None; }
      var stored := StoredViews(rows.value);
      var marked := MarkEveryCard(stored, rows.value);
      if marked.None? { return None; }
      r := ArchiveEvery(marked.value, ArchivedIds(history));
    }

    /** _build_card. */
    method Build(d: Draft, newId: string) returns (r: Result<Card, MemoryError>)
      ensures r == BuildCard(Value(), d, newId)
    {
      hide ComputeViews;
      var views := ComputeCardViews();
      if views.None? { return Err(Corrupt); }
      var v := views.value;
      var id := if d.id.Some? then d.id.value else newId;
      if !IdsValid(d.supersedes) || !IdsValid(d.related) { return Err(BadIds); }
      if exists x :: x in d.supersedes + d.related && x !in v { return Err(MissingRelation); }
      if id in d.supersedes + d.related { return Err(SelfReference); }
      if d.supersedes != [] && !d.history.CurrentStatus? { return Err(SupersederNotCurrent); }
      for i := 0 to |d.supersedes|
        invariant forall j :: 0 <= j < i ==>
          d.supersedes[j] in v ==> v[d.supersedes[j]].history.CurrentStatus? && v[d.supersedes[j]].lifecycle.Active?
      {
        var x := d.supersedes[i];
        assert x in d.supersedes + d.related;
        if !v[x].history.CurrentStatus? || !v[x].lifecycle.Active? { return Err(TargetNotCurrent); }
      }
      assert forall x <- d.supersedes :: x in d.supersedes + d.related;
      if (d.supersedes != []) != d.kind.Some? { return Err(KindMismatch); }
      if id in v { return Err(CardExists); }
      return Ok(Card(id, d.content, d.history, d.lifecycle, d.supersedes, d.kind, d.related));
    }

    method Add(d: Draft, newId: string) returns (r: Result<Reply, MemoryError>)
      modifies this
      ensures (Value(), r) == Step(old(Value()), AddCard(d, newId))
    {
      hide BuildCard;
      var built := Build(d, newId);
      if built.Err? { return Err(built.error); }
      cards := cards + [built.value];
      return Ok(CardAdded(built.value));
    }

    /** append_diary: whatever its id, the entry is appended. */
    method AppendDiary(id: string, text: string) returns (r: Result<Reply, MemoryError>)
      modifies this
      ensures (Value(), r) == Step(old(Value()), Op.AppendDiary(id, text))
    {
      diary := diary + [Entry(id, text)];
      return Ok(DiaryAppended);
    }

    /** propose_maintenance: the same request is answered with its first proposal. */
    method ProposeMaintenance(requestId: string, operation: Operation, refs: seq<Ref>, reason: string,
                              value: Option<Draft>, newId: string) returns (r: Result<Reply, MemoryError>)
      modifies this
      ensures (Value(), r) == Step(old(Value()), Propose(requestId, operation, refs, reason, value, newId))
    {
      hide Open, ProposalsReadable;
      if !RefsValid(refs) { return Err(BadRefs); }
      if !operation.Retire? && value.None? { return Err(ValueRequired); }
      if !ProposalsReadable(Value()) { return Err(Corrupt); }
      var existing := FindRequest(proposals, requestId);
      if existing.Some? {
        var p := existing.value;
        if p.operation == operation && p.refs == refs && p.reason == reason && p.value == value { return Ok(Proposed(p)); }
        return Err(RequestConflict);
      }
      var evidence: seq<Raw> := [];
      for i := 0 to |refs|
        invariant OpenAll(Value(), refs[..i]) == Ok(evidence)
        invariant Value() == old(Value())
      {
        assert Front(refs[..i + 1]) == refs[..i];
        var record := Open(Value(), refs[i]);
        if record.Err? {
          OpenAllFails(Value(), refs, i + 1);
          return Err(record.error);
        }
        evidence := evidence + [record.value];
      }
      assert refs[..|refs|] == refs;
      var p := Proposal(newId, requestId, operation, refs, evidence, reason, value);
      proposals := proposals + [p];
      return Ok(Proposed(p));
    }

    /** apply_maintenance: one history receipt per proposal. */
    method ApplyMaintenance(proposalId: string, activity: string, permission: Permission,
                            newEventId: string, newCardId: string) returns (r: Result<Reply, MemoryError>)
      modifies this
      ensures (Value(), r) == Step(old(Value()), Apply(proposalId, activity, permission, newEventId, newCardId))
    {
      hide Open, OpenAll, ComputeViews, BuildCard, ProposalsReadable, HistoryReadable, DraftOf;
      if !HistoryReadable(Value()) { return Err(Corrupt); }
      var applied := FindEvent(history, proposalId);
      if applied.Some? {
        if applied.value.activity == activity && applied.value.permission == permission { return Ok(Applied(applied.value)); }
        return Err(ReplayConflict);
      }
      if !ProposalsReadable(Value()) { return Err(Corrupt); }
      var found := FindProposal(proposals, proposalId);
      if found.None? { return Err(ProposalMissing); }
      var p := found.value;
      var evidence := OpenAll(Value(), p.refs);
      if evidence.Err? { return Err(evidence.error); }
      if evidence.value != p.evidence { return Err(EvidenceChanged); }
      if Level(permission) < Level(Required(p.operation)) { return Err(PermissionDenied); }
      var created: Option<Card>, archived: seq<string> := None, [];
      if p.operation.Retire? {
        var views := ComputeCardViews();
        if views.None? { return Err(Corrupt); }
        if exists ref :: ref in p.refs && !ref.CardRef? { return Err(CardsOnly); }
        archived := NotYetArchived(views.value, CardIdsOf(p.refs));
        if archived == [] { return Err(AlreadyArchived); }
      } else {
        var d := DraftOf(p);
        if d.Err? { return Err(d.error); }
        var built := Build(d.value, newCardId);
        if built.Err? { return Err(built.error); }
        created := Some(built.value);
      }
      var e := Event(newEventId, p.proposalId, p.operation, activity, permission, created, archived);
      history := history + [e];
      return Ok(Applied(e));
    }
  }

  /** The first error of the evidence is the error of all of it. */
  lemma {:induction false} OpenAllFails(s: Store, refs: seq<Ref>, n: nat)
    requires n <= |refs| && OpenAll(s, refs[..n]).Err?
    ensures OpenAll(s, refs) == OpenAll(s, refs[..n])
    decreases |refs|
  {
    if n == |refs| {
      assert refs[..n] == refs;
    } else {
      assert Front(refs)[..n] == refs[..n];
      OpenAllFails(s, Front(refs), n);
    }
  }
}
