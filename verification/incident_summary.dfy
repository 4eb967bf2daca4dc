/** aggregate_incidents: the latest projection of each scope, and the counters over them
    (moonbite_plugin/incidents.py:647-705). */
module IncidentSummaries {
  import opened Basics
  import opened Orders
  import opened Incidents

  const MAX_AGGREGATION := 256

  function SequenceRank(p: Projection): int { if p.sequence.Some? then p.sequence.value else -1 }

  function Rank(s: Severity): nat {
    match s case Info => 0 case Warning => 1 case Error => 2 case Critical => 3
  }

  /** _projection_order, strictly greater. */
  predicate Newer(p: Projection, q: Projection) {
    if p.observed != q.observed then p.observed > q.observed
    else if p.received != q.received then p.received > q.received
    else if SequenceRank(p) != SequenceRank(q) then SequenceRank(p) > SequenceRank(q)
    else !StringLE(p.eventId, q.eventId)
  }

  /** Later observation decides, then later receipt, then the higher sequence number, where none is
      lowest, and last the event id. */
  lemma NewerMeans(p: Projection, q: Projection)
    ensures Newer(p, q) <==>
            || p.observed > q.observed
            || (p.observed == q.observed && p.received > q.received)
            || (p.observed == q.observed && p.received == q.received && p.sequence.Some?
                && (q.sequence.None? || p.sequence.value > q.sequence.value))
            || (p.observed == q.observed && p.received == q.received && p.sequence == q.sequence
                && p.eventId != q.eventId && exists k: nat :: DiffersAt(q.eventId, p.eventId, k))
  {
    StringLEIsTotal(p.eventId, q.eventId);
    StringLEMeans(q.eventId, p.eventId);
    if StringLE(p.eventId, q.eventId) && StringLE(q.eventId, p.eventId) { StringLEIsAntisymmetric(p.eventId, q.eventId); }
  }

  predicate Concerns(p: Projection, scope: Scope, neutral: bool) {
    p.scope == scope && p.lifecycle.NeutralFact? == neutral
  }

  /** The projection one of the two dictionaries holds for a scope after a pass. */
  function Latest(ps: seq<Projection>, scope: Scope, neutral: bool): Option<Projection> {
    if ps == [] then None
    else
      var before, p := Latest(Front(ps), scope, neutral), Last(ps);
      if Concerns(p, scope, neutral) && (before.None? || Newer(p, before.value)) then Some(p) else before
  }

  /** Neutral facts are only a fallback: they never hide an active or recovered incident. */
  function Selected(ps: seq<Projection>, scope: Scope): Option<Projection> {
    if Latest(ps, scope, false).Some? then Latest(ps, scope, false) else Latest(ps, scope, true)
  }

  lemma NewestStays(x: Projection, kept: Projection, p: Projection)
    requires Newer(p, kept) && !Newer(x, kept)
    ensures !Newer(x, p)
  {
    StringLEIsTotal(kept.eventId, p.eventId);
    if StringLE(x.eventId, kept.eventId) && StringLE(kept.eventId, p.eventId) {
      StringLEIsTransitive(x.eventId, kept.eventId, p.eventId);
    }
  }

  /** The kept projection concerns the scope, was supplied, and nothing supplied is newer. */
  lemma {:induction false} LatestIsNewest(ps: seq<Projection>, scope: Scope, neutral: bool)
    ensures Latest(ps, scope, neutral).None? <==> forall p <- ps :: !Concerns(p, scope, neutral)
    ensures Latest(ps, scope, neutral).Some? ==>
              var kept := Latest(ps, scope, neutral).value;
              && kept in ps && Concerns(kept, scope, neutral)
              && forall p <- ps :: Concerns(p, scope, neutral) ==> !Newer(p, kept)
  {
    if ps != [] {
      hide Newer;
      var before, p := Latest(Front(ps), scope, neutral), Last(ps);
      LatestIsNewest(Front(ps), scope, neutral);
      SplitLast(ps);
      NotNewerThanItself(p);
      if before.Some? && Concerns(p, scope, neutral) && Newer(p, before.value) {
        forall x | x in Front(ps) && Concerns(x, scope, neutral) ensures !Newer(x, p) {
          NewestStays(x, before.value, p);
        }
      }
    }
  }

  lemma NotNewerThanItself(p: Projection)
    ensures !Newer(p, p)
  {
    StringLEIsTotal(p.eventId, p.eventId);
  }

  /** The class that decides a scope: neutral facts only if nothing else was supplied. */
  predicate NeutralDecides(ps: seq<Projection>, scope: Scope) { forall p <- ps :: !Concerns(p, scope, false) }

  /** A projection of the deciding class that nothing supplied is newer than. */
  predicate Newest(ps: seq<Projection>, scope: Scope, p: Projection) {
    && p in ps && Concerns(p, scope, NeutralDecides(ps, scope))
    && forall q <- ps :: Concerns(q, scope, NeutralDecides(ps, scope)) ==> !Newer(q, p)
  }

  lemma SelectedIsNewest(ps: seq<Projection>, scope: Scope)
    ensures Selected(ps, scope).None? <==> scope !in Scopes(ps)
    ensures Selected(ps, scope).Some? ==> Newest(ps, scope, Selected(ps, scope).value)
  {
    hide Newer;
    LatestIsNewest(ps, scope, false);
    LatestIsNewest(ps, scope, true);
    if scope in Scopes(ps) {
      var p :| p in ps && p.scope == scope;
      assert Concerns(p, scope, p.lifecycle.NeutralFact?);
    }
  }

  lemma {:induction false} FrontIsKept(p: Projection, rest: seq<Projection>, scope: Scope, neutral: bool)
    requires Concerns(p, scope, neutral) && forall q <- rest :: Concerns(q, scope, neutral) ==> !Newer(q, p)
    ensures Latest([p] + rest, scope, neutral) == Some(p)
  {
    hide Newer;
    if rest == [] {
      assert [p] + rest == [p] && Front([p]) == [];
    } else {
      assert Front([p] + rest) == [p] + Front(rest) && Last([p] + rest) == Last(rest);
      FrontIsKept(p, Front(rest), scope, neutral);
    }
  }

  predicate Reordered(ps: seq<Projection>, qs: seq<Projection>) { multiset(ps) == multiset(qs) }

  lemma SameElements(ps: seq<Projection>, qs: seq<Projection>)
    requires Reordered(ps, qs)
    ensures forall p :: p in ps <==> p in qs
  {
    assert forall p :: p in ps <==> p in multiset(ps);
    assert forall p :: p in qs <==> p in multiset(qs);
  }

  /** Any newest projection can be made the selected one by supplying it first. */
  lemma NewestCanBeSelected(ps: seq<Projection>, scope: Scope, p: Projection) returns (qs: seq<Projection>)
    requires Newest(ps, scope, p)
    ensures Reordered(ps, qs) && Selected(qs, scope) == Some(p)
  {
    hide Newer;
    var i :| 0 <= i < |ps| && ps[i] == p;
    var rest := ps[..i] + ps[i + 1..];
    assert ps == ps[..i] + [p] + ps[i + 1..];
    assert forall q <- rest :: q in ps;
    qs := [p] + rest;
    FrontIsKept(p, rest, scope, NeutralDecides(ps, scope));
    LatestIsNewest(qs, scope, false);
  }

  /** One newest projection: neither order nor repetition of the input makes a difference. */
  lemma SelectionIgnoresOrder(ps: seq<Projection>, qs: seq<Projection>, scope: Scope)
    requires forall p :: p in ps <==> p in qs
    requires forall p, q | Newest(ps, scope, p) && Newest(ps, scope, q) :: p == q
    ensures Selected(ps, scope) == Selected(qs, scope)
  {
    hide Newer, Selected;
    SelectedIsNewest(ps, scope);
    SelectedIsNewest(qs, scope);
    assert forall p :: Newest(ps, scope, p) <==> Newest(qs, scope, p);
    assert scope in Scopes(ps) <==> scope in Scopes(qs);
  }

  /** The selection of a scope is the same for every order of the input exactly when the deciding
      class has at most one newest projection. */
  lemma OrderIsImmaterialIff(ps: seq<Projection>, scope: Scope)
    ensures (forall qs :: Reordered(ps, qs) ==> Selected(qs, scope) == Selected(ps, scope)) <==>
            (forall p, q | Newest(ps, scope, p) && Newest(ps, scope, q) :: p == q)
  {
    hide Newest, Selected, Reordered;
    if forall p, q | Newest(ps, scope, p) && Newest(ps, scope, q) :: p == q {
      forall qs | Reordered(ps, qs) ensures Selected(qs, scope) == Selected(ps, scope) {
        SameElements(ps, qs);
        SelectionIgnoresOrder(ps, qs, scope);
      }
    }
    if forall qs :: Reordered(ps, qs) ==> Selected(qs, scope) == Selected(ps, scope) {
      forall p, q | Newest(ps, scope, p) && Newest(ps, scope, q) ensures p == q {
        var first := NewestCanBeSelected(ps, scope, p);
        var second := NewestCanBeSelected(ps, scope, q);
      }
    }
  }

  /** Two different projections of one scope that the order cannot separate. */
  predicate Tied(p: Projection, q: Projection) {
    p != q && p.scope == q.scope && p.lifecycle.NeutralFact? == q.lifecycle.NeutralFact? && !Newer(p, q) && !Newer(q, p)
  }

  /** Tied are exactly the projections of one scope and class that agree on the event id, both times
      and the sequence number, and differ elsewhere: in reason, severity, state or label. */
  lemma TiedIff(p: Projection, q: Projection)
    ensures Tied(p, q) <==>
              && p != q && p.scope == q.scope && p.lifecycle.NeutralFact? == q.lifecycle.NeutralFact?
              && p.eventId == q.eventId && p.observed == q.observed && p.received == q.received && p.sequence == q.sequence
  {
    StringLEIsTotal(p.eventId, q.eventId);
    if StringLE(p.eventId, q.eventId) && StringLE(q.eventId, p.eventId) {
      StringLEIsAntisymmetric(p.eventId, q.eventId);
    }
  }

  /** A tie is decided by whichever comes first. */
  lemma TiesKeepTheFirst(p: Projection, q: Projection)
    requires Tied(p, q)
    ensures Selected([p, q], p.scope) == Some(p) && Selected([q, p], p.scope) == Some(q)
  {
    hide Newer;
    var neutral := p.lifecycle.NeutralFact?;
    FrontIsKept(p, [q], p.scope, neutral);
    FrontIsKept(q, [p], p.scope, neutral);
    assert [p] + [q] == [p, q] && [q] + [p] == [q, p];
    LatestIsNewest([p, q], p.scope, false);
    LatestIsNewest([q, p], p.scope, false);
  }

  function Scopes(ps: seq<Projection>): set<Scope> { set p <- ps :: p.scope }

  type Selection = map<Scope, Projection>

  /** Scopes in all, by lifecycle, active ones by severity, and the worst active severity. */
  datatype Summary = Summary(
    total: nat, newOnes: nat, currentOnes: nat, recoveredOnes: nat, neutralOnes: nat,
    infos: nat, warnings: nat, errors: nat, criticals: nat, worst: Option<Severity>)

  predicate IsActive(p: Projection) { p.lifecycle in {New, Current} }

  /** How many of some selected scopes carry a label, or are active with a severity. */
  ghost function Labelled(m: Selection, l: Label): nat { |set s | s in m && m[s].lifecycle == l| }

  ghost function ActiveWith(m: Selection, v: Severity): nat { |set s | s in m && IsActive(m[s]) && m[s].severity == v| }

  ghost predicate Counts(m: Selection, r: Summary) {
    && r.total == |m|
    && r.newOnes == Labelled(m, New) && r.currentOnes == Labelled(m, Current)
    && r.recoveredOnes == Labelled(m, RecoveredHistory) && r.neutralOnes == Labelled(m, NeutralFact)
    && r.infos == ActiveWith(m, Info) && r.warnings == ActiveWith(m, Warning)
    && r.errors == ActiveWith(m, Error) && r.criticals == ActiveWith(m, Critical)
    && Worst(m, r.worst)
  }

  ghost predicate Worst(m: Selection, worst: Option<Severity>) {
    && (worst.None? ==> forall s <- m :: !IsActive(m[s]))
    && (worst.Some? ==>
          && (exists s :: s in m && IsActive(m[s]) && m[s].severity == worst.value)
          && (forall s <- m :: IsActive(m[s]) ==> Rank(m[s].severity) <= Rank(worst.value)))
  }

  /** The counters add up: every scope has one lifecycle, every active one one severity. */
  predicate AddsUp(r: Summary) {
    && r.newOnes + r.currentOnes + r.recoveredOnes + r.neutralOnes == r.total
    && r.infos + r.warnings + r.errors + r.criticals == r.newOnes + r.currentOnes
  }

  const NOTHING_COUNTED := Summary(0, 0, 0, 0, 0, 0, 0, 0, 0, None)

  function CountLabel(r: Summary, l: Label): Summary {
    match l
    case New => r.(newOnes := r.newOnes + 1)
    case Current => r.(currentOnes := r.currentOnes + 1)
    case RecoveredHistory => r.(recoveredOnes := r.recoveredOnes + 1)
    case NeutralFact => r.(neutralOnes := r.neutralOnes + 1)
  }

  function CountSeverity(r: Summary, v: Severity): Summary {
    match v
    case Info => r.(infos := r.infos + 1)
    case Warning => r.(warnings := r.warnings + 1)
    case Error => r.(errors := r.errors + 1)
    case Critical => r.(criticals := r.criticals + 1)
  }

  /** One more selected projection entered in the counters. */
  function CountOne(r: Summary, p: Projection): Summary {
    var labelled := CountLabel(r.(total := r.total + 1), p.lifecycle);
    if !IsActive(p) then labelled
    else CountSeverity(labelled, p.severity).(
      worst := if r.worst.None? || Rank(p.severity) > Rank(r.worst.value) then Some(p.severity) else r.worst)
  }

  lemma LabelledGrows(m: Selection, s: Scope, p: Projection, l: Label)
    requires s !in m
    ensures Labelled(m[s := p], l) == Labelled(m, l) + if p.lifecycle == l then 1 else 0
  {
    var n := m[s := p];
    var before, after := set x | x in m && m[x].lifecycle == l, set x | x in n && n[x].lifecycle == l;
    GrownByOne(before, after, s, p.lifecycle == l);
  }

  lemma ActiveGrows(m: Selection, s: Scope, p: Projection, v: Severity)
    requires s !in m
    ensures ActiveWith(m[s := p], v) == ActiveWith(m, v) + if IsActive(p) && p.severity == v then 1 else 0
  {
    hide IsActive;
    var n := m[s := p];
    var before := set x | x in m && IsActive(m[x]) && m[x].severity == v;
    var after := set x | x in n && IsActive(n[x]) && n[x].severity == v;
    GrownByOne(before, after, s, IsActive(p) && p.severity == v);
  }

  lemma GrownByOne(before: set<Scope>, after: set<Scope>, s: Scope, grown: bool)
    requires s !in before && (s in after <==> grown) && forall x | x != s :: x in before <==> x in after
    ensures |after| == |before| + if grown then 1 else 0
  {
    assert after == if grown then before + {s} else before;
  }

  lemma WorstGrows(m: Selection, worst: Option<Severity>, s: Scope, p: Projection)
    requires Worst(m, worst) && s !in m
    ensures Worst(m[s := p], if IsActive(p) && (worst.None? || Rank(p.severity) > Rank(worst.value)) then Some(p.severity) else worst)
  {
    var n := m[s := p];
    assert s in n && n[s] == p;
    if worst.Some? {
      var t :| t in m && IsActive(m[t]) && m[t].severity == worst.value;
      assert t in n && n[t] == m[t];
    }
  }

  lemma CountOneCounts(m: Selection, r: Summary, s: Scope, p: Projection)
    requires Counts(m, r) && AddsUp(r) && s !in m
    ensures Counts(m[s := p], CountOne(r, p)) && AddsUp(CountOne(r, p))
  {
    hide Labelled, ActiveWith, Worst, IsActive, Rank;
    var n, after := m[s := p], CountOne(r, p);
    LabelledGrows(m, s, p, New);
    LabelledGrows(m, s, p, Current);
    LabelledGrows(m, s, p, RecoveredHistory);
    LabelledGrows(m, s, p, NeutralFact);
    ActiveGrows(m, s, p, Info);
    ActiveGrows(m, s, p, Warning);
    ActiveGrows(m, s, p, Error);
    ActiveGrows(m, s, p, Critical);
    WorstGrows(m, r.worst, s, p);
    GrownByOne(m.Keys, n.Keys, s, true);
    CountOneMeans(r, p);
  }

  /** One more projection moves the counters of its own label and severity only. */
  lemma CountOneMeans(r: Summary, p: Projection)
    requires AddsUp(r)
    ensures AddsUp(CountOne(r, p))
  {
  }

  /** The worst severity is the highest one whose counter is not zero. */
  lemma WorstIsCounted(m: Selection, r: Summary)
    requires Counts(m, r)
    ensures r.worst == if r.criticals > 0 then Some(Critical) else if r.errors > 0 then Some(Error)
                       else if r.warnings > 0 then Some(Warning) else if r.infos > 0 then Some(Info) else None
  {
    CountedIffPresent(m, Info);
    CountedIffPresent(m, Warning);
    CountedIffPresent(m, Error);
    CountedIffPresent(m, Critical);
  }

  lemma CountedIffPresent(m: Selection, v: Severity)
    ensures ActiveWith(m, v) > 0 <==> exists s :: s in m && IsActive(m[s]) && m[s].severity == v
  {
    var present := set s | s in m && IsActive(m[s]) && m[s].severity == v;
    if s :| s in m && IsActive(m[s]) && m[s].severity == v {
      assert s in present;
    }
    if |present| > 0 {
      var s :| s in present;
    }
  }

  lemma NothingCounts(m: Selection)
    requires m.Keys == {}
    ensures Counts(m, NOTHING_COUNTED) && AddsUp(NOTHING_COUNTED)
  {
    assert forall s :: s !in m;
    assert forall l: Label :: Labelled(m, l) == 0;
    assert forall v: Severity :: ActiveWith(m, v) == 0;
    assert |m| == |m.Keys|;
  }

  lemma TakeOut(m: Selection, todo: set<Scope>, s: Scope)
    requires s in todo && todo <= m.Keys
    ensures (m - todo)[s := m[s]] == m - (todo - {s})
  {
  }

  /** Two dictionaries filled in one pass; the non-neutral one overrides the other. */
  method Select(ps: seq<Projection>) returns (m: Selection)
    ensures m.Keys == Scopes(ps)
    ensures forall s <- m :: Selected(ps, s) == Some(m[s])
  {
    hide Newer;
    var active: Selection, neutral: Selection := map[], map[];
    for i := 0 to |ps|
      invariant forall s :: Latest(ps[..i], s, false) == if s in active then Some(active[s]) else None
      invariant forall s :: Latest(ps[..i], s, true) == if s in neutral then Some(neutral[s]) else None
    {
      var p := ps[i];
      assert Front(ps[..i + 1]) == ps[..i];
      if p.lifecycle.NeutralFact? {
        if p.scope !in neutral || Newer(p, neutral[p.scope]) { neutral := neutral[p.scope := p]; }
      } else {
        if p.scope !in active || Newer(p, active[p.scope]) { active := active[p.scope := p]; }
      }
    }
    assert ps[..|ps|] == ps;
    m := neutral + active;
    forall s ensures s in m <==> s in Scopes(ps) {
      LatestIsNewest(ps, s, false);
      LatestIsNewest(ps, s, true);
      if s in Scopes(ps) {
        var p :| p in ps && p.scope == s;
        assert Concerns(p, s, p.lifecycle.NeutralFact?);
      }
    }
    assert forall s <- m :: Selected(ps, s) == Some(m[s]);
  }

  /** The counters, filled one selected projection at a time. */
  method Count(m: Selection) returns (r: Summary)
    ensures Counts(m, r) && AddsUp(r)
  {
    hide Counts, CountOne, AddsUp, NOTHING_COUNTED;
    r := NOTHING_COUNTED;
    var todo := m.Keys;
    NothingCounts(m - todo);
    while todo != {}
      invariant todo <= m.Keys && Counts(m - todo, r) && AddsUp(r)
    {
      var s :| s in todo;
      CountOneCounts(m - todo, r, s, m[s]);
      TakeOut(m, todo, s);
      r := CountOne(r, m[s]);
      todo := todo - {s};
    }
    assert m - todo == m;
  }

  /** aggregate_incidents: more than 256 projections are refused. */
  method Aggregate(ps: seq<Projection>) returns (r: Option<(Selection, Summary)>)
    ensures r.None? <==> |ps| > MAX_AGGREGATION
    ensures r.Some? ==>
              && r.value.0.Keys == Scopes(ps)
              && (forall s <- r.value.0 :: Selected(ps, s) == Some(r.value.0[s]))
              && Counts(r.value.0, r.value.1) && AddsUp(r.value.1)
  {
    hide Counts, Selected;
    if |ps| > MAX_AGGREGATION { return None; }
    var m := Select(ps);
    var summary := Count(m);
    return Some((m, summary));
  }
}
