/** history_chain: the bounded breadth-first search over the symmetrised card relations
    (memory.py:1225-1253). */
module HistoryChains {
  import opened Basics
  import opened MemoryModel

  predicate Refers(c: Card, x: string) { x in c.supersedes || x in c.related }

  /** A card joins itself to every card it refers to, in both directions. */
  predicate Joins(c: Card, a: string, b: string) {
    (c.id == a && Refers(c, b)) || (c.id == b && Refers(c, a))
  }

  /** Two cards are linked when either refers to the other. */
  predicate Linked(cards: seq<Card>, a: string, b: string) { exists c :: c in cards && Joins(c, a, b) }

  /** A walk along links that stays inside a set of cards. */
  predicate Walk(cards: seq<Card>, inside: set<string>, path: seq<string>) {
    && path != []
    && (forall x <- path :: x in inside)
    && (forall i :: 0 < i < |path| ==> Linked(cards, path[i - 1], path[i]))
  }

  ghost predicate Connected(cards: seq<Card>, inside: set<string>, a: string, b: string) {
    exists path :: Walk(cards, inside, path) && path[0] == a && Last(path) == b
  }

  /** The connected component of a card among all card ids. */
  ghost function Component(cards: seq<Card>, start: string): set<string> {
    set x | x in Ids(cards) && Connected(cards, Ids(cards), start, x)
  }

  lemma StayPut(cards: seq<Card>, inside: set<string>, a: string)
    requires a in inside
    ensures Connected(cards, inside, a, a)
  {
    assert Walk(cards, inside, [a]);
  }

  lemma StepOn(cards: seq<Card>, inside: set<string>, a: string, b: string, c: string)
    requires Connected(cards, inside, a, b) && Linked(cards, b, c) && c in inside
    ensures Connected(cards, inside, a, c)
  {
    var path :| Walk(cards, inside, path) && path[0] == a && Last(path) == b;
    assert Walk(cards, inside, path + [c]);
    FrontOfAppend(path, c);
  }

  lemma MoreRoom(cards: seq<Card>, inside: set<string>, wider: set<string>, a: string, b: string)
    requires Connected(cards, inside, a, b) && inside <= wider
    ensures Connected(cards, wider, a, b)
  {
    var path :| Walk(cards, inside, path) && path[0] == a && Last(path) == b;
    assert Walk(cards, wider, path);
  }

  /** A set closed under links that contains the start contains every reachable card. */
  lemma {:induction false} ClosedContains(cards: seq<Card>, seen: set<string>, path: seq<string>)
    requires Walk(cards, Ids(cards), path) && path[0] in seen
    requires forall x, y | x in seen && y in Ids(cards) && Linked(cards, x, y) :: y in seen
    ensures Last(path) in seen
    decreases |path|
  {
    if |path| > 1 {
      var before := Front(path);
      assert forall i :: 0 <= i < |before| ==> before[i] == path[i];
      assert forall x <- before :: x in path;
      ClosedContains(cards, seen, before);
      assert Linked(cards, path[|path| - 2], path[|path| - 1]);
      assert Last(path) in path;
    }
  }

  /** A connected set that is closed, or that fills the limit, is as much of the component as
      the limit allows. */
  lemma SearchIsExact(cards: seq<Card>, start: string, seen: set<string>, limit: nat)
    requires start in seen && seen <= Ids(cards) && |seen| <= limit
    requires forall x <- seen :: Connected(cards, seen, start, x)
    requires |seen| == limit || forall x, y | x in seen && y in Ids(cards) && Linked(cards, x, y) :: y in seen
    ensures if |Component(cards, start)| <= limit then seen == Component(cards, start) else |seen| == limit
  {
    var all := Component(cards, start);
    forall x | x in seen ensures x in all {
      MoreRoom(cards, seen, Ids(cards), start, x);
    }
    assert seen <= all;
    if |seen| == limit {
      if |all| <= limit {
        SubsetOfSameSize(seen, all);
      }
    } else {
      forall x | x in all ensures x in seen {
        var path :| Walk(cards, Ids(cards), path) && path[0] == start && Last(path) == x;
        ClosedContains(cards, seen, path);
      }
      assert seen == all;
    }
  }

  lemma SubsetOfSameSize(a: set<string>, b: set<string>)
    requires a <= b && |b| <= |a|
    ensures a == b
  {
    assert |b - a| == |b| - |a|;
    assert b == a + (b - a);
  }

  lemma {:induction false} Reversed(cards: seq<Card>, inside: set<string>, path: seq<string>)
    requires Walk(cards, inside, path)
    ensures Connected(cards, inside, Last(path), path[0])
    decreases |path|
  {
    if |path| == 1 {
      assert path == [path[0]];
    } else {
      var rest := path[1..];
      assert forall i :: 0 < i < |rest| ==> rest[i - 1] == path[i] && rest[i] == path[i + 1];
      assert forall i {:trigger rest[i]} :: 0 < i < |rest| ==> Linked(cards, path[(i + 1) - 1], path[i + 1]);
      assert forall x <- rest :: x in path;
      Reversed(cards, inside, rest);
      assert Linked(cards, path[1 - 1], path[1]) && path[0] in path;
      assert Last(rest) == Last(path);
      StepOn(cards, inside, Last(path), path[1], path[0]);
    }
  }

  lemma {:induction false} Joined(cards: seq<Card>, inside: set<string>, a: string, path: seq<string>)
    requires Walk(cards, inside, path) && Connected(cards, inside, a, path[0])
    ensures Connected(cards, inside, a, Last(path))
    decreases |path|
  {
    if |path| > 1 {
      var before := Front(path);
      assert forall i :: 0 <= i < |before| ==> before[i] == path[i];
      assert forall x <- before :: x in path;
      Joined(cards, inside, a, before);
      assert Linked(cards, path[|path| - 2], path[|path| - 1]) && Last(path) in path;
      StepOn(cards, inside, a, Last(before), Last(path));
    }
  }

  /** The component is the same from any of its members. */
  lemma ComponentOfMember(cards: seq<Card>, start: string, member: string)
    requires start in Ids(cards) && member in Component(cards, start)
    ensures Component(cards, member) == Component(cards, start)
  {
    var out :| Walk(cards, Ids(cards), out) && out[0] == start && Last(out) == member;
    Reversed(cards, Ids(cards), out);
    forall x | x in Component(cards, start) ensures x in Component(cards, member) {
      var path :| Walk(cards, Ids(cards), path) && path[0] == start && Last(path) == x;
      Joined(cards, Ids(cards), member, path);
    }
    forall x | x in Component(cards, member) ensures x in Component(cards, start) {
      var path :| Walk(cards, Ids(cards), path) && path[0] == member && Last(path) == x;
      Joined(cards, Ids(cards), start, path);
    }
  }

  lemma LinkedAppend(cards: seq<Card>, c: Card, a: string, b: string)
    ensures Linked(cards + [c], a, b) <==> Linked(cards, a, b) || Joins(c, a, b)
  {
    assert forall d :: d in cards + [c] <==> d in cards || d == c;
  }

  predicate JoinsThrough(c: Card, refs: seq<string>, a: string, b: string) {
    (a == c.id && b in refs) || (b == c.id && a in refs)
  }

  /** One card's references entered in both directions. */
  method LinkCard(before: map<string, set<string>>, c: Card) returns (adjacent: map<string, set<string>>)
    requires c.id in before && forall x :: Refers(c, x) ==> x in before
    ensures adjacent.Keys == before.Keys
    ensures forall a, b | a in before :: b in adjacent[a] <==> b in before[a] || Joins(c, a, b)
  {
    adjacent := before;
    var refs := c.supersedes + c.related;
    for j := 0 to |refs|
      invariant adjacent.Keys == before.Keys
      invariant forall a, b | a in before :: b in adjacent[a] <==> b in before[a] || JoinsThrough(c, refs[..j], a, b)
    {
      var x := refs[j];
      assert x in refs && Refers(c, x);
      assert refs[..j + 1] == refs[..j] + [x];
      ghost var sofar := adjacent;
      adjacent := adjacent[c.id := adjacent[c.id] + {x}];
      adjacent := adjacent[x := adjacent[x] + {c.id}];
      forall a, b | a in before
        ensures b in adjacent[a] <==> b in before[a] || JoinsThrough(c, refs[..j + 1], a, b)
      {
        assert b in adjacent[a] <==> b in sofar[a] || (a == c.id && b == x) || (b == c.id && a == x);
        assert b in sofar[a] <==> b in before[a] || JoinsThrough(c, refs[..j], a, b);
      }
    }
    assert refs[..|refs|] == refs;
    forall a, b | a in before ensures b in adjacent[a] <==> b in before[a] || Joins(c, a, b) {
      assert JoinsThrough(c, refs, a, b) <==> Joins(c, a, b);
    }
  }

  /** Adjacency sets filled card by card. */
  method BuildAdjacency(cards: seq<Card>) returns (adjacent: map<string, set<string>>)
    requires forall c, x | c in cards && Refers(c, x) :: x in Ids(cards)
    ensures adjacent.Keys == Ids(cards)
    ensures forall a, b | a in adjacent :: b in adjacent[a] <==> Linked(cards, a, b)
  {
    hide Linked, Refers, Joins;
    adjacent := map id | id in Ids(cards) :: {};
    forall a, b ensures !Linked(cards[..0], a, b) { NothingLinked(a, b); }
    for i := 0 to |cards|
      invariant adjacent.Keys == Ids(cards)
      invariant forall a, b | a in adjacent :: b in adjacent[a] <==> Linked(cards[..i], a, b)
    {
      assert cards[i] in cards;
      adjacent := LinkCard(adjacent, cards[i]);
      assert cards[..i + 1] == cards[..i] + [cards[i]];
      forall a, b ensures Linked(cards[..i + 1], a, b) <==> Linked(cards[..i], a, b) || Joins(cards[i], a, b) {
        LinkedAppend(cards[..i], cards[i], a, b);
      }
    }
    assert cards[..|cards|] == cards;
  }

  lemma NothingLinked(a: string, b: string)
    ensures !Linked([], a, b)
  {
  }

  /** Some enumeration of a set; the search does not depend on which. */
  method Enumerate(s: set<string>) returns (r: seq<string>)
    ensures forall x :: x in r <==> x in s
  {
    r := [];
    var todo := s;
    while todo != {}
      invariant todo <= s
      invariant forall x :: x in r <==> x in s - todo
    {
      var x :| x in todo;
      r := r + [x];
      todo := todo - {x};
    }
  }

  lemma LinkedExist(cards: seq<Card>, a: string, b: string)
    requires forall c, x | c in cards && Refers(c, x) :: x in Ids(cards)
    requires Linked(cards, a, b)
    ensures a in Ids(cards) && b in Ids(cards)
  {
  }

  /** What the search knows between two steps. */
  ghost predicate Searching(cards: seq<Card>, start: string, seen: set<string>, queue: seq<string>) {
    && seen <= Ids(cards)
    && (forall q <- queue :: q in Ids(cards))
    && (start in seen || (seen == {} && queue == [start]))
    && (forall x <- seen :: Connected(cards, seen, start, x))
    && (forall q <- queue :: q == start || exists x :: x in seen && Linked(cards, x, q))
    && (forall x, y | x in seen && Linked(cards, x, y) :: y in seen || y in queue)
  }

  /** Skipping a card already seen. */
  lemma Skip(cards: seq<Card>, start: string, seen: set<string>, queue: seq<string>)
    requires Searching(cards, start, seen, queue) && queue != [] && queue[0] in seen
    ensures Searching(cards, start, seen, queue[1..])
  {
    hide Connected, Linked;
    assert forall q <- queue :: q == queue[0] || q in queue[1..];
    assert forall q <- queue[1..] :: q in queue;
  }

  /** Visiting a new card and queueing its unseen neighbours. */
  lemma Visit(cards: seq<Card>, start: string, seen: set<string>, queue: seq<string>, more: seq<string>)
    requires forall c, x | c in cards && Refers(c, x) :: x in Ids(cards)
    requires Searching(cards, start, seen, queue) && queue != [] && queue[0] !in seen
    requires forall y :: y in more <==> Linked(cards, queue[0], y) && y !in seen + {queue[0]}
    ensures Searching(cards, start, seen + {queue[0]}, queue[1..] + more)
  {
    hide Connected, Linked, Refers;
    var card, now := queue[0], seen + {queue[0]};
    if card == start {
      StayPut(cards, now, start);
    } else {
      assert card in queue;
      var x :| x in seen && Linked(cards, x, card);
      MoreRoom(cards, seen, now, start, x);
      StepOn(cards, now, start, x, card);
    }
    forall x | x in seen ensures Connected(cards, now, start, x) { MoreRoom(cards, seen, now, start, x); }
    forall y | y in more ensures y in Ids(cards) { LinkedExist(cards, card, y); }
    assert forall q <- queue :: q == card || q in queue[1..];
    assert forall q <- queue[1..] :: q in queue;
    assert forall q <- queue[1..] + more :: q in queue[1..] || q in more;
  }

  // ---- nearest first -----------------------------------------------------------------------

  /** One of the two is the card, and it supersedes the other or is related to it. */
  predicate OneLink(c: Card, x: string, y: string) {
    (c.id == y && (x in c.supersedes || x in c.related)) || (c.id == x && (y in c.supersedes || y in c.related))
  }

  /** The cards of a set and those one link further. */
  ghost function Further(cards: seq<Card>, s: set<string>): set<string> {
    s + set x | x in Ids(cards) && exists c, y :: c in cards && y in s && OneLink(c, x, y)
  }

  /** The cards at most d links away. */
  ghost function Within(cards: seq<Card>, start: string, d: nat): set<string> {
    if d == 0 then {start} else Further(cards, Within(cards, start, d - 1))
  }

  /** The nearest cards come first: nothing at distance d is in before everything nearer is. */
  ghost predicate Nearest(cards: seq<Card>, start: string, s: set<string>, d: nat) {
    s <= Within(cards, start, d) && (d > 0 ==> Within(cards, start, d - 1) <= s)
  }

  lemma FurtherIsLinked(cards: seq<Card>, s: set<string>, x: string)
    requires x in Ids(cards)
    ensures x in Further(cards, s) <==> x in s || exists y :: y in s && Linked(cards, y, x)
  {
    if y :| y in s && Linked(cards, y, x) {
      var c :| c in cards && Joins(c, y, x);
      assert OneLink(c, x, y);
    }
    if x !in s && x in Further(cards, s) {
      var c, y :| c in cards && y in s && OneLink(c, x, y);
      assert Joins(c, y, x);
    }
  }

  /** The queue holds what is left of one distance, then what is known of the next. */
  ghost predicate Leveled(cards: seq<Card>, start: string, seen: set<string>, queue: seq<string>, d: nat, k: nat) {
    && k <= |queue| && Nearest(cards, start, seen, d)
    && (forall i :: 0 <= i < k ==> queue[i] in Within(cards, start, d))
    && (forall i :: k <= i < |queue| ==> queue[i] in Within(cards, start, d + 1))
    && (forall x <- Within(cards, start, d) :: x in seen || x in queue[..k])
  }

  lemma LevelDone(cards: seq<Card>, start: string, seen: set<string>, queue: seq<string>, d: nat)
    requires Searching(cards, start, seen, queue) && Leveled(cards, start, seen, queue, d, 0) && start in seen
    ensures Leveled(cards, start, seen, queue, d + 1, |queue|)
  {
    hide Linked, Connected;
    assert seen == Within(cards, start, d);
    assert queue[..|queue|] == queue;
    forall x | x in Within(cards, start, d + 1) ensures x in seen || x in queue {
      if x !in seen {
        FurtherIsLinked(cards, seen, x);
        var y :| y in seen && Linked(cards, y, x);
      }
    }
  }

  lemma SkipLeveled(cards: seq<Card>, start: string, seen: set<string>, queue: seq<string>, d: nat, k: nat)
    requires Leveled(cards, start, seen, queue, d, k) && 0 < k && queue[0] in seen
    ensures Leveled(cards, start, seen, queue[1..], d, k - 1)
  {
    hide Within;
    var rest := queue[1..];
    forall x | x in Within(cards, start, d) ensures x in seen || x in rest[..k - 1] {
      if x !in seen {
        var i :| 0 <= i < k && queue[..k][i] == x;
        assert rest[..k - 1][i - 1] == x;
      }
    }
  }

  lemma VisitLeveled(cards: seq<Card>, start: string, seen: set<string>, queue: seq<string>, more: seq<string>, d: nat, k: nat)
    requires Leveled(cards, start, seen, queue, d, k) && 0 < k && (forall x <- more :: x in Ids(cards))
    requires forall y :: y in more ==> Linked(cards, queue[0], y)
    ensures Leveled(cards, start, seen + {queue[0]}, queue[1..] + more, d, k - 1)
  {
    var next := queue[1..] + more;
    assert next[..k - 1] == queue[1..][..k - 1];
    assert queue[0] in Within(cards, start, d);
    forall i | k - 1 <= i < |next| ensures next[i] in Within(cards, start, d + 1) {
      if i >= |queue| - 1 {
        assert next[i] in more;
        FurtherIsLinked(cards, Within(cards, start, d), next[i]);
      } else {
        assert next[i] == queue[i + 1];
      }
    }
    forall x | x in Within(cards, start, d) ensures x in seen + {queue[0]} || x in next[..k - 1] {
      if x !in seen + {queue[0]} {
        var i :| 0 <= i < k && queue[..k][i] == x;
        assert next[..k - 1][i - 1] == x;
      }
    }
  }

  lemma NearestIsLeveled(cards: seq<Card>, start: string, seen: set<string>, queue: seq<string>, d: nat, k: nat)
    requires Leveled(cards, start, seen, queue, d, k)
    ensures Nearest(cards, start, seen, d)
  {
  }

  lemma NotSeenYet(cards: seq<Card>, start: string)
    ensures Leveled(cards, start, {}, [start], 0, 1)
  {
    assert [start][..1] == [start];
  }

  lemma {:induction false} MarkingNeedsTargets(v: Views, c: Card, xs: seq<string>)
    requires MarkAll(v, c, xs).Some?
    ensures MarkAll(v, c, xs).value.Keys == v.Keys && forall x <- xs :: x in v
  {
    if xs != [] {
      MarkingNeedsTargets(v, c, Front(xs));
      SplitLast(xs);
    }
  }

  lemma {:induction false} MarkedCardsReferInside(v: Views, cards: seq<Card>)
    requires MarkCards(v, cards).Some?
    ensures MarkCards(v, cards).value.Keys == v.Keys
    ensures forall c, x | c in cards && Refers(c, x) :: x in v
  {
    if cards != [] {
      var c := Last(cards);
      MarkedCardsReferInside(v, Front(cards));
      MarkingNeedsTargets(MarkCards(v, Front(cards)).value, c, c.supersedes);
      SplitLast(cards);
    }
  }

  lemma {:induction false} InitialKeys(cards: seq<Card>)
    ensures Initial(cards).Keys == Ids(cards)
  {
    if cards != [] {
      InitialKeys(Front(cards));
      SplitLast(cards);
      assert Ids(cards) == Ids(Front(cards)) + {Last(cards).id};
    }
  }

  /** Whenever the views can be computed, every reference names a known card. */
  lemma ViewsCloseReferences(s: Store)
    requires ComputeViews(s).Some?
    ensures forall c, x | c in AllCards(s) && Refers(c, x) :: x in Ids(AllCards(s))
  {
    InitialKeys(AllCards(s));
    MarkedCardsReferInside(Initial(AllCards(s)), AllCards(s));
  }

  datatype ChainError = LimitOutOfRange | StateUnreadable

  /** The search terminates and returns a connected set around the card: the whole component
      when it has at most `limit` cards, and otherwise exactly `limit` of them, nearest first. */
  method HistoryChain(s: Store, start: string, limit: int) returns (r: Result<set<string>, ChainError>)
    ensures r == Err(LimitOutOfRange) <==> !(1 <= limit <= 200)
    ensures r == Err(StateUnreadable) <==> 1 <= limit <= 200 && ComputeViews(s).None?
    ensures r.Ok? && start !in Ids(AllCards(s)) ==> r.value == {}
    ensures r.Ok? && start in Ids(AllCards(s)) ==>
              var cards := AllCards(s);
              && start in r.value && r.value <= Ids(cards)
              && (forall x <- r.value :: Connected(cards, r.value, start, x))
              && (if |Component(cards, start)| <= limit then r.value == Component(cards, start) else |r.value| == limit)
              && (exists d: nat :: Nearest(cards, start, r.value, d))
  {
    hide Connected, Linked, Refers, Component, ComputeViews, AllCards, Leveled, Nearest;
    if !(1 <= limit <= 200) { return Err(LimitOutOfRange); }
    if ComputeViews(s).None? { return Err(StateUnreadable); }
    var cards := AllCards(s);
    if start !in Ids(cards) { return Ok({}); }
    ViewsCloseReferences(s);
    var adjacent := BuildAdjacency(cards);
    var queue, seen := [start], {};
    ghost var d: nat, k: nat := 0, 1;
    NotSeenYet(cards, start);
    while queue != [] && |seen| < limit
      invariant |seen| <= limit
      invariant Searching(cards, start, seen, queue)
      invariant Leveled(cards, start, seen, queue, d, k)
      invariant k == 0 ==> start in seen
      decreases Ids(cards) - seen, |queue|
    {
      var card := queue[0];
      assert card in queue;
      if k == 0 {
        LevelDone(cards, start, seen, queue, d);
        d, k := d + 1, |queue|;
      }
      if card in seen {
        Skip(cards, start, seen, queue);
        SkipLeveled(cards, start, seen, queue, d, k);
        queue, k := queue[1..], k - 1;
        continue;
      }
      var more := Enumerate(adjacent[card] - (seen + {card}));
      Visit(cards, start, seen, queue, more);
      forall x | x in more ensures x in Ids(cards) { LinkedExist(cards, card, x); }
      VisitLeveled(cards, start, seen, queue, more, d, k);
      queue, k := queue[1..] + more, k - 1;
      seen := seen + {card};
    }
    SearchIsExact(cards, start, seen, limit);
    NearestIsLeveled(cards, start, seen, queue, d, k);
    return Ok(seen);
  }
}
