/** A side as both engines store it: price levels, each with a FIFO queue. */
module Ladder {
  import opened Protocol
  import opened PriorityList

  datatype PriceLevel = PriceLevel(price: int, queue: seq<Entry>)

  /** The priority list a ladder stands for. */
  function Flatten(l: seq<PriceLevel>): seq<Entry> {
    if l == [] then [] else l[0].queue + Flatten(l[1..])
  }

  ghost predicate LevelOk(lv: PriceLevel) {
    forall j :: 0 <= j < |lv.queue| ==> lv.queue[j].price == lv.price && lv.queue[j].qty > 0
  }

  /** Levels strictly in price order, entries under their own price. */
  ghost predicate Shape(s: Side, l: seq<PriceLevel>) {
    && (forall i, j :: 0 <= i < j < |l| ==> Better(s, l[i].price, l[j].price))
    && (forall i :: 0 <= i < |l| ==> LevelOk(l[i]))
  }

  /** No level is empty. */
  ghost predicate Full(l: seq<PriceLevel>) {
    forall i :: 0 <= i < |l| ==> l[i].queue != []
  }

  lemma {:induction false} FlattenConcat(a: seq<PriceLevel>, b: seq<PriceLevel>)
    ensures Flatten(a + b) == Flatten(a) + Flatten(b)
  {
    if a == [] {
      assert a + b == b;
    } else {
      assert (a + b)[1..] == a[1..] + b;
      FlattenConcat(a[1..], b);
    }
  }

  lemma {:induction false} FlattenAt(l: seq<PriceLevel>, i: nat)
    requires i < |l|
    ensures Flatten(l) == Flatten(l[..i]) + l[i].queue + Flatten(l[i + 1..])
  {
    assert l == l[..i] + l[i..];
    FlattenConcat(l[..i], l[i..]);
    assert l[i..][1..] == l[i + 1..];
  }

  /** Every entry of the list sits in the queue of some level, under that level's price. */
  lemma {:induction false} EntryLevel(l: seq<PriceLevel>, e: Entry) returns (i: nat)
    requires e in Flatten(l)
    ensures i < |l| && e in l[i].queue
  {
    if e in l[0].queue {
      i := 0;
    } else {
      i := EntryLevel(l[1..], e);
      i := i + 1;
    }
  }

  lemma QueueWithin(l: seq<PriceLevel>, i: nat, e: Entry)
    requires i < |l| && e in l[i].queue
    ensures e in Flatten(l)
  {
    FlattenAt(l, i);
  }

  lemma QueueAvoids(l: seq<PriceLevel>, i: nat, id: string)
    requires i < |l| && id !in Ids(Flatten(l))
    ensures forall j :: 0 <= j < |l[i].queue| ==> l[i].queue[j].id != id
  {
    forall j | 0 <= j < |l[i].queue| ensures l[i].queue[j].id != id {
      QueueWithin(l, i, l[i].queue[j]);
    }
  }

  lemma EntryPrice(s: Side, l: seq<PriceLevel>, e: Entry) returns (i: nat)
    requires Shape(s, l) && e in Flatten(l)
    ensures i < |l| && e in l[i].queue && l[i].price == e.price && e.qty > 0
  {
    i := EntryLevel(l, e);
    var j :| 0 <= j < |l[i].queue| && l[i].queue[j] == e;
    assert LevelOk(l[i]);
  }

  // ---------- what changing a ladder does to its list ----------

  /** Every entry of these levels is at least as good as p. */
  lemma PricesBefore(s: Side, l: seq<PriceLevel>, p: int)
    requires Shape(s, l) && forall i :: 0 <= i < |l| ==> !Better(s, p, l[i].price)
    ensures forall k :: 0 <= k < |Flatten(l)| ==> !Better(s, p, Flatten(l)[k].price)
  {
    forall k | 0 <= k < |Flatten(l)| ensures !Better(s, p, Flatten(l)[k].price) {
      var i := EntryPrice(s, l, Flatten(l)[k]);
    }
  }

  lemma PricesAfter(s: Side, l: seq<PriceLevel>, p: int)
    requires Shape(s, l) && forall i :: 0 <= i < |l| ==> Better(s, p, l[i].price)
    ensures Flatten(l) == [] || Better(s, p, Flatten(l)[0].price)
  {
    if Flatten(l) != [] {
      var i := EntryPrice(s, l, Flatten(l)[0]);
    }
  }

  lemma SubShape(s: Side, l: seq<PriceLevel>, i: nat)
    requires Shape(s, l) && i <= |l|
    ensures Shape(s, l[..i]) && Shape(s, l[i..])
  {
  }

  /** Joining the queue of an existing level is the priority insertion. */
  lemma JoinLevel(s: Side, l: seq<PriceLevel>, i: nat, e: Entry)
    requires Shape(s, l) && i < |l| && l[i].price == e.price && e.qty > 0
    ensures var l' := l[i := PriceLevel(e.price, l[i].queue + [e])];
            Shape(s, l') && Flatten(l') == Insert(Flatten(l), s, e)
  {
    JoinShape(s, l, i, e);
    JoinAround(s, l, i);
    hide Flatten, Insert, Shape;
    var l' := l[i := PriceLevel(e.price, l[i].queue + [e])];
    var u, q, v := Flatten(l[..i]), l[i].queue, Flatten(l[i + 1..]);
    FlattenAt(l, i);
    FlattenAt(l', i);
    assert l'[..i] == l[..i] && l'[i + 1..] == l[i + 1..];
    InsertSplit(u + q, v, s, e);
    assert u + (q + [e]) + v == u + q + [e] + v;
  }

  lemma JoinShape(s: Side, l: seq<PriceLevel>, i: nat, e: Entry)
    requires Shape(s, l) && i < |l| && l[i].price == e.price && e.qty > 0
    ensures Shape(s, l[i := PriceLevel(e.price, l[i].queue + [e])])
  {
    assert LevelOk(l[i]);
    assert LevelOk(PriceLevel(e.price, l[i].queue + [e]));
  }

  /** Up to the end of level i no price is worse than its own; after it every price is. */
  lemma JoinAround(s: Side, l: seq<PriceLevel>, i: nat)
    requires Shape(s, l) && i < |l|
    ensures var front, back := Flatten(l[..i]) + l[i].queue, Flatten(l[i + 1..]);
            && (forall k :: 0 <= k < |front| ==> !Better(s, l[i].price, front[k].price))
            && (back == [] || Better(s, l[i].price, back[0].price))
  {
    SubShape(s, l, i);
    SubShape(s, l, i + 1);
    PricesBefore(s, l[..i], l[i].price);
    PricesAfter(s, l[i + 1..], l[i].price);
    assert LevelOk(l[i]);
  }

  /** Opening a level where the prices turn worse is the priority insertion. */
  lemma OpenLevel(s: Side, l: seq<PriceLevel>, i: nat, e: Entry)
    requires Shape(s, l) && i <= |l| && e.qty > 0
    requires forall k :: 0 <= k < i ==> Better(s, l[k].price, e.price)
    requires forall k :: i <= k < |l| ==> Better(s, e.price, l[k].price)
    ensures var l' := l[..i] + [PriceLevel(e.price, [e])] + l[i..];
            Shape(s, l') && Flatten(l') == Insert(Flatten(l), s, e)
  {
    OpenShape(s, l, i, e);
    var l' := l[..i] + [PriceLevel(e.price, [e])] + l[i..];
    var a, b := l[..i], l[i..];
    SubShape(s, l, i);
    hide Flatten, Insert, Shape;
    PricesBefore(s, a, e.price);
    PricesAfter(s, b, e.price);
    assert l == a + b;
    FlattenConcat(a, b);
    FlattenAt(l', i);
    assert l'[..i] == a && l'[i + 1..] == b;
    InsertSplit(Flatten(a), Flatten(b), s, e);
  }

  lemma OpenShape(s: Side, l: seq<PriceLevel>, i: nat, e: Entry)
    requires Shape(s, l) && i <= |l| && e.qty > 0
    requires forall k :: 0 <= k < i ==> Better(s, l[k].price, e.price)
    requires forall k :: i <= k < |l| ==> Better(s, e.price, l[k].price)
    ensures Shape(s, l[..i] + [PriceLevel(e.price, [e])] + l[i..])
  {
    assert LevelOk(PriceLevel(e.price, [e]));
  }

  /** Level i without its entry j, dropped when that empties it. */
  function WithoutEntry(l: seq<PriceLevel>, i: nat, j: nat): seq<PriceLevel>
    requires i < |l| && j < |l[i].queue|
  {
    var q := l[i].queue[..j] + l[i].queue[j + 1..];
    if q == [] then l[..i] + l[i + 1..] else l[i := PriceLevel(l[i].price, q)]
  }

  lemma LeaveShape(s: Side, l: seq<PriceLevel>, i: nat, j: nat)
    requires Shape(s, l) && i < |l| && j < |l[i].queue|
    ensures var l' := WithoutEntry(l, i, j); Shape(s, l') && (Full(l) ==> Full(l'))
  {
    var q := l[i].queue[..j] + l[i].queue[j + 1..];
    assert LevelOk(l[i]);
    assert LevelOk(PriceLevel(l[i].price, q));
  }

  lemma {:induction false} LeaveFlat(l: seq<PriceLevel>, i: nat, j: nat)
    requires i < |l| && j < |l[i].queue|
    ensures var a, b := Flatten(l[..i]) + l[i].queue[..j], l[i].queue[j + 1..] + Flatten(l[i + 1..]);
            Flatten(l) == a + [l[i].queue[j]] + b && Flatten(WithoutEntry(l, i, j)) == a + b
  {
    hide Flatten;
    var l', es, u, v := WithoutEntry(l, i, j), l[i].queue, Flatten(l[..i]), Flatten(l[i + 1..]);
    FlattenAt(l, i);
    assert u + es + v == u + es[..j] + [es[j]] + (es[j + 1..] + v);
    if es[..j] + es[j + 1..] == [] {
      FlattenConcat(l[..i], l[i + 1..]);
      assert u + es[..j] + (es[j + 1..] + v) == u + v;
    } else {
      FlattenAt(l', i);
      assert l'[..i] == l[..i] && l'[i + 1..] == l[i + 1..];
      assert u + (es[..j] + es[j + 1..]) + v == u + es[..j] + (es[j + 1..] + v);
    }
  }

  /** Leaving a queue is the removal by id. */
  lemma LeaveLevel(s: Side, l: seq<PriceLevel>, i: nat, j: nat)
    requires Shape(s, l) && DistinctIds(Flatten(l)) && i < |l| && j < |l[i].queue|
    ensures var l' := WithoutEntry(l, i, j);
            Shape(s, l') && (Full(l) ==> Full(l')) && Flatten(l') == Remove(Flatten(l), l[i].queue[j].id)
  {
    LeaveShape(s, l, i, j);
    hide Shape, Full, Flatten, WithoutEntry, Remove, Ids, DistinctIds;
    LeaveFlat(l, i, j);
    var e := l[i].queue[j];
    var a, b := Flatten(l[..i]) + l[i].queue[..j], l[i].queue[j + 1..] + Flatten(l[i + 1..]);
    FirstWithId(a, e, b);
    RemoveSplit(a, e, b);
  }

  lemma FirstWithId(a: seq<Entry>, e: Entry, b: seq<Entry>)
    requires DistinctIds(a + [e] + b)
    ensures e.id !in Ids(a)
  {
    var l := a + [e] + b;
    forall x | x in a ensures x.id != e.id {
      var k :| 0 <= k < |a| && a[k] == x;
      assert l[k] == x && l[|a|] == e;
    }
  }

  lemma OnlyOnce(l: seq<PriceLevel>, i: nat, j: nat)
    requires DistinctIds(Flatten(l)) && i < |l| && j < |l[i].queue|
    ensures var id := l[i].queue[j].id;
            && id !in Ids(Flatten(l[..i])) && id !in Ids(Flatten(l[i + 1..]))
            && forall k :: 0 <= k < |l[i].queue| && k != j ==> l[i].queue[k].id != id
  {
    FlattenAt(l, i);
    hide Flatten, Ids;
    var a, es, b, all := Flatten(l[..i]), l[i].queue, Flatten(l[i + 1..]), Flatten(l);
    assert forall k :: 0 <= k < |es| ==> all[|a| + k] == es[k];
    assert forall k :: 0 <= k < |b| ==> all[|a| + |es| + k] == b[k];
    assert forall k :: 0 <= k < |a| ==> all[k] == a[k];
    assert all[|a| + j].id == es[j].id;
    NotAmong(a, es[j].id);
    NotAmong(b, es[j].id);
    forall k | 0 <= k < |es| && k != j ensures es[k].id != es[j].id {
      assert all[|a| + k].id == es[k].id;
    }
  }

  // ---------- trading with the front of the best level ----------

  /** The ladder after its very first order traded q. */
  function HitHead(l: seq<PriceLevel>, q: int): seq<PriceLevel>
    requires l != [] && l[0].queue != []
  {
    var e := l[0].queue[0];
    var queue := if q == e.qty then l[0].queue[1..] else l[0].queue[0 := e.(qty := e.qty - q)];
    l[0 := PriceLevel(l[0].price, queue)]
  }

  /** The list after its very first order traded q. */
  function HitFirst(l: seq<Entry>, q: int): seq<Entry>
    requires l != []
  {
    if q == l[0].qty then l[1..] else [l[0].(qty := l[0].qty - q)] + l[1..]
  }

  lemma HitHeadShape(s: Side, l: seq<PriceLevel>, q: int)
    requires Shape(s, l) && l != [] && l[0].queue != [] && 0 < q <= l[0].queue[0].qty
    ensures Shape(s, HitHead(l, q)) && l[0].queue[0].price == l[0].price
  {
    assert LevelOk(l[0]);
    assert LevelOk(HitHead(l, q)[0]);
  }

  lemma {:induction false} HitHeadFlat(l: seq<PriceLevel>, q: int)
    requires l != [] && l[0].queue != []
    ensures Flatten(l) != [] && Flatten(l)[0] == l[0].queue[0]
    ensures Flatten(HitHead(l, q)) == HitFirst(Flatten(l), q)
  {
    assert HitHead(l, q)[1..] == l[1..];
  }

  lemma IdsCons(e: Entry, b: seq<Entry>)
    ensures Ids([e] + b) == {e.id} + Ids(b)
  {
    hide *;
    Spliced([], e, b);
    assert [] + [e] + b == [e] + b && [] + b == b;
  }

  lemma HitFirstIds(l: seq<Entry>, q: int)
    requires DistinctIds(l) && l != []
    ensures DistinctIds(HitFirst(l, q))
    ensures Ids(HitFirst(l, q)) == if q == l[0].qty then Ids(l) - {l[0].id} else Ids(l)
  {
    hide Ids;
    var e := l[0].(qty := l[0].qty - q);
    NotAmong(l[1..], e.id);
    assert l == [l[0]] + l[1..];
    IdsCons(l[0], l[1..]);
    IdsCons(e, l[1..]);
  }

  /** One trade with the front order is one step of the match. */
  lemma MatchStep(l: seq<Entry>, o: Order, remaining: int)
    requires l != [] && remaining > 0 && Accepts(o, l[0].price) && l[0].qty > 0
    ensures var q := Min(remaining, l[0].qty);
            var m, m' := Match(l, o, remaining), Match(HitFirst(l, q), o, remaining - q);
            m.fills == [Fill(l[0].price, q, l[0].id)] + m'.fills && m.rest == m'.rest && m.remaining == m'.remaining
  {
  }

  lemma MatchStops(l: seq<PriceLevel>, o: Order, remaining: int)
    requires remaining <= 0 || l == [] || (l[0].queue != [] && !Accepts(o, l[0].queue[0].price))
    ensures Match(Flatten(l), o, remaining) == MatchResult([], Flatten(l), remaining)
  {
  }

  /** Finishing m2 from fills2 is finishing m1 from fills1. */
  ghost predicate SameMatch(m1: MatchResult, fills1: seq<Fill>, m2: MatchResult, fills2: seq<Fill>) {
    fills1 + m1.fills == fills2 + m2.fills && m1.rest == m2.rest && m1.remaining == m2.remaining
  }

  lemma TradeExtends(s: Side, l: seq<PriceLevel>, o: Order, remaining: int, fills: seq<Fill>, fill: Fill)
    requires Shape(s, l) && l != [] && l[0].queue != [] && remaining > 0 && Accepts(o, l[0].price)
    requires var e := l[0].queue[0]; e.qty > 0 && fill == Fill(e.price, Min(remaining, e.qty), e.id)
    ensures |HitHead(l, fill.qty)| == |l| && HitHead(l, fill.qty)[1..] == l[1..]
    ensures SameMatch(Match(Flatten(l), o, remaining), fills,
                      Match(Flatten(HitHead(l, fill.qty)), o, remaining - fill.qty), fills + [fill])
  {
    HitHeadFlat(l, fill.qty);
    HitHeadShape(s, l, fill.qty);
    MatchStep(Flatten(l), o, remaining);
  }

  /** The priority list determines the ladder, level by level. */
  lemma {:induction false} Canonical(s: Side, l: seq<PriceLevel>, m: seq<PriceLevel>)
    requires Shape(s, l) && Full(l) && Shape(s, m) && Full(m)
    requires Flatten(l) == Flatten(m)
    ensures l == m
  {
    FullNonempty(l);
    FullNonempty(m);
    if l != [] && m != [] {
      assert LevelOk(l[0]) && LevelOk(m[0]);
      assert Flatten(l)[0] == l[0].queue[0] && Flatten(m)[0] == m[0].queue[0];
      HeadQueue(s, l, m);
      HeadQueue(s, m, l);
      SubShape(s, l, 1);
      SubShape(s, m, 1);
      SameSplit(l[0].queue, Flatten(l[1..]), m[0].queue, Flatten(m[1..]));
      Canonical(s, l[1..], m[1..]);
      assert l == [l[0]] + l[1..] && m == [m[0]] + m[1..];
    }
  }

  lemma SameSplit(a: seq<Entry>, b: seq<Entry>, c: seq<Entry>, d: seq<Entry>)
    requires a + b == c + d && |a| == |c|
    ensures a == c && b == d
  {
    assert a == (a + b)[..|a|] && c == (c + d)[..|c|];
    assert b == (a + b)[|a|..] && d == (c + d)[|c|..];
  }

  lemma FullNonempty(l: seq<PriceLevel>)
    requires Full(l)
    ensures Flatten(l) == [] <==> l == []
  {
  }

  lemma HeadQueue(s: Side, l: seq<PriceLevel>, m: seq<PriceLevel>)
    requires Shape(s, l) && Shape(s, m) && l != [] && m != []
    requires l[0].price == m[0].price && Flatten(l) == Flatten(m)
    ensures |l[0].queue| <= |m[0].queue|
  {
    if |l[0].queue| > |m[0].queue| {
      var e := l[0].queue[|m[0].queue|];
      assert LevelOk(l[0]);
      assert e.price == l[0].price && e == Flatten(l)[|m[0].queue|];
      assert Flatten(m) == m[0].queue + Flatten(m[1..]);
      assert e == Flatten(m[1..])[0];
      var i := EntryPrice(s, m[1..], e);
      assert false;
    }
  }
}
