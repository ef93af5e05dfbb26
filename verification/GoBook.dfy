/** The platform's reference book: price levels holding queues of order objects,
    and an id index that aliases those same objects. */
module GoBook {
  import opened Protocol
  import opened PriorityList
  import opened Ladder

  class RestingOrder {
    const id: string
    const side: Side
    const price: int
    var qty: int

    constructor (id: string, side: Side, price: int, qty: int)
      ensures this.id == id && this.side == side && this.price == price && this.qty == qty
    {
      this.id, this.side, this.price, this.qty := id, side, price, qty;
    }
  }

  class Level {
    const price: int
    var queue: seq<RestingOrder> // FIFO: index 0 has time priority

    constructor (price: int, queue: seq<RestingOrder>)
      ensures this.price == price && this.queue == queue
    {
      this.price, this.queue := price, queue;
    }
  }

  /** A snapshot of the mutable fields of every object the book owns. */
  datatype Store = Store(queues: map<Level, seq<RestingOrder>>, qtys: map<RestingOrder, int>,
                         byID: map<string, RestingOrder>)

  /** The queued object r is the entry e, and the index leads to that same object. */
  ghost predicate OrderAt(r: RestingOrder, s: Side, e: Entry, st: Store) {
    && r.id == e.id && r.side == s && r.price == e.price
    && r in st.qtys && st.qtys[r] == e.qty
    && e.id in st.byID && st.byID[e.id] == r
  }

  ghost predicate QueueAt(q: seq<RestingOrder>, s: Side, es: seq<Entry>, st: Store) {
    |q| == |es| && forall j :: 0 <= j < |q| ==> OrderAt(q[j], s, es[j], st)
  }

  ghost predicate LevelAt(lv: Level, s: Side, pl: PriceLevel, st: Store) {
    lv in st.queues && lv.price == pl.price && QueueAt(st.queues[lv], s, pl.queue, st)
  }

  ghost predicate SideAt(levels: seq<Level>, s: Side, l: seq<PriceLevel>, st: Store) {
    |levels| == |l| && forall i :: 0 <= i < |levels| ==> LevelAt(levels[i], s, l[i], st)
  }

  /** Side s holds ladder l, the other side l2, and the index holds exactly their orders. */
  ghost predicate Linked(s: Side, levels: seq<Level>, l: seq<PriceLevel>, levels2: seq<Level>, l2: seq<PriceLevel>, st: Store) {
    match st
    case Store(_, _, byID) =>
      && SideAt(levels, s, l, st) && SideAt(levels2, Opposite(s), l2, st)
      && Shape(s, l) && Shape(Opposite(s), l2)
      && DistinctIds(Flatten(l)) && DistinctIds(Flatten(l2))
      && Ids(Flatten(l)) !! Ids(Flatten(l2))
      && byID.Keys == Ids(Flatten(l)) + Ids(Flatten(l2))
  }

  // ---------- changing one order leaves the others linked ----------

  /** From st to st2, nothing changed for orders with another id than id0. */
  ghost predicate OnlyTouched(id0: string, st: Store, st2: Store) {
    && (forall r :: r in st.qtys && r.id != id0 ==> r in st2.qtys && st2.qtys[r] == st.qtys[r])
    && (forall id :: id in st.byID && id != id0 ==> id in st2.byID && st2.byID[id] == st.byID[id])
  }

  lemma QueueKept(q: seq<RestingOrder>, s: Side, es: seq<Entry>, id0: string, st: Store, st2: Store)
    requires QueueAt(q, s, es, st) && OnlyTouched(id0, st, st2)
    requires forall j :: 0 <= j < |es| ==> es[j].id != id0
    ensures QueueAt(q, s, es, st2)
  {
    forall j | 0 <= j < |q| ensures OrderAt(q[j], s, es[j], st2) {
      assert OrderAt(q[j], s, es[j], st);
    }
  }

  lemma SideKept(levels: seq<Level>, s: Side, l: seq<PriceLevel>, id0: string, st: Store, st2: Store)
    requires SideAt(levels, s, l, st) && OnlyTouched(id0, st, st2) && id0 !in Ids(Flatten(l))
    requires forall i :: 0 <= i < |levels| ==> levels[i] in st2.queues && st2.queues[levels[i]] == st.queues[levels[i]]
    ensures SideAt(levels, s, l, st2)
  {
    forall i | 0 <= i < |levels| ensures LevelAt(levels[i], s, l[i], st2) {
      assert LevelAt(levels[i], s, l[i], st);
      QueueAvoids(l, i, id0);
      QueueKept(st.queues[levels[i]], s, l[i].queue, id0, st, st2);
    }
  }

  /** Levels of different price are different objects, and so are the two sides' levels. */
  lemma LevelsApart(levels: seq<Level>, s: Side, l: seq<PriceLevel>, st: Store)
    requires SideAt(levels, s, l, st) && Shape(s, l)
    ensures forall i, j :: 0 <= i < j < |levels| ==> levels[i] != levels[j]
  {
    forall i, j | 0 <= i < j < |levels| ensures levels[i] != levels[j] {
      assert LevelAt(levels[i], s, l[i], st) && LevelAt(levels[j], s, l[j], st);
      assert Better(s, l[i].price, l[j].price);
    }
  }

  lemma SidesApart(s: Side, levels: seq<Level>, l: seq<PriceLevel>, levels2: seq<Level>, l2: seq<PriceLevel>, st: Store, i: nat)
    requires s.Buy? || s.Sell?
    requires SideAt(levels, s, l, st) && SideAt(levels2, Opposite(s), l2, st)
    requires i < |levels| && l[i].queue != []
    ensures forall j :: 0 <= j < |levels2| ==> levels2[j] != levels[i]
  {
    assert LevelAt(levels[i], s, l[i], st);
    assert OrderAt(st.queues[levels[i]][0], s, l[i].queue[0], st);
    forall j | 0 <= j < |levels2| ensures levels2[j] != levels[i] {
      assert LevelAt(levels2[j], Opposite(s), l2[j], st);
      assert l2[j].queue != [] ==> OrderAt(st.queues[levels2[j]][0], Opposite(s), l2[j].queue[0], st);
    }
  }

  /** The store after the front order of `best` traded q. */
  ghost function Traded(st: Store, best: Level, q: int): Store
    requires best in st.queues && st.queues[best] != [] && st.queues[best][0] in st.qtys
  {
    var maker := st.queues[best][0];
    var left := st.qtys[maker] - q;
    if left == 0 then
      Store(st.queues[best := st.queues[best][1..]], st.qtys[maker := left], st.byID - {maker.id})
    else
      st.(qtys := st.qtys[maker := left])
  }

  lemma FrontOrder(s: Side, levels: seq<Level>, l: seq<PriceLevel>, st: Store)
    requires SideAt(levels, s, l, st) && Shape(s, l) && l != [] && l[0].queue != []
    ensures levels[0] in st.queues && |st.queues[levels[0]]| == |l[0].queue|
    ensures OrderAt(st.queues[levels[0]][0], s, l[0].queue[0], st) && l[0].queue[0].qty > 0
    ensures l[0].queue[0].price == l[0].price == levels[0].price
  {
    assert LevelAt(levels[0], s, l[0], st);
    assert LevelOk(l[0]);
  }

  /** Behind the front order its id does not occur again. */
  lemma BehindFront(l: seq<PriceLevel>)
    requires l != [] && l[0].queue != [] && DistinctIds(Flatten(l))
    ensures forall j :: 1 <= j < |l[0].queue| ==> l[0].queue[j].id != l[0].queue[0].id
    ensures l[0].queue[0].id !in Ids(Flatten(l[1..]))
  {
    var all := Flatten(l);
    assert forall j :: 0 <= j < |l[0].queue| ==> all[j] == l[0].queue[j];
    forall x | x in Flatten(l[1..]) ensures x.id != l[0].queue[0].id {
      var k :| 0 <= k < |Flatten(l[1..])| && Flatten(l[1..])[k] == x;
      assert all[|l[0].queue| + k] == x;
    }
  }

  lemma TradedFront(s: Side, levels: seq<Level>, l: seq<PriceLevel>, st: Store, q: int)
    requires SideAt(levels, s, l, st) && Shape(s, l) && DistinctIds(Flatten(l)) && l != [] && l[0].queue != []
    requires levels[0] in st.queues && st.queues[levels[0]] != [] && st.queues[levels[0]][0] in st.qtys
    ensures LevelAt(levels[0], s, HitHead(l, q)[0], Traded(st, levels[0], q))
  {
    FrontOrder(s, levels, l, st);
    BehindFront(l);
    var st2 := Traded(st, levels[0], q);
    var queue, es, es2 := st.queues[levels[0]], l[0].queue, HitHead(l, q)[0].queue;
    assert QueueAt(queue, s, es, st);
    assert QueueAt(queue[1..], s, es[1..], st);
    QueueKept(queue[1..], s, es[1..], es[0].id, st, st2);
    if q != es[0].qty {
      assert OrderAt(queue[0], s, es2[0], st2);
      forall j | 0 <= j < |queue| ensures OrderAt(queue[j], s, es2[j], st2) {
        assert j > 0 ==> OrderAt(queue[1..][j - 1], s, es[1..][j - 1], st2);
      }
    }
  }

  lemma TradedSide(s: Side, levels: seq<Level>, l: seq<PriceLevel>, st: Store, q: int)
    requires SideAt(levels, s, l, st) && Shape(s, l) && DistinctIds(Flatten(l)) && l != [] && l[0].queue != []
    requires levels[0] in st.queues && st.queues[levels[0]] != [] && st.queues[levels[0]][0] in st.qtys
    ensures SideAt(levels, s, HitHead(l, q), Traded(st, levels[0], q))
  {
    FrontOrder(s, levels, l, st);
    LevelsApart(levels, s, l, st);
    BehindFront(l);
    var st2 := Traded(st, levels[0], q);
    TradedFront(s, levels, l, st, q);
    assert SideAt(levels[1..], s, l[1..], st) by {
      assert forall i :: 1 <= i < |levels| ==> LevelAt(levels[i], s, l[i], st);
    }
    SideKept(levels[1..], s, l[1..], l[0].queue[0].id, st, st2);
    forall i | 0 <= i < |levels| ensures LevelAt(levels[i], s, HitHead(l, q)[i], st2) {
      assert i > 0 ==> LevelAt(levels[1..][i - 1], s, l[1..][i - 1], st2);
    }
  }

  lemma FrontLinked(s: Side, levels: seq<Level>, l: seq<PriceLevel>, levels2: seq<Level>, l2: seq<PriceLevel>, st: Store)
    requires Linked(s, levels, l, levels2, l2, st) && l != [] && l[0].queue != []
    ensures |levels| > 0 && levels[0] in st.queues && st.queues[levels[0]] != []
    ensures OrderAt(st.queues[levels[0]][0], s, l[0].queue[0], st) && l[0].queue[0].qty > 0
  {
    FrontOrder(s, levels, l, st);
  }

  lemma TradedLinked(s: Side, levels: seq<Level>, l: seq<PriceLevel>, levels2: seq<Level>, l2: seq<PriceLevel>, st: Store, q: int)
    requires s.Buy? || s.Sell?
    requires Linked(s, levels, l, levels2, l2, st) && l != [] && l[0].queue != [] && 0 < q <= l[0].queue[0].qty
    requires levels[0] in st.queues && st.queues[levels[0]] != [] && st.queues[levels[0]][0] in st.qtys
    ensures Linked(s, levels, HitHead(l, q), levels2, l2, Traded(st, levels[0], q))
  {
    hide SideAt, Shape, Flatten, Ids, DistinctIds;
    FrontOrder(s, levels, l, st);
    HitHeadFlat(l, q);
    HitHeadShape(s, l, q);
    HitFirstIds(Flatten(l), q);
    TradedSide(s, levels, l, st, q);
    var e := l[0].queue[0];
    InIds(Flatten(l), e);
    SidesApart(s, levels, l, levels2, l2, st, 0);
    InQueues(levels2, Opposite(s), l2, st);
    var st2 := Traded(st, levels[0], q);
    SideKept(levels2, Opposite(s), l2, e.id, st, st2);
  }

  // ---------- resting and cancelling ----------

  lemma SideInsert(levels: seq<Level>, s: Side, l: seq<PriceLevel>, st: Store, i: nat, lv: Level, pl: PriceLevel)
    requires SideAt(levels, s, l, st) && i <= |l| && LevelAt(lv, s, pl, st)
    ensures SideAt(levels[..i] + [lv] + levels[i..], s, l[..i] + [pl] + l[i..], st)
  {
    assert forall k :: 0 <= k < |levels| ==> LevelAt(levels[k], s, l[k], st);
  }

  lemma SideDrop(levels: seq<Level>, s: Side, l: seq<PriceLevel>, st: Store, i: nat)
    requires SideAt(levels, s, l, st) && i < |l|
    ensures SideAt(levels[..i] + levels[i + 1..], s, l[..i] + l[i + 1..], st)
  {
    assert forall k :: 0 <= k < |levels| ==> LevelAt(levels[k], s, l[k], st);
  }

  lemma InQueues(levels: seq<Level>, s: Side, l: seq<PriceLevel>, st: Store)
    requires SideAt(levels, s, l, st)
    ensures |levels| == |l|
    ensures forall i :: 0 <= i < |levels| ==> levels[i] in st.queues && |st.queues[levels[i]]| == |l[i].queue|
  {
    assert forall i :: 0 <= i < |levels| ==> LevelAt(levels[i], s, l[i], st);
  }

  lemma IdsOfParts(l: seq<PriceLevel>, i: nat, k: nat)
    requires i <= k <= |l|
    ensures Ids(Flatten(l[..i])) <= Ids(Flatten(l)) && Ids(Flatten(l[k..])) <= Ids(Flatten(l))
  {
    assert l == l[..i] + l[i..] && l == l[..k] + l[k..];
    FlattenConcat(l[..i], l[i..]);
    FlattenConcat(l[..k], l[k..]);
  }

  /** The store after the new order r joined the queue of lv, new or not. */
  ghost function Rested(st: Store, lv: Level, queue: seq<RestingOrder>, r: RestingOrder, e: Entry): Store {
    Store(st.queues[lv := queue], st.qtys[r := e.qty], st.byID[e.id := r])
  }

  ghost predicate Stands(r: RestingOrder, s: Side, e: Entry) {
    r.id == e.id && r.side == s && r.price == e.price
  }

  /** What resting keeps of both sides, whichever way the order enters its own side. */
  lemma RestedLinked(s: Side, levels: seq<Level>, l: seq<PriceLevel>, levels2: seq<Level>, l2: seq<PriceLevel>,
                     st: Store, levels': seq<Level>, l': seq<PriceLevel>, st2: Store, e: Entry)
    requires Linked(s, levels, l, levels2, l2, st) && ListOk(s, Flatten(l)) && e.id !in st.byID && e.qty > 0 && e.price > 0
    requires SideAt(levels', s, l', st2) && Shape(s, l') && Flatten(l') == Insert(Flatten(l), s, e)
    requires OnlyTouched(e.id, st, st2) && st2.byID.Keys == st.byID.Keys + {e.id}
    requires forall j :: 0 <= j < |levels2| ==>
               levels2[j] in st.queues && levels2[j] in st2.queues && st2.queues[levels2[j]] == st.queues[levels2[j]]
    ensures Linked(s, levels', l', levels2, l2, st2)
  {
    hide SideAt, Shape, Flatten, Insert, Ids, OnlyTouched;
    InsertOk(Flatten(l), s, e);
    hide ListOk, DistinctIds;
    assert DistinctIds(Insert(Flatten(l), s, e)) by { DistinctOf(s, Insert(Flatten(l), s, e)); }
    SideKept(levels2, Opposite(s), l2, e.id, st, st2);
  }

  lemma JoinedLevel(lv: Level, s: Side, pl: PriceLevel, st: Store, r: RestingOrder, e: Entry)
    requires LevelAt(lv, s, pl, st) && Stands(r, s, e) && pl.price == e.price && e.id !in st.byID
    requires forall j :: 0 <= j < |pl.queue| ==> pl.queue[j].id != e.id
    ensures LevelAt(lv, s, PriceLevel(e.price, pl.queue + [e]), Rested(st, lv, st.queues[lv] + [r], r, e))
  {
    var st2 := Rested(st, lv, st.queues[lv] + [r], r, e);
    QueueKept(st.queues[lv], s, pl.queue, e.id, st, st2);
    assert OrderAt(r, s, e, st2);
  }

  /** Level i alone got a new queue: every other level stands as before. */
  lemma ChangedAt(levels: seq<Level>, s: Side, l: seq<PriceLevel>, i: nat, lv: PriceLevel, id0: string, st: Store, st2: Store)
    requires SideAt(levels, s, l, st) && Shape(s, l) && i < |l| && OnlyTouched(id0, st, st2)
    requires id0 !in Ids(Flatten(l[..i])) && id0 !in Ids(Flatten(l[i + 1..]))
    requires LevelAt(levels[i], s, lv, st2) && st2.queues == st.queues[levels[i] := st2.queues[levels[i]]]
    ensures SideAt(levels, s, l[i := lv], st2)
  {
    LevelsApart(levels, s, l, st);
    forall k | 0 <= k < |levels| && k != i ensures LevelAt(levels[k], s, l[k], st2) {
      assert LevelAt(levels[k], s, l[k], st);
      if k < i {
        QueueAvoids(l[..i], k, id0);
      } else {
        QueueAvoids(l[i + 1..], k - i - 1, id0);
      }
      QueueKept(st.queues[levels[k]], s, l[k].queue, id0, st, st2);
    }
  }

  lemma JoinedSide(levels: seq<Level>, s: Side, l: seq<PriceLevel>, st: Store, i: nat, r: RestingOrder, e: Entry)
    requires SideAt(levels, s, l, st) && Shape(s, l) && e.id !in Ids(Flatten(l)) && Stands(r, s, e)
    requires i < |l| && l[i].price == e.price && levels[i] in st.queues && e.id !in st.byID
    ensures SideAt(levels, s, l[i := PriceLevel(e.price, l[i].queue + [e])], Rested(st, levels[i], st.queues[levels[i]] + [r], r, e))
  {
    assert LevelAt(levels[i], s, l[i], st);
    QueueAvoids(l, i, e.id);
    JoinedLevel(levels[i], s, l[i], st, r, e);
    IdsOfParts(l, i, i + 1);
    ChangedAt(levels, s, l, i, PriceLevel(e.price, l[i].queue + [e]), e.id, st,
              Rested(st, levels[i], st.queues[levels[i]] + [r], r, e));
  }

  lemma JoinedLinked(s: Side, levels: seq<Level>, l: seq<PriceLevel>, levels2: seq<Level>, l2: seq<PriceLevel>,
                     st: Store, i: nat, r: RestingOrder, e: Entry)
    requires s.Buy? || s.Sell?
    requires Linked(s, levels, l, levels2, l2, st) && ListOk(s, Flatten(l)) && Full(l)
    requires e.id !in st.byID && e.qty > 0 && e.price > 0 && Stands(r, s, e)
    requires i < |l| && l[i].price == e.price && levels[i] in st.queues
    ensures var l' := l[i := PriceLevel(e.price, l[i].queue + [e])];
            && Linked(s, levels, l', levels2, l2, Rested(st, levels[i], st.queues[levels[i]] + [r], r, e))
            && Full(l') && Flatten(l') == Insert(Flatten(l), s, e)
  {
    hide SideAt, Shape, Flatten, Insert, Ids, DistinctIds, ListOk;
    InQueues(levels, s, l, st);
    var l' := l[i := PriceLevel(e.price, l[i].queue + [e])];
    JoinLevel(s, l, i, e);
    JoinedSide(levels, s, l, st, i, r, e);
    SidesApart(s, levels, l, levels2, l2, st, i);
    InQueues(levels2, Opposite(s), l2, st);
    RestedLinked(s, levels, l, levels2, l2, st, levels, l', Rested(st, levels[i], st.queues[levels[i]] + [r], r, e), e);
  }

  lemma OpenedSide(levels: seq<Level>, s: Side, l: seq<PriceLevel>, st: Store, i: nat, lv: Level, r: RestingOrder, e: Entry)
    requires SideAt(levels, s, l, st) && e.id !in Ids(Flatten(l)) && Stands(r, s, e) && e.id !in st.byID
    requires lv !in st.queues && lv.price == e.price && i <= |l|
    ensures SideAt(levels[..i] + [lv] + levels[i..], s, l[..i] + [PriceLevel(e.price, [e])] + l[i..], Rested(st, lv, [r], r, e))
  {
    var st2 := Rested(st, lv, [r], r, e);
    var pl := PriceLevel(e.price, [e]);
    assert OrderAt(r, s, e, st2);
    assert LevelAt(lv, s, pl, st2);
    InQueues(levels, s, l, st);
    SideKept(levels, s, l, e.id, st, st2);
    SideInsert(levels, s, l, st2, i, lv, pl);
  }

  lemma OpenedLinked(s: Side, levels: seq<Level>, l: seq<PriceLevel>, levels2: seq<Level>, l2: seq<PriceLevel>,
                     st: Store, i: nat, lv: Level, r: RestingOrder, e: Entry)
    requires s.Buy? || s.Sell?
    requires Linked(s, levels, l, levels2, l2, st) && ListOk(s, Flatten(l)) && Full(l)
    requires e.id !in st.byID && e.qty > 0 && e.price > 0 && Stands(r, s, e)
    requires lv !in st.queues && lv.price == e.price && i <= |l|
    requires forall k :: 0 <= k < i ==> Better(s, l[k].price, e.price)
    requires forall k :: i <= k < |l| ==> Better(s, e.price, l[k].price)
    ensures var l' := l[..i] + [PriceLevel(e.price, [e])] + l[i..];
            && Linked(s, levels[..i] + [lv] + levels[i..], l', levels2, l2, Rested(st, lv, [r], r, e))
            && Full(l') && Flatten(l') == Insert(Flatten(l), s, e)
  {
    hide SideAt, Shape, Flatten, Insert, Ids, DistinctIds, ListOk;
    InQueues(levels, s, l, st);
    OpenLevel(s, l, i, e);
    OpenedSide(levels, s, l, st, i, lv, r, e);
    InQueues(levels2, Opposite(s), l2, st);
    RestedLinked(s, levels, l, levels2, l2, st, levels[..i] + [lv] + levels[i..],
                 l[..i] + [PriceLevel(e.price, [e])] + l[i..], Rested(st, lv, [r], r, e), e);
  }

  /** The level without its order j, dropped when that empties it. */
  ghost function Departed(st: Store, lv: Level, j: nat, id: string): Store
    requires lv in st.queues && j < |st.queues[lv]|
  {
    Store(st.queues[lv := st.queues[lv][..j] + st.queues[lv][j + 1..]], st.qtys, st.byID - {id})
  }

  function LevelsWithout(levels: seq<Level>, i: nat, last: bool): seq<Level>
    requires i < |levels|
  {
    if last then levels[..i] + levels[i + 1..] else levels
  }

  lemma LeftLevel(lv: Level, s: Side, pl: PriceLevel, st: Store, j: nat)
    requires LevelAt(lv, s, pl, st) && j < |pl.queue|
    requires forall k :: 0 <= k < |pl.queue| && k != j ==> pl.queue[k].id != pl.queue[j].id
    ensures LevelAt(lv, s, PriceLevel(pl.price, pl.queue[..j] + pl.queue[j + 1..]), Departed(st, lv, j, pl.queue[j].id))
  {
    var es, q := pl.queue, st.queues[lv];
    assert QueueAt(q[..j] + q[j + 1..], s, es[..j] + es[j + 1..], st) by {
      assert QueueAt(q, s, es, st);
    }
    QueueKept(q[..j] + q[j + 1..], s, es[..j] + es[j + 1..], es[j].id, st, Departed(st, lv, j, es[j].id));
  }

  lemma LeftSide(levels: seq<Level>, s: Side, l: seq<PriceLevel>, st: Store, i: nat, j: nat)
    requires SideAt(levels, s, l, st) && Shape(s, l) && DistinctIds(Flatten(l))
    requires i < |l| && j < |l[i].queue| && levels[i] in st.queues && |st.queues[levels[i]]| == |l[i].queue|
    ensures SideAt(LevelsWithout(levels, i, |l[i].queue| == 1), s, WithoutEntry(l, i, j),
                   Departed(st, levels[i], j, l[i].queue[j].id))
  {
    var id := l[i].queue[j].id;
    var st2 := Departed(st, levels[i], j, id);
    var lv := PriceLevel(l[i].price, l[i].queue[..j] + l[i].queue[j + 1..]);
    OnlyOnce(l, i, j);
    assert LevelAt(levels[i], s, l[i], st);
    LeftLevel(levels[i], s, l[i], st, j);
    ChangedAt(levels, s, l, i, lv, id, st, st2);
    if |l[i].queue| == 1 {
      SideDrop(levels, s, l[i := lv], st2, i);
      assert l[i := lv][..i] == l[..i] && l[i := lv][i + 1..] == l[i + 1..];
    }
  }

  lemma LeftLinked(s: Side, levels: seq<Level>, l: seq<PriceLevel>, levels2: seq<Level>, l2: seq<PriceLevel>,
                   st: Store, i: nat, j: nat)
    requires s.Buy? || s.Sell?
    requires Linked(s, levels, l, levels2, l2, st) && ListOk(s, Flatten(l)) && Full(l)
    requires i < |l| && j < |l[i].queue| && levels[i] in st.queues && |st.queues[levels[i]]| == |l[i].queue|
    ensures var l' := WithoutEntry(l, i, j);
            var id := l[i].queue[j].id;
            && Linked(s, LevelsWithout(levels, i, |l[i].queue| == 1), l', levels2, l2, Departed(st, levels[i], j, id))
            && Full(l') && Flatten(l') == Remove(Flatten(l), id)
  {
    hide SideAt, Shape, Flatten, Remove, Ids, DistinctIds, ListOk, WithoutEntry;
    InQueues(levels, s, l, st);
    var e := l[i].queue[j];
    DistinctOf(s, Flatten(l));
    LeaveLevel(s, l, i, j);
    LeftSide(levels, s, l, st, i, j);
    QueueWithin(l, i, e);
    InIds(Flatten(l), e);
    RemoveOk(Flatten(l), s, e.id);
    DistinctOf(s, Remove(Flatten(l), e.id));
    SidesApart(s, levels, l, levels2, l2, st, i);
    InQueues(levels2, Opposite(s), l2, st);
    SideKept(levels2, Opposite(s), l2, e.id, st, Departed(st, levels[i], j, e.id));
  }

  /** Where the index says an order is, it is: one level has its price, one place in that queue its id. */
  lemma Locate(s: Side, levels: seq<Level>, l: seq<PriceLevel>, levels2: seq<Level>, l2: seq<PriceLevel>, st: Store, id: string)
    returns (i: nat, j: nat)
    requires Linked(s, levels, l, levels2, l2, st) && id in Ids(Flatten(l))
    ensures |levels| == |l| && i < |levels| && levels[i] in st.queues && id in st.byID
    ensures |st.queues[levels[i]]| == |l[i].queue| && j < |l[i].queue| && l[i].queue[j].id == id
    ensures id !in Ids(Flatten(l2))
    ensures st.byID[id].id == id && st.byID[id].side == s && st.byID[id].price == levels[i].price
    ensures forall k :: 0 <= k < |levels| && levels[k].price == levels[i].price ==> k == i
    ensures forall k :: 0 <= k < |l[i].queue| ==> (st.queues[levels[i]][k].id == id <==> k == j)
  {
    var e :| e in Flatten(l) && e.id == id;
    i := EntryPrice(s, l, e);
    j :| 0 <= j < |l[i].queue| && l[i].queue[j] == e;
    InQueues(levels, s, l, st);
    assert LevelAt(levels[i], s, l[i], st);
    assert forall k :: 0 <= k < |l[i].queue| ==> OrderAt(st.queues[levels[i]][k], s, l[i].queue[k], st);
    OnlyOnce(l, i, j);
    LinkedPrices(s, levels, l, levels2, l2, st);
    assert forall k :: 0 <= k < i ==> Better(s, l[k].price, l[i].price);
    assert forall k :: i < k < |l| ==> Better(s, l[i].price, l[k].price);
  }

  lemma LinkedPrices(s: Side, levels: seq<Level>, l: seq<PriceLevel>, levels2: seq<Level>, l2: seq<PriceLevel>, st: Store)
    requires Linked(s, levels, l, levels2, l2, st)
    ensures |levels| == |l| && forall k :: 0 <= k < |l| ==> levels[k] in st.queues && levels[k].price == l[k].price
    ensures forall i, j :: 0 <= i < j < |l| ==> Better(s, l[i].price, l[j].price)
  {
    assert forall k :: 0 <= k < |levels| ==> LevelAt(levels[k], s, l[k], st);
  }

  lemma DroppedLinked(s: Side, levels: seq<Level>, l: seq<PriceLevel>, levels2: seq<Level>, l2: seq<PriceLevel>, st: Store)
    requires Linked(s, levels, l, levels2, l2, st) && l != [] && l[0].queue == []
    ensures |levels| > 0 && Linked(s, levels[1..], l[1..], levels2, l2, st) && Flatten(l[1..]) == Flatten(l)
  {
    hide SideAt, Ids, DistinctIds;
    InQueues(levels, s, l, st);
    assert Flatten(l) == Flatten(l[1..]);
    SideDrop(levels, s, l, st, 0);
    assert levels[..0] + levels[1..] == levels[1..] && l[..0] + l[1..] == l[1..];
    SubShape(s, l, 1);
  }

  /** Either side may be looked at first. */
  lemma LinkedSwap(s: Side, levels: seq<Level>, l: seq<PriceLevel>, levels2: seq<Level>, l2: seq<PriceLevel>, st: Store)
    requires (s.Buy? || s.Sell?) && Linked(s, levels, l, levels2, l2, st)
    ensures Linked(Opposite(s), levels2, l2, levels, l, st)
  {
  }

  // ---------- the book ----------

  class Book {
    var bids: seq<Level> // descending by price
    var asks: seq<Level> // ascending by price
    var byID: map<string, RestingOrder>
    var seqNo: int

    // What the sides hold as values, and what the owned objects hold.
    ghost var bidsV: seq<PriceLevel>
    ghost var asksV: seq<PriceLevel>
    ghost var store: Store
    ghost var Repr: set<object>

    /** The objects hold what the store says. */
    ghost predicate Mirrored()
      reads this, Repr
    {
      && this in Repr
      && store.byID == byID
      && (forall lv :: lv in store.queues ==> lv in Repr && lv.queue == store.queues[lv])
      && (forall r :: r in store.qtys ==> r in Repr && r.qty == store.qtys[r])
    }

    ghost function Levels(s: Side): seq<Level>
      reads this
    {
      if s.Buy? then bids else asks
    }

    ghost function LadderOf(s: Side): seq<PriceLevel>
      reads this
    {
      if s.Buy? then bidsV else asksV
    }

    /** The objects make up the two ladders, seen from side s. */
    ghost predicate LinkedFrom(s: Side)
      reads this, Repr
    {
      Mirrored() && Linked(s, Levels(s), LadderOf(s), Levels(Opposite(s)), LadderOf(Opposite(s)), store)
    }

    ghost predicate Valid()
      reads this, Repr
    {
      LinkedFrom(Buy) && Full(bidsV) && Full(asksV) && Inv(Abs())
    }

    /** The two priority lists the book stands for. */
    ghost function Abs(): State
      reads this
    {
      State(Flatten(bidsV), Flatten(asksV), seqNo)
    }

    constructor ()
      ensures Valid() && fresh(Repr) && Abs() == Empty
    {
      bids, asks, byID, seqNo := [], [], map[], 0;
      bidsV, asksV, store := [], [], Store(map[], map[], map[]);
      Repr := {this};
    }

    method Next() returns (n: int)
      requires Valid()
      modifies this`seqNo
      ensures Valid() && n == old(seqNo) + 1 && Abs() == old(Abs()).(seqNo := n)
    {
      seqNo := seqNo + 1;
      n := seqNo;
    }

    ghost method SetLadder(s: Side, l: seq<PriceLevel>)
      requires (s.Buy? || s.Sell?) && Mirrored()
      modifies this`bidsV, this`asksV
      ensures Mirrored() && LadderOf(s) == l && LadderOf(Opposite(s)) == old(LadderOf(Opposite(s)))
    {
      if s.Buy? { bidsV := l; } else { asksV := l; }
    }

    /** Take q off the front order of `best`, and the order off the book once it is used up. */
    method Reduce(best: Level, maker: RestingOrder, q: int)
      requires Mirrored() && best in store.queues && best.queue != [] && best.queue[0] == maker && maker in store.qtys
      modifies maker, best, this`byID, this`store
      ensures Mirrored() && store == Traded(old(store), best, q)
    {
      store := Traded(store, best, q);
      maker.qty := maker.qty - q;
      if maker.qty == 0 {
        best.queue := best.queue[1..];
        byID := byID - {maker.id};
      }
    }

    /** One pass of the inner matching loop: trade with the front order of the best level. */
    method TradeFront(best: Level, remaining: int, ghost s: Side) returns (fill: Fill)
      requires (s.Buy? || s.Sell?) && LinkedFrom(s) && remaining > 0
      requires LadderOf(s) != [] && LadderOf(s)[0].queue != []
      requires best == Levels(s)[0]
      modifies Repr
      ensures LinkedFrom(s) && Repr == old(Repr) && seqNo == old(seqNo) && bids == old(bids) && asks == old(asks)
      ensures var e := old(LadderOf(s))[0].queue[0];
              var q := Min(remaining, e.qty);
              && e.qty > 0
              && fill == Fill(e.price, q, e.id)
              && LadderOf(s) == HitHead(old(LadderOf(s)), q)
              && LadderOf(Opposite(s)) == old(LadderOf(Opposite(s)))
    {
      hide Linked, HitHead, Traded;
      ghost var l, levels := LadderOf(s), Levels(s);
      ghost var l2, levels2 := LadderOf(Opposite(s)), Levels(Opposite(s));
      FrontLinked(s, levels, l, levels2, l2, store);
      var maker := best.queue[0];
      var q := Min(remaining, maker.qty);
      assert Linked(s, levels, HitHead(l, q), levels2, l2, Traded(store, best, q)) by {
        TradedLinked(s, levels, l, levels2, l2, store, q);
      }
      fill := Fill(maker.price, q, maker.id);
      Reduce(best, maker, q);
      SetLadder(s, HitHead(l, q));
    }

    /** The inner matching loop: trade with the best level until it or the order is used up. */
    method SweepLevel(best: Level, o: Order, fills0: seq<Fill>, remaining0: int, ghost s: Side)
      returns (fills: seq<Fill>, remaining: int)
      requires s.Buy? || s.Sell?
      requires LinkedFrom(s) && remaining0 > 0
      requires LadderOf(s) != [] && best == Levels(s)[0] && LadderOf(s)[0].queue != [] && Accepts(o, best.price)
      modifies Repr
      ensures LinkedFrom(s) && Repr == old(Repr) && seqNo == old(seqNo) && bids == old(bids) && asks == old(asks)
      ensures LadderOf(Opposite(s)) == old(LadderOf(Opposite(s)))
      ensures |LadderOf(s)| == |old(LadderOf(s))| && LadderOf(s)[1..] == old(LadderOf(s))[1..]
      ensures 0 <= remaining < remaining0 && (remaining > 0 ==> LadderOf(s)[0].queue == [])
      ensures |best.queue| == |LadderOf(s)[0].queue|
      ensures SameMatch(Match(Flatten(old(LadderOf(s))), o, remaining0), fills0,
                        Match(Flatten(LadderOf(s)), o, remaining), fills)
    {
      hide Linked;
      fills, remaining := fills0, remaining0;
      HeadLevel(s);
      while remaining > 0 && |best.queue| > 0
        invariant LinkedFrom(s) && Repr == old(Repr) && seqNo == old(seqNo) && bids == old(bids) && asks == old(asks)
        invariant LadderOf(Opposite(s)) == old(LadderOf(Opposite(s)))
        invariant |LadderOf(s)| == |old(LadderOf(s))| && LadderOf(s)[1..] == old(LadderOf(s))[1..]
        invariant 0 <= remaining <= remaining0 && |best.queue| == |LadderOf(s)[0].queue|
        invariant remaining == remaining0 ==> best.queue != []
        invariant SameMatch(Match(Flatten(old(LadderOf(s))), o, remaining0), fills0,
                            Match(Flatten(LadderOf(s)), o, remaining), fills)
        decreases remaining
      {
        ghost var l := LadderOf(s);
        HeadLevel(s);
        var fill := TradeFront(best, remaining, s);
        HeadLevel(s);
        TradeExtends(s, l, o, remaining, fills, fill);
        fills := fills + [fill];
        remaining := remaining - fill.qty;
      }
    }

    /** The outer matching loop: one level after the other while the price is acceptable. */
    method Trade(o: Order, ghost s: Side) returns (fills: seq<Fill>, remaining: int)
      requires WellFormed(o) && s == Opposite(o.side) && LinkedFrom(s) && Full(LadderOf(s))
      modifies Repr
      ensures LinkedFrom(s) && Full(LadderOf(s)) && Repr == old(Repr) && seqNo == old(seqNo)
      ensures LadderOf(Opposite(s)) == old(LadderOf(Opposite(s)))
      ensures Match(old(Flatten(LadderOf(s))), o, o.qty) == MatchResult(fills, Flatten(LadderOf(s)), remaining)
    {
      hide Linked, Match, Flatten;
      fills, remaining := [], o.qty;
      var opp := asks;
      if o.side.Sell? {
        opp := bids;
      }
      SameLength(s);
      while remaining > 0 && |opp| > 0
        invariant opp == Levels(s) && |opp| == |LadderOf(s)|
        invariant LinkedFrom(s) && Full(LadderOf(s)) && Repr == old(Repr) && seqNo == old(seqNo)
        invariant LadderOf(Opposite(s)) == old(LadderOf(Opposite(s))) && remaining >= 0
        invariant SameMatch(old(Match(Flatten(LadderOf(s)), o, o.qty)), [],
                            Match(Flatten(LadderOf(s)), o, remaining), fills)
        decreases |opp|, remaining
      {
        var best := opp[0];
        HeadLevel(s);
        if o.typ.Limit? {
          if o.side.Buy? && best.price > o.price {
            break;
          }
          if o.side.Sell? && best.price < o.price {
            break;
          }
        }
        fills, remaining := SweepLevel(best, o, fills, remaining, s);
        if |best.queue| == 0 {
          DropBest(o.side);
          opp := opp[1..];
        }
      }
      if remaining > 0 && |opp| > 0 {
        HeadLevel(s);
      }
      MatchStops(LadderOf(s), o, remaining);
      ghost var m := old(Match(Flatten(LadderOf(s)), o, o.qty));
      assert [] + m.fills == m.fills && fills + [] == fills;
    }

    /** The best level, used up, leaves the opposite side. */
    method DropBest(taker: Side)
      requires taker.Buy? || taker.Sell?
      requires LinkedFrom(Opposite(taker)) && LadderOf(Opposite(taker)) != [] && LadderOf(Opposite(taker))[0].queue == []
      modifies this`bids, this`asks, this`bidsV, this`asksV
      ensures LinkedFrom(Opposite(taker))
      ensures |old(Levels(Opposite(taker)))| > 0 && Levels(Opposite(taker)) == old(Levels(Opposite(taker)))[1..]
      ensures LadderOf(Opposite(taker)) == old(LadderOf(Opposite(taker)))[1..]
      ensures Flatten(LadderOf(Opposite(taker))) == old(Flatten(LadderOf(Opposite(taker))))
      ensures LadderOf(Opposite(Opposite(taker))) == old(LadderOf(Opposite(Opposite(taker))))
    {
      hide Linked;
      ghost var s := Opposite(taker);
      DroppedLinked(s, Levels(s), LadderOf(s), Levels(Opposite(s)), LadderOf(Opposite(s)), store);
      if taker.Sell? {
        bids, bidsV := bids[1..], bidsV[1..];
      } else {
        asks, asksV := asks[1..], asksV[1..];
      }
    }

    /** Put a remainder behind every order that is not strictly worse: at the end of
        its price level, or in a level of its own. */
    method Rest(r: RestingOrder)
      requires (r.side.Buy? || r.side.Sell?) && LinkedFrom(r.side) && Full(LadderOf(r.side))
      requires ListOk(r.side, Flatten(LadderOf(r.side)))
      requires r !in Repr && r.id !in byID && r.qty > 0 && r.price > 0
      modifies Repr
      ensures LinkedFrom(r.side) && Full(LadderOf(r.side)) && fresh(Repr - old(Repr) - {r}) && seqNo == old(seqNo)
      ensures old(Repr) <= Repr
      ensures Flatten(LadderOf(r.side)) == Insert(old(Flatten(LadderOf(r.side))), r.side, Entry(r.id, r.price, r.qty))
      ensures LadderOf(Opposite(r.side)) == old(LadderOf(Opposite(r.side)))
    {
      hide Linked, Flatten, Insert, ListOk, Rested, Full;
      ghost var s, l, levels := r.side, LadderOf(r.side), Levels(r.side);
      ghost var l2, levels2 := LadderOf(Opposite(r.side)), Levels(Opposite(r.side));
      ghost var e := Entry(r.id, r.price, r.qty);
      LinkedPrices(s, levels, l, levels2, l2, store);
      var side := asks;
      if r.side.Buy? {
        side := bids;
      }
      var i := 0;
      while i < |side|
        invariant 0 <= i <= |side|
        invariant forall k :: 0 <= k < i ==> Better(s, side[k].price, r.price)
      {
        var lv := side[i];
        if lv.price == r.price {
          JoinedLinked(s, levels, l, levels2, l2, store, i, r, e);
          Enqueue(lv, r);
          SetLadder(s, l[i := PriceLevel(e.price, l[i].queue + [e])]);
          return;
        }
        if r.side.Buy? && lv.price < r.price {
          break;
        }
        if r.side.Sell? && lv.price > r.price {
          break;
        }
        i := i + 1;
      }
      assert i < |side| ==> Better(s, r.price, l[i].price);
      ghost var st := store;
      var lv := OpenAt(i, r);
      OpenedLinked(s, levels, l, levels2, l2, st, i, lv, r, e);
      SetLadder(s, l[..i] + [PriceLevel(e.price, [e])] + l[i..]);
    }

    /** Splice a new level holding just r into its side at position i, and r into the index. */
    method OpenAt(i: nat, r: RestingOrder) returns (lv: Level)
      requires (r.side.Buy? || r.side.Sell?) && Mirrored() && r !in Repr && i <= |Levels(r.side)|
      modifies this`bids, this`asks, this`byID, this`store, this`Repr
      ensures Mirrored() && fresh(lv) && lv.price == r.price && Repr == old(Repr) + {lv, r}
      ensures lv !in old(store).queues
      ensures store == Rested(old(store), lv, [r], r, Entry(r.id, r.price, r.qty))
      ensures Levels(r.side) == old(Levels(r.side))[..i] + [lv] + old(Levels(r.side))[i..]
      ensures Levels(Opposite(r.side)) == old(Levels(Opposite(r.side)))
    {
      lv := new Level(r.price, [r]);
      if r.side.Buy? {
        bids := bids[..i] + [lv] + bids[i..];
      } else {
        asks := asks[..i] + [lv] + asks[i..];
      }
      byID := byID[r.id := r];
      store := Rested(store, lv, [r], r, Entry(r.id, r.price, r.qty));
      Repr := Repr + {lv, r};
    }

    /** Append the new order r to the queue of lv, and to the index. */
    method Enqueue(lv: Level, r: RestingOrder)
      requires Mirrored() && lv in store.queues && r !in Repr
      modifies lv, this`byID, this`store, this`Repr
      ensures Mirrored() && Repr == old(Repr) + {r}
      ensures store == Rested(old(store), lv, old(store).queues[lv] + [r], r, Entry(r.id, r.price, r.qty))
    {
      store := Rested(store, lv, store.queues[lv] + [r], r, Entry(r.id, r.price, r.qty));
      byID := byID[r.id := r];
      lv.queue := lv.queue + [r];
      Repr := Repr + {r};
    }

    /** Match an incoming order; a limit remainder rests, a market remainder is dropped. */
    method Submit(o: Order) returns (ack: Ack)
      requires Valid()
      modifies Repr
      ensures Valid() && fresh(Repr - old(Repr))
      ensures (Abs(), ack) == SubmitOrder(old(Abs()), o)
    {
      hide Linked, Flatten, Inv, Match, Insert, RestingIds;
      ghost var st := Abs();
      IndexExact();
      var n := Next();
      SubmitInv(st, o);
      if o.qty <= 0 || (o.side != Buy && o.side != Sell) || (o.typ != Limit && o.typ != Market)
         || (o.typ == Limit && o.price <= 0) {
        return Ack(o.id, n, Rejected, []);
      }
      if o.id in byID {
        return Ack(o.id, n, Rejected, []);
      }
      AfterMatchInv(st, o);
      From(Opposite(o.side));
      var fills, remaining := Trade(o, Opposite(o.side));
      From(Buy);
      assert Abs() == AfterMatch(st, o);
      if remaining == 0 {
        return Ack(o.id, n, Filled, fills);
      }
      if o.typ == Market {
        return Ack(o.id, n, if remaining < o.qty then Partial else Canceled, fills);
      }
      var r := new RestingOrder(o.id, o.side, o.price, remaining);
      From(o.side);
      IndexExact();
      ListOf(o.side);
      Rest(r);
      From(Buy);
      return Ack(o.id, n, if remaining < o.qty then Partial else Resting, fills);
    }

    /** Take a resting order off its queue, and its level off the side once that is empty. */
    method Cancel(id: string) returns (ack: Ack)
      requires Valid()
      modifies Repr
      ensures Valid() && fresh(Repr - old(Repr))
      ensures (Abs(), ack) == CancelOrder(old(Abs()), id)
    {
      hide Linked, Flatten, Inv, Ids, Remove, Full;
      ghost var st := Abs();
      IndexExact();
      var n := Next();
      CancelInv(st, id);
      if id !in byID {
        return Ack(id, n, Unknown, []);
      }
      var r := byID[id];
      ghost var i, j := Where(id);
      From(r.side);
      ListOf(r.side);
      Withdraw(r, i, j);
      From(Buy);
      return Ack(id, n, Canceled, []);
    }

    /** r is the j-th order of the i-th level of its side, and of no other place. */
    ghost predicate StandsAt(r: RestingOrder, i: nat, j: nat)
      reads this, Repr
    {
      && Mirrored() && (r.side.Buy? || r.side.Sell?) && r.id in byID && byID[r.id] == r
      && |Levels(r.side)| == |LadderOf(r.side)| && i < |Levels(r.side)|
      && var lv, pl := Levels(r.side)[i], LadderOf(r.side)[i];
         && lv in store.queues && |lv.queue| == |pl.queue| && j < |pl.queue| && pl.queue[j].id == r.id
         && lv.price == r.price
         && (forall k :: 0 <= k < |Levels(r.side)| && Levels(r.side)[k].price == r.price ==> k == i)
         && (forall k :: 0 <= k < |lv.queue| ==> (lv.queue[k].id == r.id <==> k == j))
    }

    method Withdraw(r: RestingOrder, ghost i: nat, ghost j: nat)
      requires (r.side.Buy? || r.side.Sell?) && LinkedFrom(r.side) && Full(LadderOf(r.side))
      requires ListOk(r.side, Flatten(LadderOf(r.side))) && StandsAt(r, i, j)
      modifies Repr
      ensures LinkedFrom(r.side) && Full(LadderOf(r.side)) && Repr == old(Repr) && seqNo == old(seqNo)
      ensures Flatten(LadderOf(r.side)) == Remove(old(Flatten(LadderOf(r.side))), r.id)
      ensures LadderOf(Opposite(r.side)) == old(LadderOf(Opposite(r.side)))
    {
      hide Linked, Flatten, ListOk, Remove, Full, WithoutEntry, Departed, LevelsWithout;
      ghost var s, l, levels := r.side, LadderOf(r.side), Levels(r.side);
      LeftLinked(s, levels, l, Levels(Opposite(s)), LadderOf(Opposite(s)), store, i, j);
      Unlink(r, i, j);
      SetLadder(s, WithoutEntry(l, i, j));
    }

    /** The search and the splices of a cancel. */
    method Unlink(r: RestingOrder, ghost i: nat, ghost j: nat)
      requires StandsAt(r, i, j)
      modifies Repr
      ensures Mirrored() && Repr == old(Repr) && seqNo == old(seqNo) && bidsV == old(bidsV) && asksV == old(asksV)
      ensures store == Departed(old(store), old(Levels(r.side))[i], j, r.id)
      ensures Levels(r.side) == LevelsWithout(old(Levels(r.side)), i, |old(LadderOf(r.side))[i].queue| == 1)
      ensures Levels(Opposite(r.side)) == old(Levels(Opposite(r.side)))
    {
      byID, store := byID - {r.id}, store.(byID := byID - {r.id});
      var side := asks;
      if r.side == Buy {
        side := bids;
      }
      var li := 0;
      while li < |side| && side[li].price != r.price
        invariant 0 <= li <= i
      {
        li := li + 1;
      }
      var lv := side[li];
      Unqueue(lv, r.id, j);
      if |lv.queue| == 0 {
        DropLevel(r.side, li);
      }
    }

    method DropLevel(s: Side, li: nat)
      requires (s.Buy? || s.Sell?) && Mirrored() && li < |Levels(s)|
      modifies this`bids, this`asks
      ensures Mirrored() && Levels(s) == old(Levels(s))[..li] + old(Levels(s))[li + 1..]
      ensures Levels(Opposite(s)) == old(Levels(Opposite(s)))
    {
      if s == Buy {
        bids := bids[..li] + bids[li + 1..];
      } else {
        asks := asks[..li] + asks[li + 1..];
      }
    }

    /** Take the order with this id, the j-th, out of the queue of lv. */
    method Unqueue(lv: Level, id: string, ghost j: nat)
      requires Mirrored() && lv in store.queues && j < |lv.queue|
      requires forall k :: 0 <= k < |lv.queue| ==> (lv.queue[k].id == id <==> k == j)
      modifies lv, this`store
      ensures Mirrored() && store == old(store).(queues := old(store).queues[lv := old(lv.queue)[..j] + old(lv.queue)[j + 1..]])
      ensures |lv.queue| == |old(lv.queue)| - 1
    {
      var qi := 0;
      while qi < |lv.queue| && lv.queue[qi].id != id
        invariant 0 <= qi <= j
      {
        qi := qi + 1;
      }
      lv.queue := lv.queue[..qi] + lv.queue[qi + 1..];
      store := store.(queues := store.queues[lv := lv.queue]);
    }

    /** The level and place of a resting order. */
    lemma Where(id: string) returns (i: nat, j: nat)
      requires Valid() && id in byID
      ensures byID[id].id == id && StandsAt(byID[id], i, j)
      ensures id in Ids(Flatten(LadderOf(byID[id].side))) && id !in Ids(Flatten(LadderOf(Opposite(byID[id].side))))
    {
      hide Linked, Flatten, Inv, Full;
      IndexExact();
      if id in Ids(Flatten(bidsV)) {
        i, j := Locate(Buy, bids, bidsV, asks, asksV, store, id);
      } else {
        From(Sell);
        i, j := Locate(Sell, asks, asksV, bids, bidsV, store, id);
      }
    }

    /** The index holds exactly the resting ids. */
    lemma IndexExact()
      requires Valid()
      ensures byID.Keys == RestingIds(Abs())
    {
    }

    /** Whichever side it is seen from, the book is linked. */
    lemma From(s: Side)
      requires (s.Buy? || s.Sell?) && (LinkedFrom(Buy) || LinkedFrom(Sell))
      ensures LinkedFrom(s)
    {
      hide Linked;
      if LinkedFrom(Buy) {
        LinkedSwap(Buy, bids, bidsV, asks, asksV, store);
      } else {
        LinkedSwap(Sell, asks, asksV, bids, bidsV, store);
      }
    }

    lemma ListOf(s: Side)
      requires (s.Buy? || s.Sell?) && Valid()
      ensures ListOk(s, Flatten(LadderOf(s))) && Full(LadderOf(s))
    {
    }

    lemma SameLength(s: Side)
      requires LinkedFrom(s)
      ensures |Levels(s)| == |LadderOf(s)|
    {
    }

    lemma HeadLevel(s: Side)
      requires LinkedFrom(s) && LadderOf(s) != []
      ensures |Levels(s)| > 0 && |Levels(s)[0].queue| == |LadderOf(s)[0].queue| && Levels(s)[0].price == LadderOf(s)[0].price
      ensures Shape(s, LadderOf(s))
      ensures LadderOf(s)[0].queue != [] ==> LadderOf(s)[0].queue[0].price == LadderOf(s)[0].price
    {
      assert LevelOk(LadderOf(s)[0]);
      assert LevelAt(Levels(s)[0], s, LadderOf(s)[0], store);
    }
  }
}
