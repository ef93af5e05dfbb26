/** The second engine: levels and queues are plain nested lists, the index only
    remembers side and price, new levels are appended and sorted into place, and
    cancelled orders are filtered out. */
module PyBook {
  import opened Protocol
  import opened PriorityList
  import opened Ladder

  datatype Item = Item(id: string, qty: int)
  datatype ListLevel = ListLevel(price: int, queue: seq<Item>)

  function ViewQueue(p: int, q: seq<Item>): (v: seq<Entry>)
    ensures |v| == |q| && forall i :: 0 <= i < |q| ==> v[i] == Entry(q[i].id, p, q[i].qty)
  {
    seq(|q|, i requires 0 <= i < |q| => Entry(q[i].id, p, q[i].qty))
  }

  function View(lv: ListLevel): PriceLevel {
    PriceLevel(lv.price, ViewQueue(lv.price, lv.queue))
  }

  /** The ladder a list of levels stands for. */
  function ViewAll(l: seq<ListLevel>): (v: seq<PriceLevel>)
    ensures |v| == |l| && forall i :: 0 <= i < |l| ==> v[i] == View(l[i])
  {
    seq(|l|, i requires 0 <= i < |l| => View(l[i]))
  }

  // ---------- list.sort on the level price ----------

  /** Place lv behind every level that does not sort strictly after it. */
  function Place(l: seq<ListLevel>, s: Side, lv: ListLevel): seq<ListLevel> {
    if l == [] then [lv]
    else if Better(s, lv.price, l[0].price) then [lv] + l
    else [l[0]] + Place(l[1..], s, lv)
  }

  /** The stable sort by price: descending for bids, ascending for asks. */
  function StableSort(l: seq<ListLevel>, s: Side): seq<ListLevel> {
    if l == [] then [] else Place(StableSort(l[..|l| - 1], s), s, l[|l| - 1])
  }

  ghost predicate SortedLevels(l: seq<ListLevel>, s: Side) {
    forall i, j :: 0 <= i < j < |l| ==> !Better(s, l[j].price, l[i].price)
  }

  lemma {:induction false} PlaceSplit(a: seq<ListLevel>, b: seq<ListLevel>, s: Side, lv: ListLevel)
    requires forall i :: 0 <= i < |a| ==> !Better(s, lv.price, a[i].price)
    requires b == [] || Better(s, lv.price, b[0].price)
    ensures Place(a + b, s, lv) == a + [lv] + b
  {
    if a == [] {
      assert a + b == b;
    } else {
      assert (a + b)[1..] == a[1..] + b;
      PlaceSplit(a[1..], b, s, lv);
    }
  }

  lemma PlacePosition(l: seq<ListLevel>, s: Side, lv: ListLevel) returns (k: nat)
    requires SortedLevels(l, s)
    ensures k <= |l| && Place(l, s, lv) == l[..k] + [lv] + l[k..]
    ensures forall i :: 0 <= i < k ==> !Better(s, lv.price, l[i].price)
    ensures forall i :: k <= i < |l| ==> Better(s, lv.price, l[i].price)
  {
    k := 0;
    while k < |l| && !Better(s, lv.price, l[k].price)
      invariant k <= |l|
      invariant forall i :: 0 <= i < k ==> !Better(s, lv.price, l[i].price)
    {
      k := k + 1;
    }
    assert l == l[..k] + l[k..];
    PlaceSplit(l[..k], l[k..], s, lv);
  }

  lemma PlaceSorts(l: seq<ListLevel>, s: Side, lv: ListLevel)
    requires SortedLevels(l, s)
    ensures SortedLevels(Place(l, s, lv), s) && multiset(Place(l, s, lv)) == multiset(l) + multiset{lv}
  {
    hide *;
    var k := PlacePosition(l, s, lv);
    var a, b := l[..k], l[k..];
    assert l == a + b;
    assert multiset(a + [lv] + b) == multiset(a) + multiset{lv} + multiset(b);
    JoinedSorts(l, s, lv, k);
  }

  lemma JoinedSorts(l: seq<ListLevel>, s: Side, lv: ListLevel, k: nat)
    requires SortedLevels(l, s) && k <= |l|
    requires forall i :: 0 <= i < k ==> !Better(s, lv.price, l[i].price)
    requires forall i :: k <= i < |l| ==> Better(s, lv.price, l[i].price)
    ensures SortedLevels(l[..k] + [lv] + l[k..], s)
  {
    var r := l[..k] + [lv] + l[k..];
    forall i, j | 0 <= i < j < |r| ensures !Better(s, r[j].price, r[i].price) {
      var i', j' := if i < k then i else i - 1, if j < k then j else j - 1;
      assert i != k && j != k ==> !Better(s, l[j'].price, l[i'].price);
    }
  }

  lemma SortedEmpty(s: Side)
    ensures SortedLevels([], s)
  {
  }

  /** It is a sort: ordered, and the same levels. */
  lemma {:induction false} StableSortSorts(l: seq<ListLevel>, s: Side)
    ensures SortedLevels(StableSort(l, s), s) && multiset(StableSort(l, s)) == multiset(l)
  {
    hide Place, SortedLevels;
    if l == [] {
      SortedEmpty(s);
    } else {
      StableSortSorts(l[..|l| - 1], s);
      PlaceSorts(StableSort(l[..|l| - 1], s), s, l[|l| - 1]);
      assert l == l[..|l| - 1] + [l[|l| - 1]];
    }
  }

  /** Sorting what is sorted changes nothing. */
  lemma {:induction false} StableSortKeeps(l: seq<ListLevel>, s: Side)
    requires SortedLevels(l, s)
    ensures StableSort(l, s) == l
  {
    if l != [] {
      var front, lv := l[..|l| - 1], l[|l| - 1];
      StableSortKeeps(front, s);
      PlaceSplit(front, [], s, lv);
      assert front + [] == front && front + [lv] + [] == l;
    }
  }

  /** Appending a level and sorting splices it in where the prices turn worse. */
  lemma AppendAndSort(l: seq<ListLevel>, s: Side, lv: ListLevel) returns (k: nat)
    requires Shape(s, ViewAll(l)) && forall i :: 0 <= i < |l| ==> l[i].price != lv.price
    ensures k <= |l| && StableSort(l + [lv], s) == l[..k] + [lv] + l[k..]
    ensures forall i :: 0 <= i < k ==> Better(s, l[i].price, lv.price)
    ensures forall i :: k <= i < |l| ==> Better(s, lv.price, l[i].price)
  {
    var v := ViewAll(l);
    assert forall i, j :: 0 <= i < j < |l| ==> Better(s, v[i].price, v[j].price);
    StableSortKeeps(l, s);
    assert (l + [lv])[..|l|] == l;
    k := PlacePosition(l, s, lv);
  }

  // ---------- the filter of a cancel ----------

  function Without(q: seq<Item>, id: string): seq<Item> {
    if q == [] then []
    else (if q[0].id != id then [q[0]] else []) + Without(q[1..], id)
  }

  lemma {:induction false} WithoutNone(q: seq<Item>, id: string)
    requires forall k :: 0 <= k < |q| ==> q[k].id != id
    ensures Without(q, id) == q
  {
    if q != [] {
      WithoutNone(q[1..], id);
    }
  }

  lemma {:induction false} WithoutOne(q: seq<Item>, j: nat)
    requires j < |q| && forall k :: 0 <= k < |q| && k != j ==> q[k].id != q[j].id
    ensures Without(q, q[j].id) == q[..j] + q[j + 1..]
  {
    if j == 0 {
      WithoutNone(q[1..], q[0].id);
    } else {
      assert q[1..][j - 1] == q[j];
      WithoutOne(q[1..], j - 1);
      assert q[..j] == [q[0]] + q[1..][..j - 1];
    }
  }

  // ---------- the index ----------

  /** The index holds exactly the orders of the two ladders, under their side and price. */
  ghost predicate Indexed(s: Side, l: seq<PriceLevel>, l2: seq<PriceLevel>, byId: map<string, (Side, int)>) {
    && Shape(s, l) && Shape(Opposite(s), l2)
    && DistinctIds(Flatten(l)) && DistinctIds(Flatten(l2))
    && Ids(Flatten(l)) !! Ids(Flatten(l2))
    && byId.Keys == Ids(Flatten(l)) + Ids(Flatten(l2))
    && Filed(s, Flatten(l), byId) && Filed(Opposite(s), Flatten(l2), byId)
  }

  ghost predicate Filed(s: Side, l: seq<Entry>, byId: map<string, (Side, int)>) {
    forall e :: e in l ==> e.id in byId && byId[e.id] == (s, e.price)
  }

  lemma FiledKept(s: Side, l: seq<Entry>, byId: map<string, (Side, int)>, byId2: map<string, (Side, int)>, id0: string)
    requires Filed(s, l, byId) && id0 !in Ids(l)
    requires forall id :: id in byId && id != id0 ==> id in byId2 && byId2[id] == byId[id]
    ensures Filed(s, l, byId2)
  {
    forall e | e in l ensures e.id in byId2 && byId2[e.id] == (s, e.price) {
      InIds(l, e);
    }
  }

  lemma TradedIndex(s: Side, l: seq<PriceLevel>, l2: seq<PriceLevel>, byId: map<string, (Side, int)>, q: int)
    requires Indexed(s, l, l2, byId) && l != [] && l[0].queue != [] && 0 < q <= l[0].queue[0].qty
    ensures var e := l[0].queue[0];
            Indexed(s, HitHead(l, q), l2, if q == e.qty then byId - {e.id} else byId)
  {
    hide Ids, DistinctIds, Flatten, HitHead, Shape;
    var e := l[0].queue[0];
    var byId2 := if q == e.qty then byId - {e.id} else byId;
    HitHeadFlat(l, q);
    HitHeadShape(s, l, q);
    var f := Flatten(l);
    HitFirstIds(f, q);
    InIds(f, e);
    FiledKept(Opposite(s), Flatten(l2), byId, byId2, e.id);
    if q == e.qty {
      DistinctTail(f);
      assert forall x :: x in f[1..] ==> x in f;
      FiledKept(s, f[1..], byId, byId2, e.id);
    } else {
      assert forall x :: x in HitFirst(f, q) ==> x in f || x == e.(qty := e.qty - q);
    }
  }

  lemma DistinctTail(l: seq<Entry>)
    requires DistinctIds(l) && l != []
    ensures l[0].id !in Ids(l[1..])
  {
    NotAmong(l[1..], l[0].id);
  }

  lemma RestedIndex(s: Side, l: seq<PriceLevel>, l2: seq<PriceLevel>, byId: map<string, (Side, int)>, l': seq<PriceLevel>, e: Entry)
    requires Indexed(s, l, l2, byId) && ListOk(s, Flatten(l)) && e.id !in byId && e.qty > 0 && e.price > 0
    requires Shape(s, l') && Flatten(l') == Insert(Flatten(l), s, e)
    ensures Indexed(s, l', l2, byId[e.id := (s, e.price)])
  {
    hide Ids, DistinctIds, Flatten, Insert, Shape, ListOk;
    var byId2 := byId[e.id := (s, e.price)];
    InsertOk(Flatten(l), s, e);
    DistinctOf(s, Insert(Flatten(l), s, e));
    FiledKept(s, Flatten(l), byId, byId2, e.id);
    FiledKept(Opposite(s), Flatten(l2), byId, byId2, e.id);
  }

  lemma LeftIndex(s: Side, l: seq<PriceLevel>, l2: seq<PriceLevel>, byId: map<string, (Side, int)>, l': seq<PriceLevel>, id: string)
    requires Indexed(s, l, l2, byId) && ListOk(s, Flatten(l)) && id in Ids(Flatten(l))
    requires Shape(s, l') && Flatten(l') == Remove(Flatten(l), id)
    ensures Indexed(s, l', l2, byId - {id})
  {
    hide Ids, DistinctIds, Flatten, Remove, Shape, ListOk;
    RemoveOk(Flatten(l), s, id);
    DistinctOf(s, Remove(Flatten(l), id));
    FiledKept(Opposite(s), Flatten(l2), byId, byId - {id}, id);
  }

  lemma IndexedSwap(s: Side, l: seq<PriceLevel>, l2: seq<PriceLevel>, byId: map<string, (Side, int)>)
    requires (s.Buy? || s.Sell?) && Indexed(s, l, l2, byId)
    ensures Indexed(Opposite(s), l2, l, byId)
  {
  }

  // ---------- the book ----------

  class Book {
    var bids: seq<ListLevel> // price-descending
    var asks: seq<ListLevel> // price-ascending
    var byId: map<string, (Side, int)>
    var seqNo: int

    function Levels(s: Side): seq<ListLevel>
      reads this
    {
      if s.Buy? then bids else asks
    }

    function LadderOf(s: Side): seq<PriceLevel>
      reads this
    {
      ViewAll(Levels(s))
    }

    ghost predicate IndexedFrom(s: Side)
      reads this
    {
      Indexed(s, LadderOf(s), LadderOf(Opposite(s)), byId)
    }

    ghost predicate Valid()
      reads this
    {
      IndexedFrom(Buy) && Full(LadderOf(Buy)) && Full(LadderOf(Sell)) && Inv(Abs())
    }

    /** The two priority lists the book stands for. */
    function Abs(): State
      reads this
    {
      State(Flatten(LadderOf(Buy)), Flatten(LadderOf(Sell)), seqNo)
    }

    constructor ()
      ensures Valid() && Abs() == Empty
    {
      bids, asks, byId, seqNo := [], [], map[], 0;
    }

    method Next() returns (n: int)
      requires Valid()
      modifies this`seqNo
      ensures Valid() && n == old(seqNo) + 1 && Abs() == old(Abs()).(seqNo := n)
    {
      seqNo := seqNo + 1;
      n := seqNo;
    }

    method SetLevels(s: Side, l: seq<ListLevel>)
      requires s.Buy? || s.Sell?
      modifies this`bids, this`asks
      ensures Levels(s) == l && Levels(Opposite(s)) == old(Levels(Opposite(s)))
    {
      if s.Buy? { bids := l; } else { asks := l; }
    }

    /** The inner matching loop on the queue of the best level. */
    method SweepLevel(s: Side, o: Order, fills0: seq<Fill>, remaining0: int)
      returns (fills: seq<Fill>, remaining: int)
      requires s.Buy? || s.Sell?
      requires IndexedFrom(s) && remaining0 > 0
      requires Levels(s) != [] && Levels(s)[0].queue != [] && Accepts(o, Levels(s)[0].price)
      modifies this`bids, this`asks, this`byId
      ensures IndexedFrom(s) && Levels(Opposite(s)) == old(Levels(Opposite(s)))
      ensures |Levels(s)| == |old(Levels(s))| && Levels(s)[1..] == old(Levels(s))[1..]
      ensures 0 <= remaining < remaining0 && (remaining > 0 ==> Levels(s)[0].queue == [])
      ensures SameMatch(Match(Flatten(old(LadderOf(s))), o, remaining0), fills0,
                        Match(Flatten(LadderOf(s)), o, remaining), fills)
    {
      hide Indexed, Match, Flatten, ViewQueue, ViewAll;
      fills, remaining := fills0, remaining0;
      var bestPrice := Levels(s)[0].price;
      while remaining > 0 && Levels(s)[0].queue != []
        invariant IndexedFrom(s) && Levels(Opposite(s)) == old(Levels(Opposite(s)))
        invariant |Levels(s)| == |old(Levels(s))| && Levels(s)[1..] == old(Levels(s))[1..]
        invariant Levels(s)[0].price == bestPrice
        invariant 0 <= remaining <= remaining0
        invariant remaining == remaining0 ==> Levels(s)[0].queue != []
        invariant SameMatch(Match(Flatten(old(LadderOf(s))), o, remaining0), fills0,
                            Match(Flatten(LadderOf(s)), o, remaining), fills)
        decreases remaining
      {
        ghost var l := LadderOf(s);
        FrontItem(s);
        var fill := TradeFront(s, remaining);
        TradeExtends(s, l, o, remaining, fills, fill);
        fills := fills + [fill];
        remaining := remaining - fill.qty;
      }
    }

    /** One pass of the inner matching loop. */
    method TradeFront(s: Side, remaining: int) returns (fill: Fill)
      requires (s.Buy? || s.Sell?) && IndexedFrom(s) && remaining > 0
      requires Levels(s) != [] && Levels(s)[0].queue != []
      modifies this`bids, this`asks, this`byId
      ensures IndexedFrom(s) && Levels(Opposite(s)) == old(Levels(Opposite(s)))
      ensures |Levels(s)| == |old(Levels(s))| && Levels(s)[1..] == old(Levels(s))[1..]
      ensures Levels(s)[0].price == old(Levels(s))[0].price
      ensures var e := old(LadderOf(s))[0].queue[0];
              fill == Fill(e.price, Min(remaining, e.qty), e.id) && LadderOf(s) == HitHead(old(LadderOf(s)), fill.qty)
    {
      hide Indexed;
      ghost var l := LadderOf(s);
      FrontItem(s);
      var levels := Levels(s);
      var bestPrice, queue := levels[0].price, levels[0].queue;
      var makerId, makerQty := queue[0].id, queue[0].qty;
      var traded := Min(remaining, makerQty);
      TradedIndex(s, l, LadderOf(Opposite(s)), byId, traded);
      fill := Fill(bestPrice, traded, makerId);
      makerQty := makerQty - traded;
      if makerQty == 0 {
        queue := queue[1..];
        byId := byId - {makerId};
      } else {
        queue := queue[0 := Item(makerId, makerQty)];
      }
      HitView(levels, queue, traded);
      SetLevels(s, levels[0 := ListLevel(bestPrice, queue)]);
    }

    method DropBest(s: Side)
      requires (s.Buy? || s.Sell?) && IndexedFrom(s) && Levels(s) != [] && Levels(s)[0].queue == []
      modifies this`bids, this`asks
      ensures IndexedFrom(s) && Levels(s) == old(Levels(s))[1..] && Levels(Opposite(s)) == old(Levels(Opposite(s)))
      ensures Flatten(LadderOf(s)) == old(Flatten(LadderOf(s)))
    {
      hide Indexed, Flatten;
      DropFront(LadderOf(s), LadderOf(Opposite(s)), byId, s);
      ghost var l := LadderOf(s);
      SetLevels(s, Levels(s)[1..]);
      assert LadderOf(s) == l[1..];
    }

    /** Join the level of that price, or append a level and sort. */
    method Rest(oid: string, s: Side, price: int, qty: int)
      requires (s.Buy? || s.Sell?) && IndexedFrom(s) && Full(LadderOf(s)) && ListOk(s, Flatten(LadderOf(s)))
      requires oid !in byId && qty > 0 && price > 0
      modifies this`bids, this`asks, this`byId
      ensures IndexedFrom(s) && Full(LadderOf(s)) && Levels(Opposite(s)) == old(Levels(Opposite(s)))
      ensures Flatten(LadderOf(s)) == Insert(old(Flatten(LadderOf(s))), s, Entry(oid, price, qty))
    {
      hide Indexed, Flatten, Insert, ListOk, ViewQueue, ViewAll, StableSort, Shape;
      ghost var l, l2, e, index := LadderOf(s), LadderOf(Opposite(s)), Entry(oid, price, qty), byId;
      IndexedShape(s, l, l2, byId);
      byId := byId[oid := (s, price)];
      var book := Levels(s);
      var i := 0;
      while i < |book|
        invariant 0 <= i <= |book|
        invariant forall k :: 0 <= k < i ==> book[k].price != price
      {
        if book[i].price == price {
          JoinLevel(s, l, i, e);
          JoinView(book, i, Item(oid, qty));
          RestedIndex(s, l, l2, index, l[i := PriceLevel(price, l[i].queue + [e])], e);
          SetLevels(s, book[i := ListLevel(price, book[i].queue + [Item(oid, qty)])]);
          return;
        }
        i := i + 1;
      }
      var lv := ListLevel(price, [Item(oid, qty)]);
      ghost var k := AppendAndSort(book, s, lv);
      OpenLevel(s, l, k, e);
      OpenView(book, k, lv, e);
      RestedIndex(s, l, l2, index, l[..k] + [PriceLevel(price, [e])] + l[k..], e);
      SetLevels(s, StableSort(book + [lv], s));
    }

    /** Match an incoming order; a limit remainder rests, a market remainder is dropped. */
    method Submit(o: Order) returns (ack: Ack)
      requires Valid()
      modifies this
      ensures Valid()
      ensures (Abs(), ack) == SubmitOrder(old(Abs()), o)
    {
      hide Indexed, Flatten, Inv, Match, Insert, RestingIds, Full, ViewQueue, ViewAll;
      ghost var st := Abs();
      IndexExact();
      var n := Next();
      SubmitInv(st, o);
      if o.qty <= 0 || (o.side != Buy && o.side != Sell) || (o.typ != Limit && o.typ != Market)
         || (o.typ == Limit && o.price <= 0) || o.id in byId {
        return Ack(o.id, n, Rejected, []);
      }
      AfterMatchInv(st, o);
      From(Opposite(o.side));
      ListOf(Opposite(o.side));
      var fills, remaining := Trade(o);
      From(Buy);
      assert Abs() == AfterMatch(st, o);
      if remaining == 0 {
        return Ack(o.id, n, Filled, fills);
      }
      if o.typ == Market {
        return Ack(o.id, n, if remaining < o.qty then Partial else Canceled, fills);
      }
      From(o.side);
      IndexExact();
      ListOf(o.side);
      Rest(o.id, o.side, o.price, remaining);
      From(Buy);
      return Ack(o.id, n, if remaining < o.qty then Partial else Resting, fills);
    }

    /** Filter the order out of the level the index names. */
    method Cancel(oid: string) returns (ack: Ack)
      requires Valid()
      modifies this
      ensures Valid()
      ensures (Abs(), ack) == CancelOrder(old(Abs()), oid)
    {
      hide Indexed, Flatten, Inv, Ids, Remove, Full, ViewQueue, ViewAll;
      ghost var st := Abs();
      IndexExact();
      var n := Next();
      CancelInv(st, oid);
      if oid !in byId {
        return Ack(oid, n, Unknown, []);
      }
      var s, price := byId[oid].0, byId[oid].1;
      ghost var i, j := Where(oid);
      From(s);
      ListOf(s);
      Withdraw(oid, s, price, i, j);
      From(Buy);
      return Ack(oid, n, Canceled, []);
    }

    /** Order oid is the j-th of the i-th level of side s, and that is the only level of its price. */
    ghost predicate StandsAt(oid: string, s: Side, price: int, i: nat, j: nat)
      reads this
    {
      && (s.Buy? || s.Sell?) && oid in byId && oid in Ids(Flatten(LadderOf(s)))
      && i < |Levels(s)| && Levels(s)[i].price == price
      && (forall k :: 0 <= k < |Levels(s)| && Levels(s)[k].price == price ==> k == i)
      && j < |Levels(s)[i].queue|
      && (forall k :: 0 <= k < |Levels(s)[i].queue| ==> (Levels(s)[i].queue[k].id == oid <==> k == j))
    }

    method Withdraw(oid: string, s: Side, price: int, ghost i: nat, ghost j: nat)
      requires IndexedFrom(s) && Full(LadderOf(s)) && ListOk(s, Flatten(LadderOf(s))) && StandsAt(oid, s, price, i, j)
      modifies this`bids, this`asks, this`byId
      ensures IndexedFrom(s) && Full(LadderOf(s)) && Levels(Opposite(s)) == old(Levels(Opposite(s)))
      ensures Flatten(LadderOf(s)) == Remove(old(Flatten(LadderOf(s))), oid)
    {
      hide Indexed, Flatten, ListOk, Remove, ViewQueue, ViewAll, WithoutEntry, Ids;
      ghost var l, l2 := LadderOf(s), LadderOf(Opposite(s));
      IndexedShape(s, l, l2, byId);
      LeaveLevel(s, l, i, j);
      LeftIndex(s, l, l2, byId, WithoutEntry(l, i, j), oid);
      byId := byId - {oid};
      var book := Levels(s);
      LeaveView(book, i, j);
      WithoutOne(book[i].queue, j);
      var li := 0;
      while li < |book| && book[li].price != price
        invariant 0 <= li <= i
      {
        li := li + 1;
      }
      var queue := Without(book[li].queue, oid);
      if queue == [] {
        SetLevels(s, book[..li] + book[li + 1..]);
      } else {
        SetLevels(s, book[li := ListLevel(price, queue)]);
      }
    }

    /** The level and place of a resting order. */
    lemma Where(oid: string) returns (i: nat, j: nat)
      requires Valid() && oid in byId
      ensures StandsAt(oid, byId[oid].0, byId[oid].1, i, j)
      ensures oid !in Ids(Flatten(LadderOf(Opposite(byId[oid].0))))
    {
      hide Indexed, Flatten, Inv, Full, ViewQueue, ViewAll;
      IndexExact();
      if oid in Ids(Flatten(LadderOf(Buy))) {
        i, j := Locate(Buy, Levels(Buy), LadderOf(Sell), byId, oid);
      } else {
        From(Sell);
        i, j := Locate(Sell, Levels(Sell), LadderOf(Buy), byId, oid);
      }
    }

    /** The index holds exactly the resting ids. */
    lemma IndexExact()
      requires Valid()
      ensures byId.Keys == RestingIds(Abs())
    {
    }

    /** Whichever side it is seen from, the index fits. */
    lemma From(s: Side)
      requires (s.Buy? || s.Sell?) && (IndexedFrom(Buy) || IndexedFrom(Sell))
      ensures IndexedFrom(s)
    {
      hide Indexed;
      if IndexedFrom(Buy) {
        IndexedSwap(Buy, LadderOf(Buy), LadderOf(Sell), byId);
      } else {
        IndexedSwap(Sell, LadderOf(Sell), LadderOf(Buy), byId);
      }
    }

    lemma ListOf(s: Side)
      requires (s.Buy? || s.Sell?) && Valid()
      ensures ListOk(s, Flatten(LadderOf(s))) && Full(LadderOf(s))
    {
    }

    lemma FrontItem(s: Side)
      requires IndexedFrom(s) && Levels(s) != [] && Levels(s)[0].queue != []
      ensures Shape(s, LadderOf(s)) && Levels(s)[0].queue[0].qty > 0
    {
      assert LevelOk(LadderOf(s)[0]);
      assert LadderOf(s)[0].queue[0].qty > 0;
    }

    /** The outer matching loop. */
    method Trade(o: Order) returns (fills: seq<Fill>, remaining: int)
      requires WellFormed(o) && IndexedFrom(Opposite(o.side)) && Full(LadderOf(Opposite(o.side)))
      modifies this`bids, this`asks, this`byId
      ensures var s := Opposite(o.side);
              && IndexedFrom(s) && Full(LadderOf(s)) && Levels(Opposite(s)) == old(Levels(Opposite(s)))
              && Match(old(Flatten(LadderOf(s))), o, o.qty) == MatchResult(fills, Flatten(LadderOf(s)), remaining)
    {
      hide Indexed, Match, Flatten, ViewQueue, ViewAll;
      fills, remaining := [], o.qty;
      var s := if o.side == Buy then Sell else Buy;
      while remaining > 0 && Levels(s) != []
        invariant IndexedFrom(s) && Full(LadderOf(s)) && Levels(Opposite(s)) == old(Levels(Opposite(s))) && remaining >= 0
        invariant SameMatch(old(Match(Flatten(LadderOf(s)), o, o.qty)), [],
                            Match(Flatten(LadderOf(s)), o, remaining), fills)
        decreases |Levels(s)|, remaining
      {
        var bestPrice := Levels(s)[0].price;
        assert LadderOf(s)[0].queue != [];
        if o.typ == Limit {
          if o.side == Buy && bestPrice > o.price {
            break;
          }
          if o.side == Sell && bestPrice < o.price {
            break;
          }
        }
        fills, remaining := SweepLevel(s, o, fills, remaining);
        if Levels(s)[0].queue == [] {
          DropBest(s);
        }
      }
      MatchStops(LadderOf(s), o, remaining);
      ghost var m := old(Match(Flatten(LadderOf(s)), o, o.qty));
      assert [] + m.fills == m.fills && fills + [] == fills;
    }
  }

  lemma HitView(levels: seq<ListLevel>, queue: seq<Item>, q: int)
    requires levels != [] && levels[0].queue != []
    requires queue == if q == levels[0].queue[0].qty then levels[0].queue[1..]
                      else levels[0].queue[0 := Item(levels[0].queue[0].id, levels[0].queue[0].qty - q)]
    ensures ViewAll(levels[0 := ListLevel(levels[0].price, queue)]) == HitHead(ViewAll(levels), q)
  {
    var l', h := ViewAll(levels[0 := ListLevel(levels[0].price, queue)]), HitHead(ViewAll(levels), q);
    assert l'[0].queue == h[0].queue;
    assert l' == h;
  }

  lemma JoinView(levels: seq<ListLevel>, i: nat, x: Item)
    requires i < |levels|
    ensures ViewAll(levels[i := ListLevel(levels[i].price, levels[i].queue + [x])])
         == ViewAll(levels)[i := PriceLevel(levels[i].price, ViewAll(levels)[i].queue + [Entry(x.id, levels[i].price, x.qty)])]
  {
    var l' := ViewAll(levels[i := ListLevel(levels[i].price, levels[i].queue + [x])]);
    assert l'[i].queue == ViewAll(levels)[i].queue + [Entry(x.id, levels[i].price, x.qty)];
  }

  lemma OpenView(levels: seq<ListLevel>, k: nat, lv: ListLevel, e: Entry)
    requires k <= |levels| && lv == ListLevel(e.price, [Item(e.id, e.qty)])
    ensures ViewAll(levels[..k] + [lv] + levels[k..]) == ViewAll(levels)[..k] + [PriceLevel(e.price, [e])] + ViewAll(levels)[k..]
  {
    assert View(lv).queue == [e];
  }

  lemma LeaveView(levels: seq<ListLevel>, i: nat, j: nat)
    requires i < |levels| && j < |levels[i].queue|
    ensures var q := levels[i].queue[..j] + levels[i].queue[j + 1..];
            ViewAll(if q == [] then levels[..i] + levels[i + 1..] else levels[i := ListLevel(levels[i].price, q)])
            == WithoutEntry(ViewAll(levels), i, j)
  {
    var q := levels[i].queue[..j] + levels[i].queue[j + 1..];
    var v := ViewAll(levels)[i].queue;
    assert ViewQueue(levels[i].price, q) == v[..j] + v[j + 1..];
  }

  lemma IndexedShape(s: Side, l: seq<PriceLevel>, l2: seq<PriceLevel>, byId: map<string, (Side, int)>)
    requires Indexed(s, l, l2, byId)
    ensures Shape(s, l) && DistinctIds(Flatten(l)) && Ids(Flatten(l)) <= byId.Keys
  {
  }

  lemma Locate(s: Side, levels: seq<ListLevel>, l2: seq<PriceLevel>, byId: map<string, (Side, int)>, id: string)
    returns (i: nat, j: nat)
    requires Indexed(s, ViewAll(levels), l2, byId) && id in Ids(Flatten(ViewAll(levels)))
    ensures id in byId && byId[id].0 == s && id !in Ids(Flatten(l2))
    ensures i < |levels| && levels[i].price == byId[id].1
    ensures forall k :: 0 <= k < |levels| && levels[k].price == levels[i].price ==> k == i
    ensures j < |levels[i].queue|
    ensures forall k :: 0 <= k < |levels[i].queue| ==> (levels[i].queue[k].id == id <==> k == j)
  {
    var l := ViewAll(levels);
    var e :| e in Flatten(l) && e.id == id;
    i := EntryPrice(s, l, e);
    j :| 0 <= j < |l[i].queue| && l[i].queue[j] == e;
    OnlyOnce(l, i, j);
    assert forall k :: 0 <= k < i ==> Better(s, l[k].price, l[i].price);
    assert forall k :: i < k < |l| ==> Better(s, l[i].price, l[k].price);
    assert forall k :: 0 <= k < |l[i].queue| ==> l[i].queue[k].id == levels[i].queue[k].id;
  }

  lemma DropFront(l: seq<PriceLevel>, l2: seq<PriceLevel>, byId: map<string, (Side, int)>, s: Side)
    requires Indexed(s, l, l2, byId) && l != [] && l[0].queue == []
    ensures Indexed(s, l[1..], l2, byId) && Flatten(l[1..]) == Flatten(l)
  {
    assert Flatten(l) == Flatten(l[1..]);
    SubShape(s, l, 1);
  }
}
