/** Price-time priority said without any list: resting orders are an unordered
    pool stamped with their arrival, and every single fill must be with the best
    opposite order by price, then arrival. The book's acks pass this audit, and
    no other acks do. */
module PriceTimeAudit {
  import opened Protocol
  import opened PriorityList

  datatype Option<T> = None | Some(value: T)

  // `at` is the sequence number under which the order came in.
  datatype Standing = Standing(side: Side, price: int, qty: int, at: int)
  datatype Pool = Pool(orders: map<string, Standing>, clock: int)

  /** a has priority over b: a better price, or the same price and earlier. */
  predicate Before(a: Standing, b: Standing) {
    || (if a.side.Buy? then a.price > b.price else a.price < b.price)
    || (a.price == b.price && a.at < b.at)
  }

  /** An order that no book may take in, whatever rests. */
  predicate Malformed(o: Order) {
    || o.qty <= 0
    || (o.side != Buy && o.side != Sell)
    || (o.typ != Limit && o.typ != Market)
    || (o.typ == Limit && o.price <= 0)
  }

  /** A market order trades at any price, a limit order at its limit or better. */
  predicate Willing(o: Order, price: int) {
    || o.typ == Market
    || (o.side == Buy && price <= o.price)
    || (o.side == Sell && price >= o.price)
  }

  /** id is the one order of side s with priority over all others of that side. */
  ghost predicate IsBest(orders: map<string, Standing>, s: Side, id: string) {
    && id in orders && orders[id].side == s
    && forall other :: other in orders && orders[other].side == s && other != id ==> Before(orders[id], orders[other])
  }

  /** The pool after order id traded q. */
  function Reduced(orders: map<string, Standing>, id: string, q: int): map<string, Standing>
    requires id in orders
  {
    if q == orders[id].qty then orders - {id} else orders[id := orders[id].(qty := orders[id].qty - q)]
  }

  /** The fill is the right next one for `remaining` of o. */
  ghost predicate RightFill(orders: map<string, Standing>, o: Order, remaining: int, f: Fill) {
    && remaining > 0 && IsBest(orders, Opposite(o.side), f.makerId)
    && Willing(o, orders[f.makerId].price)
    && f.price == orders[f.makerId].price
    && (f.qty == remaining <= orders[f.makerId].qty || f.qty == orders[f.makerId].qty <= remaining)
  }

  /** Nothing more may trade: no quantity, or no acceptable opposite order. */
  ghost predicate Exhausted(orders: map<string, Standing>, o: Order, remaining: int) {
    remaining <= 0 || forall id :: id in orders && orders[id].side == Opposite(o.side) ==> !Willing(o, orders[id].price)
  }

  /** Check the fills one by one; the pool and the quantity they leave. */
  ghost function AuditFills(orders: map<string, Standing>, o: Order, remaining: int, fills: seq<Fill>)
    : Option<(map<string, Standing>, int)>
  {
    if fills == [] then
      if Exhausted(orders, o, remaining) then Some((orders, remaining)) else None
    else if RightFill(orders, o, remaining, fills[0]) then
      AuditFills(Reduced(orders, fills[0].makerId, fills[0].qty), o, remaining - fills[0].qty, fills[1..])
    else None
  }

  /** What is left of an accepted order's audit once its fills have passed. */
  ghost function AuditStatus(n: int, o: Order, a: Ack, orders: map<string, Standing>, remaining: int): Option<Pool> {
    if remaining == 0 then
      if a.status == Filled then Some(Pool(orders, n)) else None
    else if o.typ.Market? then
      if a.status == (if remaining < o.qty then Partial else Canceled) then Some(Pool(orders, n)) else None
    else
      if a.status == (if remaining < o.qty then Partial else Resting)
      then Some(Pool(orders[o.id := Standing(o.side, o.price, remaining, n)], n)) else None
  }

  /** Check one ack against its command; the pool after it. */
  ghost function AuditStep(p: Pool, c: Command, a: Ack): Option<Pool> {
    var n := p.clock + 1;
    match c
    case Cancel(id) =>
      if a == Ack(id, n, if id in p.orders then Canceled else Unknown, []) then Some(Pool(p.orders - {id}, n)) else None
    case Submit(o) =>
      if a.orderId != o.id || a.seqNo != n then None
      else if Malformed(o) || o.id in p.orders then
        if a.status == Rejected && a.fills == [] then Some(Pool(p.orders, n)) else None
      else
        match AuditFills(p.orders, o, o.qty, a.fills)
        case None => None
        case Some((orders, remaining)) => AuditStatus(n, o, a, orders, remaining)
  }

  /** Check a whole run, one ack per command. */
  ghost function AuditRun(p: Pool, cmds: seq<Command>, acks: seq<Ack>): Option<Pool>
    requires |cmds| == |acks|
  {
    if cmds == [] then Some(p)
    else
      var k := |cmds| - 1;
      match AuditRun(p, cmds[..k], acks[..k])
      case None => None
      case Some(q) => AuditStep(q, cmds[k], acks[k])
  }

  // ---------- how the pool and the lists correspond ----------

  predicate Stands(orders: map<string, Standing>, s: Side, e: Entry) {
    e.id in orders && orders[e.id].side == s && orders[e.id].price == e.price && orders[e.id].qty == e.qty
  }

  ghost predicate AllStand(orders: map<string, Standing>, s: Side, l: seq<Entry>) {
    forall i :: 0 <= i < |l| ==> Stands(orders, s, l[i])
  }

  ghost predicate Covers(orders: map<string, Standing>, s: Side, ids: set<string>) {
    forall id :: id in orders && orders[id].side == s ==> id in ids
  }

  predicate Ranked(orders: map<string, Standing>, d: Entry, e: Entry) {
    d.id in orders && e.id in orders && Before(orders[d.id], orders[e.id])
  }

  ghost predicate InPriority(orders: map<string, Standing>, l: seq<Entry>) {
    forall i, j :: 0 <= i < j < |l| ==> Ranked(orders, l[i], l[j])
  }

  /** The list is the side's orders, sorted by (price, arrival). */
  ghost predicate SideSim(orders: map<string, Standing>, s: Side, l: seq<Entry>) {
    AllStand(orders, s, l) && Covers(orders, s, Ids(l)) && InPriority(orders, l)
  }

  /** The entry with a given id. */
  lemma Place(l: seq<Entry>, id: string) returns (i: nat)
    requires id in Ids(l)
    ensures i < |l| && l[i].id == id
  {
    i :| i < |l| && l[i].id == id;
  }

  ghost predicate Sim(st: State, p: Pool) {
    && SideSim(p.orders, Buy, st.bids) && SideSim(p.orders, Sell, st.asks)
    && Known(p) && p.clock == st.seqNo
  }

  /** Every order has a side and came in before now. */
  ghost predicate Known(p: Pool) {
    forall id :: id in p.orders ==> (p.orders[id].side.Buy? || p.orders[id].side.Sell?) && p.orders[id].at <= p.clock
  }

  lemma HeadIsBest(orders: map<string, Standing>, s: Side, l: seq<Entry>, id: string)
    requires SideSim(orders, s, l)
    ensures IsBest(orders, s, id) <==> l != [] && id == l[0].id
  {
    hide Ids;
    if l != [] {
      assert Stands(orders, s, l[0]);
      forall other | other in orders && orders[other].side == s && other != l[0].id
        ensures Before(orders[l[0].id], orders[other])
      {
        var i := Place(l, other);
      }
    } else {
      NotAmong(l, id);
    }
  }

  /** The audit and the book agree on who may be taken in and at what price an order trades. */
  lemma SameTerms(o: Order, price: int)
    ensures Malformed(o) <==> !WellFormed(o)
    ensures WellFormed(o) ==> (Willing(o, price) <==> Accepts(o, price))
  {
  }

  /** Nothing may trade exactly when the match does not start. */
  lemma ExhaustedIffStops(orders: map<string, Standing>, s: Side, l: seq<Entry>, o: Order, remaining: int)
    requires SideSim(orders, s, l) && WellFormed(o) && s == Opposite(o.side)
    ensures Exhausted(orders, o, remaining) <==> remaining <= 0 || l == [] || !Accepts(o, l[0].price)
  {
    hide Ids;
    if l != [] {
      assert Stands(orders, s, l[0]);
      if !Accepts(o, l[0].price) {
        forall id | id in orders && orders[id].side == s ensures !Willing(o, orders[id].price) {
          var i := Place(l, id);
          assert i == 0 || Ranked(orders, l[0], l[i]);
        }
      }
    } else {
      assert forall id :: id in orders && orders[id].side == s ==> id in Ids(l);
      EmptyIds(l);
    }
  }

  lemma EmptyIds(l: seq<Entry>)
    requires l == []
    ensures Ids(l) == {}
  {
  }

  lemma IdsSplit(a: seq<Entry>, e: Entry, b: seq<Entry>)
    ensures Ids(a + [e] + b) == Ids(a + b) + {e.id}
  {
    Spliced(a, e, b);
  }

  lemma Distinct(orders: map<string, Standing>, l: seq<Entry>)
    requires InPriority(orders, l)
    ensures DistinctIds(l)
  {
    forall i, j | 0 <= i < j < |l| ensures l[i].id != l[j].id {
      assert Ranked(orders, l[i], l[j]);
    }
  }

  lemma DroppedStands(orders: map<string, Standing>, s: Side, l: seq<Entry>, k: nat)
    requires AllStand(orders, s, l) && DistinctIds(l) && k < |l|
    ensures AllStand(orders - {l[k].id}, s, l[..k] + l[k + 1..])
  {
    var l2 := l[..k] + l[k + 1..];
    forall i | 0 <= i < |l2| ensures Stands(orders - {l[k].id}, s, l2[i]) {
      if i < k {
        assert Stands(orders, s, l[i]) && l2[i] == l[i];
      } else {
        assert Stands(orders, s, l[i + 1]) && l2[i] == l[i + 1];
      }
    }
  }

  lemma DroppedPriority(orders: map<string, Standing>, l: seq<Entry>, k: nat)
    requires InPriority(orders, l) && DistinctIds(l) && k < |l|
    ensures InPriority(orders - {l[k].id}, l[..k] + l[k + 1..])
  {
    var l2 := l[..k] + l[k + 1..];
    var orders2 := orders - {l[k].id};
    forall i, j | 0 <= i < j < |l2|
      ensures Ranked(orders2, l2[i], l2[j])
    {
      var i', j' := if i < k then i else i + 1, if j < k then j else j + 1;
      assert l2[i] == l[i'] && l2[j] == l[j'];
      assert Ranked(orders, l[i'], l[j']);
    }
  }

  /** Dropping an entry of the list and its order from the pool. */
  lemma DroppedSim(orders: map<string, Standing>, s: Side, l: seq<Entry>, k: nat)
    requires SideSim(orders, s, l) && k < |l|
    ensures SideSim(orders - {l[k].id}, s, l[..k] + l[k + 1..])
  {
    Distinct(orders, l);
    DroppedStands(orders, s, l, k);
    DroppedPriority(orders, l, k);
    hide Ids, AllStand, InPriority, DistinctIds;
    assert l == l[..k] + [l[k]] + l[k + 1..];
    IdsSplit(l[..k], l[k], l[k + 1..]);
  }

  lemma HeadGone(orders: map<string, Standing>, s: Side, l: seq<Entry>)
    requires SideSim(orders, s, l) && l != []
    ensures SideSim(orders - {l[0].id}, s, l[1..])
  {
    hide SideSim;
    DroppedSim(orders, s, l, 0);
    assert l[..0] + l[1..] == l[1..];
  }

  lemma SameIds(l: seq<Entry>, l2: seq<Entry>)
    requires |l| == |l2| && forall i :: 0 <= i < |l| ==> l[i].id == l2[i].id
    ensures Ids(l) == Ids(l2)
  {
    forall id ensures id in Ids(l) <==> id in Ids(l2) {
      NotAmong(l, id);
      NotAmong(l2, id);
    }
  }

  lemma ReducedStands(orders: map<string, Standing>, s: Side, l: seq<Entry>, qty: int)
    requires AllStand(orders, s, l) && DistinctIds(l) && l != [] && l[0].id in orders
    ensures AllStand(orders[l[0].id := orders[l[0].id].(qty := qty)], s, [l[0].(qty := qty)] + l[1..])
  {
    assert forall i :: 0 <= i < |l| ==> Stands(orders, s, l[i]);
  }

  lemma ReducedPriority(orders: map<string, Standing>, l: seq<Entry>, qty: int)
    requires InPriority(orders, l) && l != [] && l[0].id in orders
    ensures InPriority(orders[l[0].id := orders[l[0].id].(qty := qty)], [l[0].(qty := qty)] + l[1..])
  {
    var orders2, l2 := orders[l[0].id := orders[l[0].id].(qty := qty)], [l[0].(qty := qty)] + l[1..];
    forall i, j | 0 <= i < j < |l2|
      ensures Ranked(orders2, l2[i], l2[j])
    {
      assert l2[i].id == l[i].id && l2[j].id == l[j].id;
      assert Ranked(orders, l[i], l[j]);
    }
  }

  lemma HeadReduced(orders: map<string, Standing>, s: Side, l: seq<Entry>, qty: int)
    requires SideSim(orders, s, l) && l != [] && l[0].id in orders
    ensures SideSim(orders[l[0].id := orders[l[0].id].(qty := qty)], s, [l[0].(qty := qty)] + l[1..])
  {
    Distinct(orders, l);
    ReducedStands(orders, s, l, qty);
    ReducedPriority(orders, l, qty);
    SameIds(l, [l[0].(qty := qty)] + l[1..]);
    hide Ids, AllStand, InPriority, DistinctIds;
  }

  /** The orders with a side other than s are the same in both pools. */
  ghost predicate SameElsewhere(s: Side, orders: map<string, Standing>, orders2: map<string, Standing>) {
    && (forall id :: id in orders && orders[id].side != s ==> id in orders2 && orders2[id] == orders[id])
    && (forall id :: id in orders2 && orders2[id].side != s ==> id in orders)
    && (forall id :: id in orders2 ==> id in orders && orders2[id].side == orders[id].side && orders2[id].at == orders[id].at)
  }

  lemma OtherSideSim(orders: map<string, Standing>, orders2: map<string, Standing>, s: Side, s2: Side, l: seq<Entry>)
    requires SideSim(orders, s2, l) && SameElsewhere(s, orders, orders2) && s != s2
    ensures SideSim(orders2, s2, l)
  {
    hide Ids;
    forall i | 0 <= i < |l| ensures Stands(orders2, s2, l[i]) && orders2[l[i].id] == orders[l[i].id] {
      assert Stands(orders, s2, l[i]);
    }
  }

  /** The audit of an order's fills succeeds exactly on the fills of the match, and leaves its list. */
  lemma {:induction false} AuditFillsSim(orders: map<string, Standing>, s: Side, l: seq<Entry>, o: Order, remaining: int, fills: seq<Fill>)
    requires SideSim(orders, s, l) && Positive(l) && WellFormed(o) && s == Opposite(o.side) && remaining >= 0
    ensures var m := Match(l, o, remaining);
            var r := AuditFills(orders, o, remaining, fills);
            && (r.Some? <==> fills == m.fills)
            && (r.Some? ==> SideSim(r.value.0, s, m.rest) && r.value.1 == m.remaining && SameElsewhere(s, orders, r.value.0))
    decreases |fills|
  {
    hide SideSim, Exhausted, IsBest, SameElsewhere, Match, Reduced, Positive, Stands, Accepts, Willing;
    ExhaustedIffStops(orders, s, l, o, remaining);
    MatchStops(l, o, remaining);
    SameAtFirst(s, orders);
    if fills != [] {
      var f := fills[0];
      HeadIsBest(orders, s, l, f.makerId);
      if l != [] {
        HeadStands(orders, s, l);
        SameTerms(o, l[0].price);
        if remaining > 0 && Accepts(o, l[0].price) {
          MatchHead(l, o, remaining);
        }
      }
      if RightFill(orders, o, remaining, f) {
        var l2 := if f.qty == l[0].qty then l[1..] else [l[0].(qty := l[0].qty - f.qty)] + l[1..];
        ReducedSim(orders, s, l, f.qty);
        AuditFillsSim(Reduced(orders, f.makerId, f.qty), s, l2, o, remaining - f.qty, fills[1..]);
        assert fills == [f] + fills[1..];
        if AuditFills(orders, o, remaining, fills).Some? {
          SameTrans(s, orders, Reduced(orders, f.makerId, f.qty), AuditFills(orders, o, remaining, fills).value.0);
        }
        SplitFills(f, fills[1..], Fill(l[0].price, Min(remaining, l[0].qty), l[0].id), Match(l2, o, remaining - f.qty).fills);
      }
    }
  }

  lemma SameAtFirst(s: Side, orders: map<string, Standing>)
    ensures SameElsewhere(s, orders, orders)
  {
  }

  lemma SameTrans(s: Side, a: map<string, Standing>, b: map<string, Standing>, c: map<string, Standing>)
    requires SameElsewhere(s, a, b) && SameElsewhere(s, b, c)
    ensures SameElsewhere(s, a, c)
  {
  }

  lemma ReducedElsewhere(orders: map<string, Standing>, s: Side, id: string, q: int)
    requires id in orders && orders[id].side == s
    ensures SameElsewhere(s, orders, Reduced(orders, id, q))
  {
  }

  /** Trading with the head keeps the correspondence and touches no other order. */
  lemma ReducedSim(orders: map<string, Standing>, s: Side, l: seq<Entry>, q: int)
    requires SideSim(orders, s, l) && l != []
    ensures Stands(orders, s, l[0]) && SameElsewhere(s, orders, Reduced(orders, l[0].id, q))
    ensures SideSim(Reduced(orders, l[0].id, q), s, if q == l[0].qty then l[1..] else [l[0].(qty := l[0].qty - q)] + l[1..])
  {
    hide SideSim, SameElsewhere;
    HeadStands(orders, s, l);
    ReducedElsewhere(orders, s, l[0].id, q);
    if q == l[0].qty {
      HeadGone(orders, s, l);
    } else {
      HeadReduced(orders, s, l, l[0].qty - q);
    }
  }

  lemma MatchStops(l: seq<Entry>, o: Order, remaining: int)
    ensures remaining <= 0 || l == [] || !Accepts(o, l[0].price) ==> Match(l, o, remaining) == MatchResult([], l, remaining)
    ensures !(remaining <= 0 || l == [] || !Accepts(o, l[0].price)) ==> Match(l, o, remaining).fills != []
  {
  }

  lemma HeadStands(orders: map<string, Standing>, s: Side, l: seq<Entry>)
    requires SideSim(orders, s, l) && l != []
    ensures Stands(orders, s, l[0])
    ensures l[0].id in orders && orders[l[0].id].price == l[0].price && orders[l[0].id].qty == l[0].qty
    ensures Positive(l) ==> l[0].qty > 0
  {
  }

  lemma SplitFills(f: Fill, fs: seq<Fill>, g: Fill, gs: seq<Fill>)
    ensures [f] + fs == [g] + gs <==> f == g && fs == gs
  {
    assert ([f] + fs)[0] == f && ([f] + fs)[1..] == fs;
    assert ([g] + gs)[0] == g && ([g] + gs)[1..] == gs;
  }

  lemma MatchHead(l: seq<Entry>, o: Order, remaining: int)
    requires l != [] && remaining > 0 && Accepts(o, l[0].price) && l[0].qty > 0
    ensures var q := Min(remaining, l[0].qty);
            var l2 := if q == l[0].qty then l[1..] else [l[0].(qty := l[0].qty - q)] + l[1..];
            var m, m2 := Match(l, o, remaining), Match(l2, o, remaining - q);
            m.fills == [Fill(l[0].price, q, l[0].id)] + m2.fills && m.rest == m2.rest && m.remaining == m2.remaining
            && (Positive(l) ==> Positive(l2))
  {
  }

  /** A newcomer sorts in exactly where the list inserts it. */
  lemma InsertedSim(orders: map<string, Standing>, s: Side, l: seq<Entry>, e: Entry, n: int)
    requires SideSim(orders, s, l) && e.id !in orders
    requires forall id :: id in orders ==> orders[id].at < n
    ensures SideSim(orders[e.id := Standing(s, e.price, e.qty, n)], s, Insert(l, s, e))
  {
    ListInOrder(orders, s, l);
    var k := InsertPosition(l, s, e);
    hide Insert;
    assert l == l[..k] + l[k..];
    JoinedSim(orders, s, l[..k], e, l[k..], n);
  }

  lemma ListInOrder(orders: map<string, Standing>, s: Side, l: seq<Entry>)
    requires AllStand(orders, s, l) && InPriority(orders, l)
    ensures InOrder(s, l)
  {
    forall i, j | 0 <= i < j < |l| ensures !Better(s, l[j].price, l[i].price) {
      assert Stands(orders, s, l[i]) && Stands(orders, s, l[j]) && Ranked(orders, l[i], l[j]);
    }
  }

  lemma JoinedSim(orders: map<string, Standing>, s: Side, a: seq<Entry>, e: Entry, b: seq<Entry>, n: int)
    requires SideSim(orders, s, a + b) && e.id !in orders
    requires forall id :: id in orders ==> orders[id].at < n
    requires forall i :: 0 <= i < |a| ==> !Better(s, e.price, a[i].price)
    requires forall i :: 0 <= i < |b| ==> Better(s, e.price, b[i].price)
    ensures SideSim(orders[e.id := Standing(s, e.price, e.qty, n)], s, a + [e] + b)
  {
    var orders2, l, l2 := orders[e.id := Standing(s, e.price, e.qty, n)], a + b, a + [e] + b;
    IdsSplit(a, e, b);
    hide Ids;
    assert forall i :: 0 <= i < |l2| ==> l2[i] == if i == |a| then e else l[if i < |a| then i else i - 1];
    assert AllStand(orders2, s, l2) by {
      forall i | 0 <= i < |l2| ensures Stands(orders2, s, l2[i]) {
        assert i != |a| ==> Stands(orders, s, l[if i < |a| then i else i - 1]);
      }
    }
    assert InPriority(orders2, l2) by {
      forall i, j | 0 <= i < j < |l2|
        ensures Ranked(orders2, l2[i], l2[j])
      {
        var i', j' := if i < |a| then i else i - 1, if j < |a| then j else j - 1;
        if i != |a| && j != |a| {
          assert Ranked(orders, l[i'], l[j']);
        } else if i == |a| {
          assert Stands(orders, s, l[j']) && l[j'] == b[j' - |a|];
        } else {
          assert Stands(orders, s, l[i']) && l[i'] == a[i'];
        }
      }
    }
  }

  /** A departure leaves the others in their order. */
  lemma RemovedSim(orders: map<string, Standing>, s: Side, l: seq<Entry>, id: string)
    requires SideSim(orders, s, l) && id in Ids(l)
    ensures SideSim(orders - {id}, s, Remove(l, id))
  {
    Distinct(orders, l);
    hide SideSim, Ids, DistinctIds, Remove;
    var k := RemovePosition(l, id);
    DroppedSim(orders, s, l, k);
  }

  // ---------- one step, and every run ----------

  lemma PoolIds(st: State, p: Pool)
    requires Sim(st, p)
    ensures RestingIds(st) == p.orders.Keys
  {
    hide Ids;
    forall id | id in RestingIds(st) ensures id in p.orders {
      if id in Ids(st.bids) {
        var i := Place(st.bids, id);
        assert Stands(p.orders, Buy, st.bids[i]);
      } else {
        var i := Place(st.asks, id);
        assert Stands(p.orders, Sell, st.asks[i]);
      }
    }
  }

  /** Putting a state's correspondence together from the taker's side. */
  lemma SimFrom(st: State, p: Pool, side: Side)
    requires (side.Buy? || side.Sell?) && Known(p) && p.clock == st.seqNo
    requires SideSim(p.orders, side, st.List(side)) && SideSim(p.orders, Opposite(side), st.List(Opposite(side)))
    ensures Sim(st, p)
  {
    hide SideSim, Known;
  }

  lemma SimTo(st: State, p: Pool, side: Side)
    requires (side.Buy? || side.Sell?) && Sim(st, p)
    ensures SideSim(p.orders, side, st.List(side)) && SideSim(p.orders, Opposite(side), st.List(Opposite(side)))
    ensures Known(p) && p.clock == st.seqNo
  {
    hide SideSim, Known;
  }

  /** The fills of a match, and then the remainder if it rests, on both sides of the correspondence. */
  lemma AuditMatched(st: State, p: Pool, o: Order, orders: map<string, Standing>)
    requires Sim(st, p) && WellFormed(o) && o.id !in p.orders
    requires SideSim(orders, Opposite(o.side), Match(st.List(Opposite(o.side)), o, o.qty).rest)
    requires SameElsewhere(Opposite(o.side), p.orders, orders)
    ensures var st2, n := AfterMatch(st, o), st.seqNo + 1;
            var m := Match(st.List(Opposite(o.side)), o, o.qty);
            && Sim(st2, Pool(orders, n))
            && Sim(st2.With(o.side, Insert(st2.List(o.side), o.side, Entry(o.id, o.price, m.remaining))),
                   Pool(orders[o.id := Standing(o.side, o.price, m.remaining, n)], n))
  {
    hide SideSim, Match, Insert, SameElsewhere, Sim, Known;
    var s, n, st2 := Opposite(o.side), st.seqNo + 1, AfterMatch(st, o);
    var m := Match(st.List(s), o, o.qty);
    SimTo(st, p, o.side);
    StillKnown(s, p.orders, orders, o.id, p.clock);
    OtherSideSim(p.orders, orders, s, o.side, st.List(o.side));
    SimFrom(st2, Pool(orders, n), o.side);
    var new0 := Standing(o.side, o.price, m.remaining, n);
    InsertedSim(orders, o.side, st.List(o.side), Entry(o.id, o.price, m.remaining), n);
    NewcomerElsewhere(orders, s, m.rest, o.id, new0);
    NewcomerKnown(Pool(orders, n), o.id, new0);
    SimFrom(st2.With(o.side, Insert(st.List(o.side), o.side, Entry(o.id, o.price, m.remaining))),
            Pool(orders[o.id := new0], n), o.side);
  }

  lemma NewcomerKnown(p: Pool, id: string, new0: Standing)
    requires Known(p) && (new0.side.Buy? || new0.side.Sell?) && new0.at <= p.clock
    ensures Known(Pool(p.orders[id := new0], p.clock))
  {
  }

  lemma AuditAccepted(st: State, p: Pool, o: Order, a: Ack, orders: map<string, Standing>)
    requires Sim(st, p) && WellFormed(o) && o.id !in p.orders && o.id !in RestingIds(st)
    requires a.orderId == o.id && a.seqNo == st.seqNo + 1 && a.fills == Match(st.List(Opposite(o.side)), o, o.qty).fills
    requires SideSim(orders, Opposite(o.side), Match(st.List(Opposite(o.side)), o, o.qty).rest)
    requires SameElsewhere(Opposite(o.side), p.orders, orders)
    ensures var r := AuditStatus(st.seqNo + 1, o, a, orders, Match(st.List(Opposite(o.side)), o, o.qty).remaining);
            && (r.Some? <==> a == SubmitOrder(st, o).1)
            && (r.Some? ==> Sim(SubmitOrder(st, o).0, r.value))
  {
    hide SideSim, Match, Insert, RestingIds, SameElsewhere, Sim, Known;
    AuditMatched(st, p, o, orders);
  }

  lemma AuditSubmit(st: State, p: Pool, o: Order, a: Ack)
    requires Sim(st, p) && Inv(st) && WellFormed(o) && o.id !in p.orders
    ensures var r := AuditStep(p, Submit(o), a);
            && (r.Some? <==> a == SubmitOrder(st, o).1)
            && (r.Some? ==> Sim(SubmitOrder(st, o).0, r.value))
  {
    hide SideSim, Match, AuditFills, RestingIds, Inv, SameElsewhere, Sim, Known, AuditStatus, SubmitOrder, Positive;
    var s := Opposite(o.side);
    var r := AuditFills(p.orders, o, o.qty, a.fills);
    PoolIds(st, p);
    SimTo(st, p, o.side);
    ListPositive(st, s);
    AuditFillsSim(p.orders, s, st.List(s), o, o.qty, a.fills);
    SubmitFields(st, o);
    if r.Some? && a.orderId == o.id && a.seqNo == st.seqNo + 1 {
      AuditAccepted(st, p, o, a, r.value.0);
    }
  }

  lemma ListPositive(st: State, s: Side)
    requires Inv(st)
    ensures Positive(st.List(s))
  {
  }

  lemma SubmitFields(st: State, o: Order)
    requires WellFormed(o) && o.id !in RestingIds(st)
    ensures var a := SubmitOrder(st, o).1;
            a.orderId == o.id && a.seqNo == st.seqNo + 1 && a.fills == Match(st.List(Opposite(o.side)), o, o.qty).fills
  {
    hide Match, Insert;
  }

  lemma StillKnown(s: Side, orders: map<string, Standing>, orders2: map<string, Standing>, id: string, n: int)
    requires SameElsewhere(s, orders, orders2) && id !in orders && Known(Pool(orders, n))
    ensures id !in orders2 && Known(Pool(orders2, n + 1))
    ensures forall x :: x in orders2 ==> orders2[x].at < n + 1
  {
  }

  lemma NewcomerElsewhere(orders: map<string, Standing>, s: Side, l: seq<Entry>, id: string, new0: Standing)
    requires SideSim(orders, s, l) && id !in orders && new0.side != s
    ensures SideSim(orders[id := new0], s, l)
  {
    assert forall i :: 0 <= i < |l| ==> Stands(orders, s, l[i]);
  }

  lemma AuditCancel(st: State, p: Pool, id: string, a: Ack)
    requires Sim(st, p) && Inv(st)
    ensures var r := AuditStep(p, Cancel(id), a);
            && (r.Some? <==> a == CancelOrder(st, id).1)
            && (r.Some? ==> Sim(CancelOrder(st, id).0, r.value))
  {
    PoolIds(st, p);
    hide SideSim, ListOk, Remove, Ids;
    if id in Ids(st.bids) {
      RemovedSim(p.orders, Buy, st.bids, id);
      GoneElsewhere(p.orders, Sell, st.asks, id);
    } else if id in Ids(st.asks) {
      RemovedSim(p.orders, Sell, st.asks, id);
      GoneElsewhere(p.orders, Buy, st.bids, id);
    } else {
      assert p.orders - {id} == p.orders;
    }
  }

  lemma GoneElsewhere(orders: map<string, Standing>, s: Side, l: seq<Entry>, id: string)
    requires SideSim(orders, s, l) && id !in Ids(l)
    ensures SideSim(orders - {id}, s, l)
  {
    NotAmong(l, id);
    hide Ids;
    assert forall i :: 0 <= i < |l| ==> Stands(orders, s, l[i]);
  }

  lemma AuditOne(st: State, p: Pool, c: Command, a: Ack)
    requires Sim(st, p) && Inv(st)
    ensures var r := AuditStep(p, c, a);
            && (r.Some? <==> a == Step(st, c).1)
            && (r.Some? ==> Sim(Step(st, c).0, r.value))
  {
    match c
    case Cancel(id) => AuditCancel(st, p, id, a);
    case Submit(o) =>
      PoolIds(st, p);
      if WellFormed(o) && o.id !in p.orders {
        AuditSubmit(st, p, o, a);
      }
  }

  /** From corresponding states, acks pass the audit of a run exactly when they are the book's. */
  lemma {:induction false} AuditRunIff(st: State, p: Pool, cmds: seq<Command>, acks: seq<Ack>)
    requires Sim(st, p) && Inv(st) && |cmds| == |acks|
    ensures AuditRun(p, cmds, acks).Some? <==> acks == Run(st, cmds).1
    ensures AuditRun(p, cmds, acks).Some? ==> Sim(Run(st, cmds).0, AuditRun(p, cmds, acks).value)
  {
    hide Sim, Inv, AuditStep, Step;
    RunSeqNos(st, cmds);
    if cmds != [] {
      var k := |cmds| - 1;
      AuditRunIff(st, p, cmds[..k], acks[..k]);
      RunInv(st, cmds[..k]);
      RunSeqNos(st, cmds[..k]);
      assert acks == acks[..k] + [acks[k]];
      var s := Run(st, cmds[..k]).0;
      assert Run(st, cmds).1 == Run(st, cmds[..k]).1 + [Step(s, cmds[k]).1];
      if AuditRun(p, cmds[..k], acks[..k]).Some? {
        AuditOne(s, AuditRun(p, cmds[..k], acks[..k]).value, cmds[k], acks[k]);
      }
    }
  }

  /** Over every run from an empty book: the replies pass the price-time audit if and only if
      they are the replies of the book. */
  lemma AuditDecides(cmds: seq<Command>, acks: seq<Ack>)
    requires |cmds| == |acks|
    ensures AuditRun(Pool(map[], 0), cmds, acks).Some? <==> acks == Run(Empty, cmds).1
  {
    AuditRunIff(Empty, Pool(map[], 0), cmds, acks);
  }
}
