/** What the matching means, said without the matching loop. */
module MatchLaws {
  import opened Protocol
  import opened PriorityList

  // ---------- a greedy prefix of the opposite list ----------

  ghost predicate TradesWith(e: Entry, o: Order, f: Fill, inFull: bool) {
    && f.makerId == e.id && f.price == e.price && Accepts(o, e.price)
    && 0 < f.qty <= e.qty && (inFull ==> f.qty == e.qty)
  }

  /** The fills trade with the first orders of the list in turn, all but possibly the last in full. */
  ghost predicate InTurn(opp: seq<Entry>, o: Order, fs: seq<Fill>) {
    |fs| <= |opp| && forall i :: 0 <= i < |fs| ==> TradesWith(opp[i], o, fs[i], i < |fs| - 1)
  }

  /** After those fills the list keeps the others, and the matching stopped for want of
      quantity or of an acceptable price. */
  ghost predicate Leaves(opp: seq<Entry>, o: Order, fs: seq<Fill>, rest: seq<Entry>, remaining: int)
    requires |fs| <= |opp|
  {
    var k := |fs|;
    if k > 0 && fs[k - 1].qty < opp[k - 1].qty then
      remaining == 0 && rest == [opp[k - 1].(qty := opp[k - 1].qty - fs[k - 1].qty)] + opp[k..]
    else
      rest == opp[k..] && (remaining > 0 ==> k == |opp| || !Accepts(o, opp[k].price))
  }

  ghost predicate GreedyPrefix(opp: seq<Entry>, o: Order, qty: int, m: MatchResult) {
    && InTurn(opp, o, m.fills)
    && m.remaining == qty - SumFills(m.fills) >= 0
    && Leaves(opp, o, m.fills, m.rest, m.remaining)
  }

  lemma {:induction false} SumFillsFirst(fs: seq<Fill>)
    requires fs != []
    ensures SumFills(fs) == fs[0].qty + SumFills(fs[1..])
  {
    SumFillsConcat([fs[0]], fs[1..]);
    assert [fs[0]] + fs[1..] == fs;
    assert SumFills([fs[0]]) == fs[0].qty;
  }

  lemma InTurnCons(e: Entry, opp: seq<Entry>, o: Order, f: Fill, fs: seq<Fill>)
    ensures InTurn([e] + opp, o, [f] + fs) <==> TradesWith(e, o, f, fs != []) && InTurn(opp, o, fs)
  {
    hide TradesWith;
    if InTurn([e] + opp, o, [f] + fs) {
      assert TradesWith(([e] + opp)[0], o, ([f] + fs)[0], fs != []);
      forall i | 0 <= i < |fs| ensures TradesWith(opp[i], o, fs[i], i < |fs| - 1) {
        assert TradesWith(([e] + opp)[i + 1], o, ([f] + fs)[i + 1], i + 1 < |[f] + fs| - 1);
      }
    }
    if TradesWith(e, o, f, fs != []) && InTurn(opp, o, fs) {
      forall i | 0 <= i < |[f] + fs| ensures TradesWith(([e] + opp)[i], o, ([f] + fs)[i], i < |[f] + fs| - 1) {
        assert i > 0 ==> TradesWith(opp[i - 1], o, fs[i - 1], i - 1 < |fs| - 1);
      }
    }
  }

  lemma LeavesCons(e: Entry, opp: seq<Entry>, o: Order, f: Fill, fs: seq<Fill>, rest: seq<Entry>, remaining: int)
    requires |fs| <= |opp| && f.qty == e.qty
    ensures Leaves([e] + opp, o, [f] + fs, rest, remaining) <==> Leaves(opp, o, fs, rest, remaining)
  {
    var k := |fs|;
    assert ([e] + opp)[k + 1..] == opp[k..];
    assert k > 0 ==> ([f] + fs)[k] == fs[k - 1] && ([e] + opp)[k] == opp[k - 1];
    assert k < |opp| ==> ([e] + opp)[k + 1] == opp[k];
  }

  /** A greedy prefix that uses up the head goes on as a greedy prefix of the tail. */
  lemma GreedyCons(e: Entry, opp: seq<Entry>, o: Order, qty: int, f: Fill, t: MatchResult)
    requires f.qty == e.qty
    ensures GreedyPrefix([e] + opp, o, qty, MatchResult([f] + t.fills, t.rest, t.remaining))
        <==> TradesWith(e, o, f, true) && GreedyPrefix(opp, o, qty - e.qty, t)
  {
    hide InTurn, Leaves;
    InTurnCons(e, opp, o, f, t.fills);
    SumFillsFirst([f] + t.fills);
    assert ([f] + t.fills)[1..] == t.fills;
    InTurnLength(opp, o, t.fills);
    if |t.fills| <= |opp| {
      LeavesCons(e, opp, o, f, t.fills, t.rest, t.remaining);
    }
  }

  lemma InTurnLength(opp: seq<Entry>, o: Order, fs: seq<Fill>)
    ensures InTurn(opp, o, fs) ==> |fs| <= |opp|
  {
  }

  /** Either nothing trades, or only part of the head does, or the head does in full. */
  lemma GreedyHead(opp: seq<Entry>, o: Order, qty: int, m: MatchResult)
    requires qty >= 0 && Positive(opp)
    ensures m.fills == [] && GreedyPrefix(opp, o, qty, m) ==>
              m == MatchResult([], opp, qty) && (qty == 0 || opp == [] || !Accepts(o, opp[0].price))
    ensures m == MatchResult([], opp, qty) && (qty == 0 || opp == [] || !Accepts(o, opp[0].price)) ==>
              GreedyPrefix(opp, o, qty, m)
  {
    assert opp[0..] == opp;
  }

  lemma GreedyPart(opp: seq<Entry>, o: Order, qty: int, m: MatchResult)
    requires opp != [] && Accepts(o, opp[0].price) && 0 < qty < opp[0].qty
    ensures m == MatchResult([Fill(opp[0].price, qty, opp[0].id)], [opp[0].(qty := opp[0].qty - qty)] + opp[1..], 0) ==>
              GreedyPrefix(opp, o, qty, m)
    ensures GreedyPrefix(opp, o, qty, m) && m.fills != [] && m.fills[0].qty < opp[0].qty ==>
              m == MatchResult([Fill(opp[0].price, qty, opp[0].id)], [opp[0].(qty := opp[0].qty - qty)] + opp[1..], 0)
  {
    if GreedyPrefix(opp, o, qty, m) && m.fills != [] && m.fills[0].qty < opp[0].qty {
      assert TradesWith(opp[0], o, m.fills[0], 0 < |m.fills| - 1);
      assert |m.fills| == 1;
      assert m.fills == [m.fills[0]];
      SumFillsFirst(m.fills);
    }
    SumFillsFirst([Fill(opp[0].price, qty, opp[0].id)]);
  }

  lemma {:induction false} MatchIsGreedy(opp: seq<Entry>, o: Order, qty: int)
    requires Positive(opp) && qty >= 0
    ensures GreedyPrefix(opp, o, qty, Match(opp, o, qty))
  {
    hide GreedyPrefix;
    var m := Match(opp, o, qty);
    if qty == 0 || opp == [] || !Accepts(o, opp[0].price) {
      GreedyHead(opp, o, qty, m);
    } else if qty >= opp[0].qty {
      var e := opp[0];
      MatchIsGreedy(opp[1..], o, qty - e.qty);
      GreedyCons(e, opp[1..], o, qty, Fill(e.price, e.qty, e.id), Match(opp[1..], o, qty - e.qty));
      assert opp == [e] + opp[1..];
    } else {
      GreedyPart(opp, o, qty, m);
    }
  }

  lemma GreedyFirst(opp: seq<Entry>, o: Order, qty: int, m: MatchResult)
    requires GreedyPrefix(opp, o, qty, m) && m.fills != []
    ensures opp != [] && TradesWith(opp[0], o, m.fills[0], |m.fills| > 1) && m.fills[0].qty <= qty
  {
    assert forall i :: 0 <= i < |m.fills| ==> m.fills[i].qty > 0;
    SumFillsFirst(m.fills);
    SumNonNegative(m.fills[1..]);
  }

  /** The greedy prefix is unique, so the match is exactly it. */
  lemma {:induction false} GreedyIsMatch(opp: seq<Entry>, o: Order, qty: int, m: MatchResult)
    requires Positive(opp) && qty >= 0 && GreedyPrefix(opp, o, qty, m)
    ensures m == Match(opp, o, qty)
    decreases |opp|
  {
    hide GreedyPrefix;
    GreedyHead(opp, o, qty, m);
    if m.fills != [] {
      GreedyFirst(opp, o, qty, m);
      var e, f := opp[0], m.fills[0];
      if f.qty < e.qty {
        PartialFirst(opp, o, qty, m);
        GreedyPart(opp, o, qty, m);
      } else {
        var t := MatchResult(m.fills[1..], m.rest, m.remaining);
        assert opp == [e] + opp[1..] && m == MatchResult([f] + t.fills, t.rest, t.remaining);
        GreedyCons(e, opp[1..], o, qty, f, t);
        GreedyIsMatch(opp[1..], o, qty - e.qty, t);
      }
    }
  }

  lemma PartialFirst(opp: seq<Entry>, o: Order, qty: int, m: MatchResult)
    requires GreedyPrefix(opp, o, qty, m) && m.fills != [] && m.fills[0].qty < opp[0].qty
    ensures qty == m.fills[0].qty
  {
    assert TradesWith(opp[0], o, m.fills[0], 0 < |m.fills| - 1);
    SumFillsFirst(m.fills);
    assert m.fills[1..] == [];
  }

  lemma {:induction false} SumNonNegative(fs: seq<Fill>)
    requires forall i :: 0 <= i < |fs| ==> fs[i].qty > 0
    ensures SumFills(fs) >= 0 && (fs != [] ==> SumFills(fs) > 0)
  {
    if fs != [] {
      SumNonNegative(fs[..|fs| - 1]);
    }
  }

  /** The fills of a match are the greedy prefix of the opposite list, and nothing else is. */
  lemma MatchIffGreedy(opp: seq<Entry>, o: Order, qty: int, m: MatchResult)
    requires Positive(opp) && qty >= 0
    ensures m == Match(opp, o, qty) <==> GreedyPrefix(opp, o, qty, m)
  {
    MatchIsGreedy(opp, o, qty);
    if GreedyPrefix(opp, o, qty, m) {
      GreedyIsMatch(opp, o, qty, m);
    }
  }

  // ---------- the meaning of every status ----------

  predicate Rejects(st: State, o: Order) {
    !WellFormed(o) || o.id in RestingIds(st)
  }

  /** No order of the opposite side has a price the order accepts. */
  ghost predicate NothingToTake(st: State, o: Order) {
    forall e :: e in st.List(Opposite(o.side)) ==> !Accepts(o, e.price)
  }

  /** The counts behind a match: what it filled, what it left, and that no fill is empty. */
  lemma MatchCounts(opp: seq<Entry>, o: Order, qty: int)
    requires Positive(opp) && qty >= 0
    ensures var m := Match(opp, o, qty);
            && m.remaining == qty - SumFills(m.fills) >= 0
            && SumFills(m.fills) >= 0 && (SumFills(m.fills) == 0 <==> m.fills == [])
            && (m.fills == [] ==> m.rest == opp)
  {
    var m := Match(opp, o, qty);
    MatchIsGreedy(opp, o, qty);
    assert forall i :: 0 <= i < |m.fills| ==> TradesWith(opp[i], o, m.fills[i], i < |m.fills| - 1);
    SumNonNegative(m.fills);
    assert opp[0..] == opp;
  }

  /** Every status of a submit, both ways. A used id is only refused while it rests. */
  lemma StatusMeaning(st: State, o: Order)
    requires Inv(st)
    ensures var (st', a) := SubmitOrder(st, o);
            var filled := SumFills(a.fills);
            && a.orderId == o.id && a.seqNo == st.seqNo + 1
            && 0 <= filled && (!Rejects(st, o) ==> filled <= o.qty)
            && (a.status == Rejected <==> Rejects(st, o))
            && (a.status == Filled <==> !Rejects(st, o) && filled == o.qty)
            && (a.status == Partial <==> !Rejects(st, o) && 0 < filled < o.qty)
            && (a.status == Canceled <==> !Rejects(st, o) && o.typ.Market? && st.List(Opposite(o.side)) == [])
            && (a.status == Resting <==> !Rejects(st, o) && o.typ.Limit? && NothingToTake(st, o))
            && (Rejects(st, o) ==> st' == st.(seqNo := st'.seqNo) && a.fills == [])
            && (o.id in RestingIds(st') <==> o.id in RestingIds(st) || (!Rejects(st, o) && o.typ.Limit? && filled < o.qty))
  {
    hide Match, Insert, Ids, ListOk, NothingToTake;
    if !Rejects(st, o) {
      var opp := st.List(Opposite(o.side));
      var m := Match(opp, o, o.qty);
      PositiveOf(Opposite(o.side), opp);
      MatchCounts(opp, o, o.qty);
      AfterMatchInv(st, o);
      NoFills(st, o);
      if m.remaining > 0 && o.typ.Limit? {
        InsertOk(AfterMatch(st, o).List(o.side), o.side, Entry(o.id, o.price, m.remaining));
      }
    }
  }

  lemma PositiveOf(s: Side, l: seq<Entry>)
    requires ListOk(s, l)
    ensures Positive(l) && DistinctIds(l)
  {
  }

  lemma NoFills(st: State, o: Order)
    requires Inv(st) && WellFormed(o)
    ensures Match(st.List(Opposite(o.side)), o, o.qty).fills == [] <==> NothingToTake(st, o)
    ensures o.typ.Market? ==> (NothingToTake(st, o) <==> st.List(Opposite(o.side)) == [])
  {
    var opp := st.List(Opposite(o.side));
    var m := Match(opp, o, o.qty);
    if m.fills == [] {
      MatchIsGreedy(opp, o, o.qty);
      MatchMaximal(opp, o, o.qty, Opposite(o.side));
      assert opp[0..] == opp;
    }
    if opp != [] {
      assert opp[0] in opp;
    }
  }

  lemma RestingIs(st: State, id: string)
    ensures id in RestingIds(st) <==> exists e :: (e in st.bids || e in st.asks) && e.id == id
  {
  }

  /** Exactly these orders are refused. */
  lemma RejectedIff(st: State, o: Order)
    requires Inv(st)
    ensures SubmitOrder(st, o).1.status == Rejected <==>
              || o.qty <= 0
              || (o.side != Buy && o.side != Sell)
              || (o.typ != Limit && o.typ != Market)
              || (o.typ == Limit && o.price <= 0)
              || exists e :: (e in st.bids || e in st.asks) && e.id == o.id
  {
    hide SubmitOrder, Inv, RestingIds, NothingToTake;
    StatusMeaning(st, o);
    RestingIs(st, o.id);
  }

  /** A priced order of positive quantity under a free id is taken in; it waits in full, as it
      came, exactly if no opposite order reaches its price. */
  lemma LimitTakenIn(st: State, o: Order)
    requires Inv(st) && (o.side == Buy || o.side == Sell) && o.typ == Limit && o.price > 0 && o.qty > 0
    requires forall e :: e in st.bids || e in st.asks ==> e.id != o.id
    ensures var (st', a) := SubmitOrder(st, o);
            var unmatched := if o.side == Buy then forall e :: e in st.asks ==> e.price > o.price
                             else forall e :: e in st.bids ==> e.price < o.price;
            && (a.status == Resting || a.status == Partial || a.status == Filled)
            && (a.status == Resting <==> unmatched)
            && (a.status == Resting ==>
                  var added := multiset{Entry(o.id, o.price, o.qty)};
                  && a.fills == []
                  && (o.side == Buy ==> st'.asks == st.asks && multiset(st'.bids) == multiset(st.bids) + added)
                  && (o.side == Sell ==> st'.bids == st.bids && multiset(st'.asks) == multiset(st.asks) + added))
  {
    hide SubmitOrder, RestingIds, Inv;
    StatusMeaning(st, o);
    RestingIs(st, o.id);
    LimitStatus(st, o);
    if NothingToTake(st, o) {
      RestsWhole(st, o);
    }
  }

  lemma LimitStatus(st: State, o: Order)
    requires !Rejects(st, o) && o.typ.Limit?
    ensures var s := SubmitOrder(st, o).1.status; s == Resting || s == Partial || s == Filled
  {
    hide Match, Insert, RestingIds;
  }

  lemma RestsWhole(st: State, o: Order)
    requires Inv(st) && !Rejects(st, o) && o.typ.Limit? && NothingToTake(st, o)
    ensures var (st', a) := SubmitOrder(st, o);
            && a.fills == [] && st'.List(Opposite(o.side)) == st.List(Opposite(o.side))
            && multiset(st'.List(o.side)) == multiset(st.List(o.side)) + multiset{Entry(o.id, o.price, o.qty)}
  {
    hide Match, Inv, RestingIds, Insert, NothingToTake;
    var l, e := st.List(o.side), Entry(o.id, o.price, o.qty);
    ListsInOrder(st, o.side);
    MatchCounts(st.List(Opposite(o.side)), o, o.qty);
    NoFills(st, o);
    var k := InsertPosition(l, o.side, e);
    assert l == l[..k] + l[k..];
  }

  lemma ListsInOrder(st: State, s: Side)
    requires Inv(st)
    ensures Positive(st.List(Opposite(s))) && (s.Buy? || s.Sell? ==> InOrder(s, st.List(s)))
  {
  }

  /** A cancel finds exactly what rests, and takes out nothing else. */
  lemma CancelMeaning(st: State, id: string)
    requires Inv(st)
    ensures var (st', a) := CancelOrder(st, id);
            && a.orderId == id && a.seqNo == st.seqNo + 1 && a.fills == []
            && (a.status == Canceled <==> exists e :: (e in st.bids || e in st.asks) && e.id == id)
            && (a.status == Canceled || a.status == Unknown)
            && (forall e :: e in st'.bids <==> e in st.bids && e.id != id)
            && (forall e :: e in st'.asks <==> e in st.asks && e.id != id)
  {
    RestingIs(st, id);
    ListsOk(st);
    RemovedOnly(st.bids, Buy, id);
    RemovedOnly(st.asks, Sell, id);
    hide Ids, Remove, ListOk;
  }

  lemma ListsOk(st: State)
    requires Inv(st)
    ensures ListOk(Buy, st.bids) && ListOk(Sell, st.asks) && Ids(st.bids) !! Ids(st.asks)
  {
  }

  lemma RemovedOnly(l: seq<Entry>, s: Side, id: string)
    requires ListOk(s, l)
    ensures id in Ids(l) ==> forall x :: x in Remove(l, id) <==> x in l && x.id != id
    ensures id !in Ids(l) ==> forall x :: x in l ==> x.id != id
  {
    if id in Ids(l) {
      RemoveOk(l, s, id);
    }
  }

  /** What every run leaves, over the entries themselves. */
  lemma RunBook(cmds: seq<Command>)
    ensures var st := Run(Empty, cmds).0;
            && (forall i, j :: 0 <= i < j < |st.bids| ==> st.bids[i].price >= st.bids[j].price && st.bids[i].id != st.bids[j].id)
            && (forall i, j :: 0 <= i < j < |st.asks| ==> st.asks[i].price <= st.asks[j].price && st.asks[i].id != st.asks[j].id)
            && (forall b, a :: b in st.bids && a in st.asks ==> b.price < a.price && b.id != a.id)
            && (forall e :: e in st.bids || e in st.asks ==> e.qty > 0 && e.price > 0)
  {
    hide Run;
    RunInv(Empty, cmds);
    var st := Run(Empty, cmds).0;
    assert forall b, a :: b in st.bids && a in st.asks ==> b.id in Ids(st.bids) && a.id in Ids(st.asks);
  }

  /** The contract says duplicate ids are rejected; a spent id is not. */
  lemma SpentIdAcceptedAgain()
    ensures var o := Order("a", Buy, Market, 0, 1);
            var acks := Run(Empty, [Submit(o), Submit(o)]).1;
            |acks| == 2 && acks[1].status == Canceled
  {
    var o := Order("a", Buy, Market, 0, 1);
    var cmds := [Submit(o), Submit(o)];
    RunSeqNos(Empty, cmds);
    assert cmds[..1] == [Submit(o)] && cmds[..1][..0] == [];
    assert Run(Empty, []) == (Empty, []);
    var r1 := Run(Empty, cmds[..1]);
    assert r1 == (Empty.(seqNo := 1), [] + [Ack("a", 1, Canceled, [])]);
  }

  // ---------- one sweep is two ----------

  /** Two runs of fills in a row, the order they share at the seam counted once. */
  function Coalesce(a: seq<Fill>, b: seq<Fill>): seq<Fill> {
    if a != [] && b != [] && a[|a| - 1].makerId == b[0].makerId then
      a[..|a| - 1] + [Fill(b[0].price, a[|a| - 1].qty + b[0].qty, b[0].makerId)] + b[1..]
    else
      a + b
  }

  lemma CoalesceCons(f: Fill, a: seq<Fill>, b: seq<Fill>)
    requires a != [] || (b != [] ==> b[0].makerId != f.makerId)
    ensures Coalesce([f] + a, b) == [f] + Coalesce(a, b)
  {
    if a != [] && b != [] && a[|a| - 1].makerId == b[0].makerId {
      assert ([f] + a)[|a|] == a[|a| - 1];
      assert ([f] + a)[..|a|] == [f] + a[..|a| - 1];
      ConsThree(f, a[..|a| - 1], [Fill(b[0].price, a[|a| - 1].qty + b[0].qty, b[0].makerId)], b[1..]);
    } else {
      assert ([f] + a)[|a|] == if a == [] then f else a[|a| - 1];
      assert ([f] + a) + b == [f] + (a + b);
    }
  }

  lemma ConsThree(f: Fill, u: seq<Fill>, x: seq<Fill>, v: seq<Fill>)
    ensures ([f] + u) + x + v == [f] + (u + x + v)
  {
  }

  lemma {:induction false} MatchTwice(opp: seq<Entry>, o: Order, q1: int, q2: int)
    requires Positive(opp) && DistinctIds(opp) && q1 >= 0 && q2 >= 0
    ensures var m1 := Match(opp, o, q1);
            var m2 := Match(m1.rest, o, q2);
            var m := Match(opp, o, q1 + q2);
            m.fills == Coalesce(m1.fills, m2.fills) && m.rest == m2.rest && m.remaining == m1.remaining + m2.remaining
    decreases |opp|
  {
    hide Match, Coalesce;
    if q1 == 0 || opp == [] || !Accepts(o, opp[0].price) {
      MatchNone(opp, o, q1, q2);
    } else if q1 >= opp[0].qty {
      var e, tail, q := opp[0], opp[1..], q1 - opp[0].qty;
      MatchTwice(tail, o, q, q2);
      FillsFrom(tail, o, q, q2);
      MatchWhole(opp, o, q1);
      MatchWhole(opp, o, q1 + q2);
      var m1 := Match(tail, o, q);
      CoalesceCons(Fill(e.price, e.qty, e.id), m1.fills, Match(m1.rest, o, q2).fills);
    } else {
      MatchSeam(opp[0], opp[1..], o, q1, q2);
      assert opp == [opp[0]] + opp[1..];
    }
  }

  lemma MatchNone(opp: seq<Entry>, o: Order, q1: int, q2: int)
    requires q1 == 0 || opp == [] || !Accepts(o, opp[0].price)
    requires q1 >= 0 && q2 >= 0
    ensures var m1 := Match(opp, o, q1);
            var m2 := Match(m1.rest, o, q2);
            var m := Match(opp, o, q1 + q2);
            m.fills == Coalesce(m1.fills, m2.fills) && m.rest == m2.rest && m.remaining == m1.remaining + m2.remaining
  {
    var m2 := Match(opp, o, q2);
    assert Coalesce([], m2.fills) == m2.fills;
  }

  lemma MatchWhole(opp: seq<Entry>, o: Order, q: int)
    requires opp != [] && Accepts(o, opp[0].price) && 0 < opp[0].qty <= q
    ensures var m := Match(opp[1..], o, q - opp[0].qty);
            Match(opp, o, q) == MatchResult([Fill(opp[0].price, opp[0].qty, opp[0].id)] + m.fills, m.rest, m.remaining)
  {
  }

  /** The first sweep ends inside the head order: the second goes on with the same order. */
  lemma MatchSeam(e: Entry, tail: seq<Entry>, o: Order, q1: int, q2: int)
    requires Accepts(o, e.price) && 0 < q1 < e.qty && q2 >= 0
    ensures var m1 := Match([e] + tail, o, q1);
            var m2 := Match(m1.rest, o, q2);
            var m := Match([e] + tail, o, q1 + q2);
            m.fills == Coalesce(m1.fills, m2.fills) && m.rest == m2.rest && m.remaining == m1.remaining + m2.remaining
  {
    var e2 := e.(qty := e.qty - q1);
    var l := [e] + tail;
    assert l[1..] == tail && ([e2] + tail)[1..] == tail;
    var first := Fill(e.price, q1, e.id);
    assert Match(l, o, q1) == MatchResult([first], [e2] + tail, 0);
    var m2 := Match([e2] + tail, o, q2);
    if q2 > 0 {
      assert m2.fills[0].makerId == e.id && m2.fills[0].price == e.price;
      assert [first][..0] == [];
      assert Coalesce([first], m2.fills) == [Fill(e.price, q1 + m2.fills[0].qty, e.id)] + m2.fills[1..];
    }
  }

  /** When the first sweep left the tail untouched, the second one's makers are in that tail. */
  lemma FillsFrom(opp: seq<Entry>, o: Order, q1: int, q2: int)
    requires Positive(opp) && q1 >= 0 && q2 >= 0
    ensures var m1 := Match(opp, o, q1);
            var m2 := Match(m1.rest, o, q2);
            m1.fills == [] && m2.fills != [] ==> opp != [] && m2.fills[0].makerId == opp[0].id
  {
  }

  /** From any book, one market order of q1 + q2 leaves what market orders of q1 and then q2
      leave, and its fills are theirs, the maker they share at the seam counted once. */
  lemma SweepAdditive(st: State, side: Side, id1: string, id2: string, id: string, q1: int, q2: int)
    requires Inv(st) && (side.Buy? || side.Sell?) && q1 > 0 && q2 > 0
    requires id1 !in RestingIds(st) && id2 !in RestingIds(st) && id !in RestingIds(st)
    ensures var (s1, a1) := SubmitOrder(st, Order(id1, side, Market, 0, q1));
            var (s2, a2) := SubmitOrder(s1, Order(id2, side, Market, 0, q2));
            var (s, a) := SubmitOrder(st, Order(id, side, Market, 0, q1 + q2));
            s.bids == s2.bids && s.asks == s2.asks && a.fills == Coalesce(a1.fills, a2.fills)
  {
    hide Match, RestingIds, Inv, Positive, DistinctIds, Coalesce;
    var o1, o2, o := Order(id1, side, Market, 0, q1), Order(id2, side, Market, 0, q2), Order(id, side, Market, 0, q1 + q2);
    var opp := st.List(Opposite(side));
    MarketSubmit(st, o1);
    MarketSubmit(SubmitOrder(st, o1).0, o2);
    MarketSubmit(st, o);
    SameMarket(opp, o1, o, q1);
    SameMarket(Match(opp, o, q1).rest, o2, o, q2);
    MatchTwice(opp, o, q1, q2);
  }

  /** A market order only takes from the opposite side. */
  lemma MarketSubmit(st: State, o: Order)
    requires Inv(st) && WellFormed(o) && o.typ.Market? && o.id !in RestingIds(st)
    ensures var (s, a) := SubmitOrder(st, o);
            var opp := Opposite(o.side);
            var m := Match(st.List(opp), o, o.qty);
            && s.List(opp) == m.rest && s.List(Opposite(opp)) == st.List(Opposite(opp)) && a.fills == m.fills
            && Inv(s) && RestingIds(s) <= RestingIds(st) && Positive(st.List(opp)) && DistinctIds(st.List(opp))
  {
    hide Match, Ids;
    SubmitInv(st, o);
    MatchRest(st.List(Opposite(o.side)), o, o.qty, Opposite(o.side));
  }

  /** A market order matches by its quantity alone. */
  lemma {:induction false} SameMarket(opp: seq<Entry>, o: Order, o': Order, qty: int)
    requires o.typ.Market? && o'.typ.Market?
    ensures Match(opp, o, qty) == Match(opp, o', qty)
  {
    if qty > 0 && opp != [] && Min(qty, opp[0].qty) == opp[0].qty {
      SameMarket(opp[1..], o, o', qty - opp[0].qty);
    }
  }

  // ---------- resting and cancelling undo each other ----------

  lemma {:induction false} RemoveInserted(l: seq<Entry>, s: Side, e: Entry)
    requires ListOk(s, l) && e.id !in Ids(l)
    ensures Remove(Insert(l, s, e), e.id) == l
  {
    var k := InsertPosition(l, s, e);
    NotAmong(l, e.id);
    NotAmong(l[..k], e.id);
    RemoveSplit(l[..k], e, l[k..]);
    assert l == l[..k] + l[k..];
  }

  /** Cancelling what just rested leaves the book its fills alone would leave;
      if it had none, the book it found. */
  lemma SubmitCancel(st: State, o: Order)
    requires Inv(st) && o.id in RestingIds(SubmitOrder(st, o).0) && o.id !in RestingIds(st)
    ensures var (s1, a1) := SubmitOrder(st, o);
            var (s2, a2) := CancelOrder(s1, o.id);
            && a2.status == Canceled
            && s2 == AfterMatch(st, o).(seqNo := st.seqNo + 2)
            && (a1.fills == [] ==> s2 == st.(seqNo := st.seqNo + 2))
  {
    hide Match, Insert, Remove, Ids, ListOk, NothingToTake;
    StatusMeaning(st, o);
    AfterMatchInv(st, o);
    var st1, m := AfterMatch(st, o), Match(st.List(Opposite(o.side)), o, o.qty);
    var e := Entry(o.id, o.price, m.remaining);
    PositiveOf(Opposite(o.side), st.List(Opposite(o.side)));
    MatchCounts(st.List(Opposite(o.side)), o, o.qty);
    RemoveInserted(st1.List(o.side), o.side, e);
    InsertOk(st1.List(o.side), o.side, e);
  }
}
