/** The meaning of the book: one flat list of resting orders per side, in
    price-time priority. Both engines are proved against these functions. */
module PriorityList {
  import opened Protocol

  datatype Entry = Entry(id: string, price: int, qty: int)
  datatype State = State(bids: seq<Entry>, asks: seq<Entry>, seqNo: int) {
    function List(s: Side): seq<Entry> {
      if s.Buy? then bids else asks
    }

    function With(s: Side, l: seq<Entry>): State {
      if s.Buy? then this.(bids := l) else this.(asks := l)
    }
  }

  const Empty := State([], [], 0)

  function Ids(l: seq<Entry>): set<string> {
    set e | e in l :: e.id
  }

  function RestingIds(st: State): set<string> {
    Ids(st.bids) + Ids(st.asks)
  }

  datatype MatchResult = MatchResult(fills: seq<Fill>, rest: seq<Entry>, remaining: int)

  /** Trade with the head of the opposite list while quantity and an acceptable price remain. */
  function Match(opp: seq<Entry>, o: Order, remaining: int): MatchResult {
    if remaining <= 0 || opp == [] || !Accepts(o, opp[0].price) then
      MatchResult([], opp, remaining)
    else
      var e := opp[0];
      var q := Min(remaining, e.qty);
      if q == e.qty then
        var m := Match(opp[1..], o, remaining - q);
        MatchResult([Fill(e.price, q, e.id)] + m.fills, m.rest, m.remaining)
      else
        MatchResult([Fill(e.price, q, e.id)], [e.(qty := e.qty - q)] + opp[1..], 0)
  }

  /** Put e behind every entry that is not strictly worse. */
  function Insert(l: seq<Entry>, s: Side, e: Entry): seq<Entry> {
    if l == [] then [e]
    else if Better(s, e.price, l[0].price) then [e] + l
    else [l[0]] + Insert(l[1..], s, e)
  }

  function Remove(l: seq<Entry>, id: string): seq<Entry> {
    if l == [] then []
    else if l[0].id == id then l[1..]
    else [l[0]] + Remove(l[1..], id)
  }

  function SubmitOrder(st: State, o: Order): (State, Ack) {
    var n := st.seqNo + 1;
    var st1 := st.(seqNo := n);
    if !WellFormed(o) || o.id in RestingIds(st) then
      (st1, Ack(o.id, n, Rejected, []))
    else
      var m := Match(st.List(Opposite(o.side)), o, o.qty);
      var st2 := st1.With(Opposite(o.side), m.rest);
      if m.remaining == 0 then
        (st2, Ack(o.id, n, Filled, m.fills))
      else if o.typ.Market? then
        (st2, Ack(o.id, n, if m.remaining < o.qty then Partial else Canceled, m.fills))
      else
        (st2.With(o.side, Insert(st2.List(o.side), o.side, Entry(o.id, o.price, m.remaining))),
         Ack(o.id, n, if m.remaining < o.qty then Partial else Resting, m.fills))
  }

  function CancelOrder(st: State, id: string): (State, Ack) {
    var n := st.seqNo + 1;
    var st1 := st.(seqNo := n);
    if id in Ids(st.bids) then
      (st1.(bids := Remove(st.bids, id)), Ack(id, n, Canceled, []))
    else if id in Ids(st.asks) then
      (st1.(asks := Remove(st.asks, id)), Ack(id, n, Canceled, []))
    else
      (st1, Ack(id, n, Unknown, []))
  }

  function Step(st: State, c: Command): (State, Ack) {
    match c
    case Submit(o) => SubmitOrder(st, o)
    case Cancel(id) => CancelOrder(st, id)
  }

  /** A run: the state after every command, and the acks in order. */
  function Run(st: State, cmds: seq<Command>): (State, seq<Ack>) {
    if cmds == [] then (st, [])
    else
      var (s, acks) := Run(st, cmds[..|cmds| - 1]);
      var (s', a) := Step(s, cmds[|cmds| - 1]);
      (s', acks + [a])
  }

  /** A run is its last command after the run of the others. */
  lemma RunLast(st: State, cmds: seq<Command>)
    requires cmds != []
    ensures var k := |cmds| - 1;
            var (s, acks) := Run(st, cmds[..k]);
            Run(st, cmds) == (Step(s, cmds[k]).0, acks + [Step(s, cmds[k]).1])
  {
    hide Step;
  }

  // ---------- what every run keeps ----------

  ghost predicate InOrder(s: Side, l: seq<Entry>) {
    forall i, j :: 0 <= i < j < |l| ==> !Better(s, l[j].price, l[i].price)
  }

  ghost predicate DistinctIds(l: seq<Entry>) {
    forall i, j :: 0 <= i < j < |l| ==> l[i].id != l[j].id
  }

  ghost predicate Positive(l: seq<Entry>) {
    forall i :: 0 <= i < |l| ==> l[i].qty > 0 && l[i].price > 0
  }

  ghost predicate ListOk(s: Side, l: seq<Entry>) {
    InOrder(s, l) && DistinctIds(l) && Positive(l)
  }

  ghost predicate Uncrossed(bids: seq<Entry>, asks: seq<Entry>) {
    forall b, a :: b in bids && a in asks ==> b.price < a.price
  }

  /** Sides sorted, ids unique, quantities positive, and every bid below every ask. */
  ghost predicate Inv(st: State) {
    && ListOk(Buy, st.bids)
    && ListOk(Sell, st.asks)
    && Ids(st.bids) !! Ids(st.asks)
    && Uncrossed(st.bids, st.asks)
    && st.seqNo >= 0
  }

  lemma {:induction false} MatchRest(opp: seq<Entry>, o: Order, remaining: int, s: Side)
    requires ListOk(s, opp) && remaining >= 0
    ensures var m := Match(opp, o, remaining);
            && ListOk(s, m.rest)
            && Ids(m.rest) <= Ids(opp)
            && (forall e :: e in m.rest ==> exists f :: f in opp && f.price == e.price)
            && 0 <= m.remaining <= remaining
  {
    if remaining == 0 || opp == [] || !Accepts(o, opp[0].price) {
    } else if remaining >= opp[0].qty {
      MatchRest(opp[1..], o, remaining - opp[0].qty, s);
    } else {
      var m := Match(opp, o, remaining);
      assert forall i :: 0 <= i < |opp| ==> m.rest[i].id == opp[i].id && m.rest[i].price == opp[i].price;
      assert forall e :: e in m.rest ==> exists i :: 0 <= i < |opp| && m.rest[i] == e;
    }
  }

  /** A remainder means nothing acceptable is left. */
  lemma {:induction false} MatchMaximal(opp: seq<Entry>, o: Order, remaining: int, s: Side)
    requires ListOk(s, opp) && remaining >= 0 && WellFormed(o) && s == Opposite(o.side)
    ensures var m := Match(opp, o, remaining);
            m.remaining > 0 ==> forall e :: e in m.rest ==> !Accepts(o, e.price)
  {
    if remaining == 0 || opp == [] {
    } else if !Accepts(o, opp[0].price) {
      forall e | e in opp ensures !Accepts(o, e.price) {
        var i :| 0 <= i < |opp| && opp[i] == e;
        assert i == 0 || !Better(s, opp[i].price, opp[0].price);
      }
    } else if remaining >= opp[0].qty {
      MatchMaximal(opp[1..], o, remaining - opp[0].qty, s);
    }
  }

  lemma {:induction false} InsertSplit(a: seq<Entry>, b: seq<Entry>, s: Side, e: Entry)
    requires forall i :: 0 <= i < |a| ==> !Better(s, e.price, a[i].price)
    requires b == [] || Better(s, e.price, b[0].price)
    ensures Insert(a + b, s, e) == a + [e] + b
  {
    if a == [] {
      assert a + b == b;
    } else {
      assert (a + b)[1..] == a[1..] + b;
      InsertSplit(a[1..], b, s, e);
    }
  }

  lemma {:induction false} InsertPosition(l: seq<Entry>, s: Side, e: Entry) returns (k: nat)
    requires InOrder(s, l)
    ensures k <= |l| && Insert(l, s, e) == l[..k] + [e] + l[k..]
    ensures forall i :: 0 <= i < k ==> !Better(s, e.price, l[i].price)
    ensures forall i :: k <= i < |l| ==> Better(s, e.price, l[i].price)
  {
    k := 0;
    while k < |l| && !Better(s, e.price, l[k].price)
      invariant k <= |l|
      invariant forall i :: 0 <= i < k ==> !Better(s, e.price, l[i].price)
    {
      k := k + 1;
    }
    assert l == l[..k] + l[k..];
    InsertSplit(l[..k], l[k..], s, e);
  }

  /** Splicing e in adds e, and nothing else, to the entries and ids. */
  lemma Spliced(a: seq<Entry>, e: Entry, b: seq<Entry>)
    ensures forall x :: x in a + [e] + b <==> x in a + b || x == e
    ensures Ids(a + [e] + b) == Ids(a + b) + {e.id}
  {
    var l, r := a + b, a + [e] + b;
    assert forall x :: x in r <==> x in l || x == e;
    forall id | id in Ids(l) + {e.id} ensures id in Ids(r) {
      if id == e.id {
        assert e in r;
      } else {
        var x :| x in l && x.id == id;
        assert x in r;
      }
    }
  }

  lemma SplicedOk(l: seq<Entry>, s: Side, k: nat, e: Entry, r: seq<Entry>)
    requires ListOk(s, l) && e.qty > 0 && e.price > 0 && k <= |l|
    requires r == l[..k] + [e] + l[k..]
    requires forall i :: 0 <= i < |l| ==> l[i].id != e.id
    requires forall i :: 0 <= i < k ==> !Better(s, e.price, l[i].price)
    requires forall i :: k <= i < |l| ==> Better(s, e.price, l[i].price)
    ensures ListOk(s, r)
  {
    forall i, j | 0 <= i < j < |r|
      ensures r[i].id != r[j].id && !Better(s, r[j].price, r[i].price)
    {
      var i', j' := if i < k then i else i - 1, if j < k then j else j - 1;
      assert i != k && j != k ==> l[i'].id != l[j'].id && !Better(s, l[j'].price, l[i'].price);
    }
  }

  lemma UnsplicedOk(l: seq<Entry>, s: Side, k: nat, r: seq<Entry>)
    requires ListOk(s, l) && k < |l|
    requires r == l[..k] + l[k + 1..]
    ensures ListOk(s, r)
    ensures forall i :: 0 <= i < |r| ==> r[i].id != l[k].id
  {
    forall i, j | 0 <= i < j < |r|
      ensures r[i].id != r[j].id && !Better(s, r[j].price, r[i].price)
    {
      var i', j' := if i < k then i else i + 1, if j < k then j else j + 1;
      assert l[i'].id != l[j'].id && !Better(s, l[j'].price, l[i'].price);
    }
  }

  lemma InsertOk(l: seq<Entry>, s: Side, e: Entry)
    requires ListOk(s, l) && e.id !in Ids(l) && e.qty > 0 && e.price > 0
    ensures ListOk(s, Insert(l, s, e)) && Ids(Insert(l, s, e)) == Ids(l) + {e.id}
    ensures forall x :: x in Insert(l, s, e) <==> x in l || x == e
  {
    var k := InsertPosition(l, s, e);
    var r := Insert(l, s, e);
    assert ListOk(s, r) by {
      NotAmong(l, e.id);
      SplicedOk(l, s, k, e, r);
    }
    assert l == l[..k] + l[k..];
    Spliced(l[..k], e, l[k..]);
  }

  lemma NotAmong(l: seq<Entry>, id: string)
    ensures id !in Ids(l) <==> forall i :: 0 <= i < |l| ==> l[i].id != id
  {
    assert forall i :: 0 <= i < |l| ==> l[i] in l;
  }

  lemma InIds(l: seq<Entry>, e: Entry)
    requires e in l
    ensures e.id in Ids(l)
  {
  }

  lemma DistinctOf(s: Side, l: seq<Entry>)
    requires ListOk(s, l)
    ensures DistinctIds(l) && InOrder(s, l)
  {
  }

  lemma {:induction false} RemoveSplit(a: seq<Entry>, e: Entry, b: seq<Entry>)
    requires e.id !in Ids(a)
    ensures Remove(a + [e] + b, e.id) == a + b
  {
    if a == [] {
      assert a + [e] + b == [e] + b;
    } else {
      assert a[0] in a && forall x :: x in a[1..] ==> x in a;
      assert (a + [e] + b)[1..] == a[1..] + [e] + b;
      RemoveSplit(a[1..], e, b);
    }
  }

  lemma {:induction false} RemovePosition(l: seq<Entry>, id: string) returns (k: nat)
    requires DistinctIds(l) && id in Ids(l)
    ensures k < |l| && l[k].id == id && Remove(l, id) == l[..k] + l[k + 1..]
  {
    k :| k < |l| && l[k].id == id;
    assert l == l[..k] + [l[k]] + l[k + 1..];
    RemoveSplit(l[..k], l[k], l[k + 1..]);
  }

  lemma RemoveOk(l: seq<Entry>, s: Side, id: string)
    requires ListOk(s, l) && id in Ids(l)
    ensures ListOk(s, Remove(l, id)) && Ids(Remove(l, id)) == Ids(l) - {id}
    ensures forall x :: x in Remove(l, id) <==> x in l && x.id != id
  {
    hide Ids;
    assert DistinctIds(l);
    hide ListOk, DistinctIds;
    var k := RemovePosition(l, id);
    var a, b := l[..k], l[k + 1..];
    UnsplicedOk(l, s, k, a + b);
    NotAmong(a + b, id);
    assert l == a + [l[k]] + b;
    Spliced(a, l[k], b);
  }

  /** The state once a valid order has traded. */
  function AfterMatch(st: State, o: Order): State {
    st.(seqNo := st.seqNo + 1).With(Opposite(o.side), Match(st.List(Opposite(o.side)), o, o.qty).rest)
  }

  lemma AfterMatchInv(st: State, o: Order)
    requires Inv(st) && WellFormed(o) && o.id !in RestingIds(st)
    ensures Inv(AfterMatch(st, o)) && o.id !in RestingIds(AfterMatch(st, o))
    ensures Match(st.List(Opposite(o.side)), o, o.qty).remaining >= 0
  {
    hide ListOk, Match, Ids;
    MatchRest(st.List(Opposite(o.side)), o, o.qty, Opposite(o.side));
  }

  lemma RestInv(st: State, o: Order, remaining: int)
    requires Inv(st) && WellFormed(o) && o.typ.Limit? && o.id !in RestingIds(st) && remaining > 0
    requires forall e :: e in st.List(Opposite(o.side)) ==> !Accepts(o, e.price)
    ensures Inv(st.With(o.side, Insert(st.List(o.side), o.side, Entry(o.id, o.price, remaining))))
  {
    hide ListOk, Ids, Insert;
    InsertOk(st.List(o.side), o.side, Entry(o.id, o.price, remaining));
  }

  lemma SubmitInv(st: State, o: Order)
    requires Inv(st)
    ensures Inv(SubmitOrder(st, o).0)
  {
    hide ListOk, Ids, Insert, Match;
    if WellFormed(o) && o.id !in RestingIds(st) {
      AfterMatchInv(st, o);
      var m := Match(st.List(Opposite(o.side)), o, o.qty);
      if m.remaining > 0 && o.typ.Limit? {
        MatchMaximal(st.List(Opposite(o.side)), o, o.qty, Opposite(o.side));
        RestInv(AfterMatch(st, o), o, m.remaining);
      }
    }
  }

  lemma CancelInv(st: State, id: string)
    requires Inv(st)
    ensures Inv(CancelOrder(st, id).0)
  {
    hide ListOk, Ids, Remove;
    if id in Ids(st.bids) {
      RemoveOk(st.bids, Buy, id);
    } else if id in Ids(st.asks) {
      RemoveOk(st.asks, Sell, id);
    }
  }

  lemma StepInv(st: State, c: Command)
    requires Inv(st)
    ensures Inv(Step(st, c).0)
  {
    match c
    case Submit(o) => SubmitInv(st, o);
    case Cancel(id) => CancelInv(st, id);
  }

  lemma StepSeq(st: State, c: Command)
    ensures Step(st, c).0.seqNo == st.seqNo + 1 == Step(st, c).1.seqNo
  {
    hide Match, Insert, Remove;
  }

  /** Every state any run reaches is sorted, uncrossed and free of duplicates. */
  lemma {:induction false} RunInv(st: State, cmds: seq<Command>)
    requires Inv(st)
    ensures Inv(Run(st, cmds).0)
  {
    hide Inv, Step;
    if cmds != [] {
      RunInv(st, cmds[..|cmds| - 1]);
      StepInv(Run(st, cmds[..|cmds| - 1]).0, cmds[|cmds| - 1]);
    }
  }

  /** Every command gets one ack, and the acks are numbered without a gap. */
  lemma {:induction false} RunSeqNos(st: State, cmds: seq<Command>)
    ensures |Run(st, cmds).1| == |cmds|
    ensures Run(st, cmds).0.seqNo == st.seqNo + |cmds|
    ensures forall i :: 0 <= i < |cmds| ==> Run(st, cmds).1[i].seqNo == st.seqNo + i + 1
  {
    hide Step;
    if cmds != [] {
      StepSeq(Run(st, cmds[..|cmds| - 1]).0, cmds[|cmds| - 1]);
      RunSeqNos(st, cmds[..|cmds| - 1]);
    }
  }
}
