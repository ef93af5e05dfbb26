/** The checks every bot makes on every ack, and why the reference book never trips them. */
module LiveChecks {
  import opened Protocol
  import opened PriorityList
  import opened MatchLaws

  datatype Violation =
    | BuyAbove(price: int, limit: int)
    | SellBelow(price: int, limit: int)
    | Overfill(filled: int, qty: int)
    | FilledShort(filled: int, qty: int)
    | SeqRegression(seqNo: int, last: int)
    | WrongOrderId(got: string, want: string)
    | CancelStatus(id: string, status: Status)

  /** The complaint a single fill gives rise to, if any. */
  function PriceComplaint(o: Order, f: Fill): seq<Violation> {
    if o.typ.Limit? && o.side.Buy? && f.price > o.price then [BuyAbove(f.price, o.price)]
    else if o.typ.Limit? && o.side.Sell? && f.price < o.price then [SellBelow(f.price, o.price)]
    else []
  }

  function PriceComplaints(o: Order, fs: seq<Fill>): seq<Violation> {
    if fs == [] then [] else PriceComplaints(o, fs[..|fs| - 1]) + PriceComplaint(o, fs[|fs| - 1])
  }

  /** What a clean ack is: fills within the limit, not more than ordered, and all of it when it says filled. */
  ghost predicate LiveOk(o: Order, a: Ack) {
    && (forall f :: f in a.fills && o.typ.Limit? ==> (o.side.Buy? ==> f.price <= o.price) && (o.side.Sell? ==> f.price >= o.price))
    && SumFills(a.fills) <= o.qty
    && (a.status == Filled ==> SumFills(a.fills) == o.qty)
  }

  lemma {:induction false} NoPriceComplaints(o: Order, fs: seq<Fill>)
    ensures PriceComplaints(o, fs) == [] <==> forall f :: f in fs ==> PriceComplaint(o, f) == []
  {
    if fs != [] {
      var front, last := fs[..|fs| - 1], fs[|fs| - 1];
      NoPriceComplaints(o, front);
      assert fs == front + [last];
      assert forall f :: f in fs <==> f in front || f == last;
    }
  }

  lemma LiveOkIff(o: Order, a: Ack)
    ensures LiveOk(o, a) <==> PriceComplaints(o, a.fills) == [] && SumFills(a.fills) <= o.qty
                              && (a.status == Filled ==> SumFills(a.fills) == o.qty)
  {
    NoPriceComplaints(o, a.fills);
    hide PriceComplaints, SumFills;
  }

  lemma NoneYet(o: Order, fs: seq<Fill>)
    ensures PriceComplaints(o, fs[..0]) == [] && SumFills(fs[..0]) == 0
  {
  }

  /** One more fill checked. */
  lemma NextFill(o: Order, fs: seq<Fill>, i: nat)
    requires i < |fs|
    ensures PriceComplaints(o, fs[..i + 1]) == PriceComplaints(o, fs[..i]) + PriceComplaint(o, fs[i])
    ensures SumFills(fs[..i + 1]) == SumFills(fs[..i]) + fs[i].qty
  {
    assert fs[..i + 1][..i] == fs[..i];
  }

  /** One complaint per bad fill, one per bad total. */
  function Complaints(o: Order, a: Ack): seq<Violation> {
    PriceComplaints(o, a.fills)
    + (if SumFills(a.fills) > o.qty then [Overfill(SumFills(a.fills), o.qty)] else [])
    + (if a.status == Filled && SumFills(a.fills) != o.qty then [FilledShort(SumFills(a.fills), o.qty)] else [])
  }

  lemma NoComplaints(o: Order, a: Ack)
    ensures Complaints(o, a) == [] <==> LiveOk(o, a)
  {
    LiveOkIff(o, a);
    hide LiveOk, PriceComplaints, SumFills;
  }

  function SeqComplaint(last: int, a: Ack): seq<Violation> {
    if a.seqNo > last then [] else [SeqRegression(a.seqNo, last)]
  }

  /** The fills at a price the order does not allow. */
  function BadFills(o: Order, fs: seq<Fill>): set<int> {
    set i | 0 <= i < |fs| && o.typ == Limit
            && ((o.side == Buy && fs[i].price > o.price) || (o.side == Sell && fs[i].price < o.price))
  }

  lemma {:induction false} PriceComplaintsCounted(o: Order, fs: seq<Fill>)
    ensures |PriceComplaints(o, fs)| == |BadFills(o, fs)|
  {
    if fs == [] {
      assert BadFills(o, fs) == {};
    } else {
      var k := |fs| - 1;
      PriceComplaintsCounted(o, fs[..k]);
      assert BadFills(o, fs) == BadFills(o, fs[..k]) + (if PriceComplaint(o, fs[k]) != [] then {k} else {});
    }
  }

  /** Violations are counted: there is one for every bad fill and one for every bad total. */
  lemma ComplaintsCounted(o: Order, a: Ack)
    ensures |Complaints(o, a)| == |BadFills(o, a.fills)| + (if SumFills(a.fills) > o.qty then 1 else 0)
                                  + (if a.status == Filled && SumFills(a.fills) != o.qty then 1 else 0)
  {
    PriceComplaintsCounted(o, a.fills);
    hide PriceComplaints, BadFills, SumFills;
  }

  /** The validation of one ack: empty exactly for a clean ack. */
  method Validate(o: Order, ack: Ack) returns (v: seq<Violation>)
    ensures v == Complaints(o, ack)
    ensures v == [] <==> LiveOk(o, ack)
  {
    hide LiveOk;
    NoComplaints(o, ack);
    v := [];
    var filled := 0;
    NoneYet(o, ack.fills);
    hide PriceComplaints, SumFills;
    for i := 0 to |ack.fills|
      invariant v == PriceComplaints(o, ack.fills[..i]) && filled == SumFills(ack.fills[..i])
    {
      var f := ack.fills[i];
      NextFill(o, ack.fills, i);
      filled := filled + f.qty;
      if o.typ == Limit {
        if o.side == Buy && f.price > o.price {
          v := v + [BuyAbove(f.price, o.price)];
        }
        if o.side == Sell && f.price < o.price {
          v := v + [SellBelow(f.price, o.price)];
        }
      }
    }
    assert ack.fills[..|ack.fills|] == ack.fills;
    if filled > o.qty {
      v := v + [Overfill(filled, o.qty)];
    }
    if ack.status == Filled && filled != o.qty {
      v := v + [FilledShort(filled, o.qty)];
    }
  }

  /** What one observer remembers of the sequence numbers it has seen. */
  class SeqObserver {
    var last: int

    constructor ()
      ensures last == 0
    {
      last := 0;
    }

    /** Complain about a number that did not grow; remember it either way. */
    method CheckSeq(ack: Ack) returns (v: seq<Violation>)
      modifies this
      ensures last == ack.seqNo
      ensures v == SeqComplaint(old(last), ack)
      ensures v == if ack.seqNo > old(last) then [] else [SeqRegression(ack.seqNo, old(last))]
    {
      if ack.seqNo <= last {
        var before := last;
        last := ack.seqNo;
        return [SeqRegression(ack.seqNo, before)];
      }
      last := ack.seqNo;
      return [];
    }
  }

  /** Every ack of the book is clean, exactly if the quantity is not negative: a rejected
      order of negative quantity counts as overfilled. */
  lemma OracleClean(st: State, o: Order)
    requires Inv(st)
    ensures LiveOk(o, SubmitOrder(st, o).1) <==> o.qty >= 0
    ensures SubmitOrder(st, o).1.orderId == o.id
  {
    hide Match, Insert, Ids, ListOk, NothingToTake;
    StatusMeaning(st, o);
    var a := SubmitOrder(st, o).1;
    if Rejects(st, o) {
      assert a.fills == [] && SumFills(a.fills) == 0;
    } else {
      FillsWithinLimit(st, o);
    }
  }

  lemma FillsWithinLimit(st: State, o: Order)
    requires Inv(st) && !Rejects(st, o)
    ensures forall f :: f in SubmitOrder(st, o).1.fills ==> Accepts(o, f.price)
  {
    var opp := st.List(Opposite(o.side));
    var m := Match(opp, o, o.qty);
    assert Positive(opp);
    MatchIsGreedy(opp, o, o.qty);
    hide Match, Insert, Ids, ListOk;
    assert forall i :: 0 <= i < |m.fills| ==> TradesWith(opp[i], o, m.fills[i], i < |m.fills| - 1);
  }

  /** Cancels are answered canceled or unknown. */
  lemma OracleCancels(st: State, id: string)
    ensures CancelOrder(st, id).1.status in {Canceled, Unknown} && CancelOrder(st, id).1.orderId == id
  {
  }
}
