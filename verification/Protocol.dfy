/** The wire types every engine speaks. Prices are integer ticks. */
module Protocol {

  // The wire carries sides, types and statuses as strings: the constants the
  // engines know, or anything else.
  datatype Side = Buy | Sell | OtherSide(name: string)
  datatype OrdType = Limit | Market | OtherType(name: string)
  datatype Status = Resting | Partial | Filled | Rejected | Canceled | Unknown | OtherStatus(name: string)

  datatype Order = Order(id: string, side: Side, typ: OrdType, price: int, qty: int)
  datatype Fill = Fill(price: int, qty: int, makerId: string)
  datatype Ack = Ack(orderId: string, seqNo: int, status: Status, fills: seq<Fill>)

  // One request to an engine: POST /orders or DELETE /orders/{id}.
  datatype Command = Submit(order: Order) | Cancel(id: string)

  /** The checks an engine makes on the order alone. */
  predicate WellFormed(o: Order) {
    && o.qty > 0
    && (o.side.Buy? || o.side.Sell?)
    && (o.typ.Limit? || o.typ.Market?)
    && (o.typ.Limit? ==> o.price > 0)
  }

  function Opposite(s: Side): Side {
    if s.Sell? then Buy else Sell
  }

  /** On the ladder of side s, price p comes strictly before price q. */
  predicate Better(s: Side, p: int, q: int) {
    if s.Buy? then p > q else p < q
  }

  /** The taker o trades at price p. */
  predicate Accepts(o: Order, p: int) {
    o.typ.Limit? ==> (if o.side.Buy? then p <= o.price else p >= o.price)
  }

  function Min(a: int, b: int): int {
    if a <= b then a else b
  }

  function SumFills(fs: seq<Fill>): int {
    if fs == [] then 0 else SumFills(fs[..|fs| - 1]) + fs[|fs| - 1].qty
  }

  lemma {:induction false} SumFillsConcat(a: seq<Fill>, b: seq<Fill>)
    ensures SumFills(a + b) == SumFills(a) + SumFills(b)
  {
    if b == [] {
      assert a + b == a;
    } else {
      assert (a + b)[..|a + b| - 1] == a + b[..|b| - 1];
      SumFillsConcat(a, b[..|b| - 1]);
    }
  }
}
