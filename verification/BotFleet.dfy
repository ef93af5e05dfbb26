/** Any number of bots, on any number of shards, taking turns in any order on one
    book, with requests and replies getting lost: no check ever trips, and no order
    is ever rejected. */
module BotFleet {
  import opened Protocol
  import opened PriorityList
  import opened MatchLaws
  import opened LiveChecks

  // ---------- order ids ----------

  function Digit(d: nat): char
    requires d < 10
  {
    '0' + d as char
  }

  function Decimal(n: nat): string {
    if n < 10 then [Digit(n)] else Decimal(n / 10) + [Digit(n % 10)]
  }

  /** The number a string of digits stands for. */
  function ValueOf(s: string): int {
    if s == [] then 0 else 10 * ValueOf(s[..|s| - 1]) + (s[|s| - 1] as int - '0' as int)
  }

  datatype BotKey = BotKey(shard: nat, idx: nat)

  function OrderId(k: BotKey, n: nat): string {
    "b" + Decimal(k.shard) + "-" + Decimal(k.idx) + "-" + Decimal(n)
  }

  lemma {:induction false} DecimalValue(n: nat)
    ensures ValueOf(Decimal(n)) == n && '-' !in Decimal(n)
  {
    if n >= 10 {
      DecimalValue(n / 10);
      assert Decimal(n)[..|Decimal(n)| - 1] == Decimal(n / 10);
    } else {
      assert Decimal(n)[..0] == [];
    }
  }

  /** The text before the first dash, and the text after it, are determined. */
  lemma {:induction false} SplitAtDash(a: string, b: string, c: string, d: string)
    requires '-' !in a && '-' !in c && a + "-" + b == c + "-" + d
    ensures a == c && b == d
  {
    var s := a + "-" + b;
    assert s[|a|] == '-' && s[|c|] == '-';
    assert forall i :: 0 <= i < |a| ==> s[i] == a[i] && a[i] in a;
    assert forall i :: 0 <= i < |c| ==> s[i] == c[i] && c[i] in c;
    assert a == s[..|a|] && c == s[..|c|];
    assert b == s[|a| + 1..] && d == s[|c| + 1..];
  }

  /** No two bots, and no two orders of a bot, share an id. */
  lemma OrderIdInjective(k: BotKey, n: nat, k': BotKey, n': nat)
    requires OrderId(k, n) == OrderId(k', n')
    ensures k == k' && n == n'
  {
    DecimalValue(k.shard);
    DecimalValue(k'.shard);
    DecimalValue(k.idx);
    DecimalValue(k'.idx);
    DecimalValue(n);
    DecimalValue(n');
    hide Decimal, ValueOf;
    var rest, rest' := Decimal(k.idx) + "-" + Decimal(n), Decimal(k'.idx) + "-" + Decimal(n');
    assert OrderId(k, n)[1..] == Decimal(k.shard) + "-" + rest;
    assert OrderId(k', n')[1..] == Decimal(k'.shard) + "-" + rest';
    SplitAtDash(Decimal(k.shard), rest, Decimal(k'.shard), rest');
    SplitAtDash(Decimal(k.idx), Decimal(n), Decimal(k'.idx), Decimal(n'));
  }

  // ---------- one bot ----------

  // mid is the price walk, n the orders built so far, resting the bot's own orders it
  // may cancel, lastSeq the last sequence number it saw.
  datatype Bot = Bot(mid: int, n: nat, resting: seq<string>, lastSeq: int)

  // What the random numbers of one turn choose.
  datatype Choice =
    | CancelOwn(i: nat)
    | Sweep(side: Side, extra: nat)
    | Quote(side: Side, offset: nat, extra: nat)

  // What the network does with the request and its reply.
  datatype Delivery = Answered | ReplyLost | NeverArrived

  datatype Turn = Turn(who: BotKey, drift: nat, choice: Choice, delivery: Delivery)

  /** The random draws are within the ranges the generator is asked for. */
  predicate Drawable(b: Bot, t: Turn) {
    && t.drift < 7
    && match t.choice
       case CancelOwn(i) => i < |b.resting|
       case Sweep(side, extra) => (side.Buy? || side.Sell?) && extra < 50
       case Quote(side, offset, extra) => (side.Buy? || side.Sell?) && offset < 25 && extra < 100
  }

  function Walk(mid: int, drift: nat): int {
    var m := mid + drift - 3;
    if m < 9000 then 9000 else if m > 11000 then 11000 else m
  }

  function QuotePrice(mid: int, side: Side, offset: nat): int {
    var price := if side.Sell? then mid + offset - 5 else mid - offset + 5;
    if price < 1 then 1 else price
  }

  /** The walk can go anywhere up to three ticks away within its bounds, and nowhere else. */
  lemma WalkRange(mid: int, m: int)
    requires 9000 <= mid <= 11000
    ensures (exists drift: nat :: drift < 7 && Walk(mid, drift) == m) <==> 9000 <= m <= 11000 && mid - 3 <= m <= mid + 3
  {
    if 9000 <= m <= 11000 && mid - 3 <= m <= mid + 3 {
      assert Walk(mid, m - mid + 3) == m;
    }
  }

  /** Buys are quoted from 19 ticks below the walk to 5 above it, sells the other way round, at any
      tick between, and nowhere else. */
  lemma QuoteRange(mid: int, p: int)
    requires 9000 <= mid <= 11000
    ensures (exists offset: nat :: offset < 25 && QuotePrice(mid, Buy, offset) == p) <==> mid - 19 <= p <= mid + 5
    ensures (exists offset: nat :: offset < 25 && QuotePrice(mid, Sell, offset) == p) <==> mid - 5 <= p <= mid + 19
  {
    if mid - 19 <= p <= mid + 5 {
      assert QuotePrice(mid, Buy, mid + 5 - p) == p;
    }
    if mid - 5 <= p <= mid + 19 {
      assert QuotePrice(mid, Sell, p - mid + 5) == p;
    }
  }

  /** The request of a turn, of a bot whose walk has just moved. */
  function Request(k: BotKey, b: Bot, c: Choice): Command
    requires c.CancelOwn? ==> c.i < |b.resting|
  {
    match c
    case CancelOwn(i) => Cancel(b.resting[i])
    case Sweep(side, extra) => Submit(Order(OrderId(k, b.n), side, Market, 0, 1 + extra))
    case Quote(side, offset, extra) => Submit(Order(OrderId(k, b.n), side, Limit, QuotePrice(b.mid, side, offset), 1 + extra))
  }

  /** Sweeps take from 1 to 50, quotes offer from 1 to 100, and every quantity between can come up. */
  lemma QtyRange(k: BotKey, b: Bot, side: Side, offset: nat, q: int)
    ensures (exists extra: nat :: extra < 50 && Request(k, b, Sweep(side, extra)).order.qty == q) <==> 1 <= q <= 50
    ensures (exists extra: nat :: extra < 100 && Request(k, b, Quote(side, offset, extra)).order.qty == q) <==> 1 <= q <= 100
  {
    hide OrderId, QuotePrice;
    if 1 <= q <= 50 {
      assert Request(k, b, Sweep(side, q - 1)).order.qty == q;
    }
    if 1 <= q <= 100 {
      assert Request(k, b, Quote(side, offset, q - 1)).order.qty == q;
    }
  }

  /** What the bot does to its own state before it hears back. */
  function Sent(b: Bot, c: Choice): Bot
    requires c.CancelOwn? ==> c.i < |b.resting|
  {
    match c
    case CancelOwn(i) => b.(resting := b.resting[..i] + b.resting[i + 1..])
    case _ => b.(n := b.n + 1)
  }

  /** What it makes of the reply. */
  function Heard(b: Bot, c: Choice, request: Command, a: Ack): Bot {
    var keeps := c.Quote? && request.Submit? && (a.status == Resting || a.status == Partial) && |b.resting| < 50;
    b.(lastSeq := a.seqNo, resting := if keeps then b.resting + [request.order.id] else b.resting)
  }

  function Verdicts(b: Bot, request: Command, a: Ack): seq<Violation> {
    match request
    case Cancel(id) =>
      (if a.status != Canceled && a.status != Unknown then [LiveChecks.CancelStatus(id, a.status)] else [])
      + SeqComplaint(b.lastSeq, a)
    case Submit(o) =>
      (if a.orderId != o.id then [WrongOrderId(a.orderId, o.id)] else []) + Complaints(o, a) + SeqComplaint(b.lastSeq, a)
  }

  /** A bot has nothing to say about an order's ack exactly if it carries the order's id, a grown
      number, fills within the limit, and not more than ordered, or all of it when it says so. */
  lemma SilentIff(b: Bot, o: Order, a: Ack)
    ensures Verdicts(b, Submit(o), a) == [] <==>
              && a.orderId == o.id && a.seqNo > b.lastSeq
              && SumFills(a.fills) <= o.qty && (a.status == Filled ==> SumFills(a.fills) == o.qty)
              && forall f :: f in a.fills && o.typ == Limit ==>
                   (o.side == Buy ==> f.price <= o.price) && (o.side == Sell ==> f.price >= o.price)
  {
    NoComplaints(o, a);
    hide Complaints, SumFills;
  }

  /** And about a cancel's ack exactly if it says canceled or unknown under a grown number. */
  lemma SilentCancelIff(b: Bot, id: string, a: Ack)
    ensures Verdicts(b, Command.Cancel(id), a) == [] <==> (a.status == Canceled || a.status == Unknown) && a.seqNo > b.lastSeq
  {
  }

  // ---------- the fleet ----------

  datatype Fleet = Fleet(book: State, bots: map<BotKey, Bot>)

  predicate MayTake(f: Fleet, t: Turn) {
    t.who in f.bots && Drawable(f.bots[t.who], t)
  }

  // The outcome of a turn: the fleet after it, what the bot complained about, and what
  // the book made of the request if it got it.
  datatype Outcome = Outcome(fleet: Fleet, verdicts: seq<Violation>, request: Command, acks: seq<Ack>)

  function TakeTurn(f: Fleet, t: Turn): Outcome
    requires MayTake(f, t)
  {
    var b := f.bots[t.who];
    var moved := b.(mid := Walk(b.mid, t.drift));
    var request := Request(t.who, moved, t.choice);
    var sent := Sent(moved, t.choice);
    if t.delivery.NeverArrived? then
      Outcome(f.(bots := f.bots[t.who := sent]), [], request, [])
    else
      var (book, a) := Step(f.book, request);
      if t.delivery.ReplyLost? then
        Outcome(Fleet(book, f.bots[t.who := sent]), [], request, [a])
      else
        Outcome(Fleet(book, f.bots[t.who := Heard(sent, t.choice, request, a)]), Verdicts(sent, request, a), request, [a])
  }

  /** Every resting id in a bot's name is one it has already used. */
  ghost predicate IdsSpent(ids: set<string>, bots: map<BotKey, Bot>) {
    forall k, m: nat :: k in bots && OrderId(k, m) in ids ==> m < bots[k].n
  }

  ghost predicate BotsOk(bots: map<BotKey, Bot>, seqNo: int) {
    forall k :: k in bots ==> bots[k].lastSeq <= seqNo && 9000 <= bots[k].mid <= 11000
  }

  ghost predicate FleetOk(f: Fleet) {
    Inv(f.book) && IdsSpent(RestingIds(f.book), f.bots) && BotsOk(f.bots, f.book.seqNo)
  }

  /** A step adds at most the order's own id to the resting ones. */
  lemma StepIds(st: State, c: Command)
    requires Inv(st)
    ensures RestingIds(Step(st, c).0) <= RestingIds(st) + (if c.Submit? then {c.order.id} else {})
  {
    hide Match, Insert, Remove, Ids, ListOk;
    match c
    case Cancel(id) =>
      if id in Ids(st.bids) {
        RemoveOk(st.bids, Buy, id);
      } else if id in Ids(st.asks) {
        RemoveOk(st.asks, Sell, id);
      }
    case Submit(o) =>
      if !Rejects(st, o) {
        AfterMatchInv(st, o);
        MatchRest(st.List(Opposite(o.side)), o, o.qty, Opposite(o.side));
        var m := Match(st.List(Opposite(o.side)), o, o.qty);
        if m.remaining > 0 && o.typ.Limit? {
          InsertOk(AfterMatch(st, o).List(o.side), o.side, Entry(o.id, o.price, m.remaining));
        }
      }
  }

  lemma RequestWellFormed(k: BotKey, b: Bot, t: Turn)
    requires Drawable(b, t) && 9000 <= b.mid <= 11000
    ensures var r := Request(k, b, t.choice);
            r.Submit? ==> WellFormed(r.order) && r.order.id == OrderId(k, b.n)
  {
    hide OrderId;
  }

  /** The ids stay spent when a bot's own next id may come to rest and its counter moves on. */
  lemma SpentStep(ids: set<string>, ids2: set<string>, bots: map<BotKey, Bot>, k: BotKey, b2: Bot, fresh0: bool)
    requires IdsSpent(ids, bots) && k in bots && b2.n == bots[k].n + (if fresh0 then 1 else 0)
    requires ids2 <= ids + (if fresh0 then {OrderId(k, bots[k].n)} else {})
    ensures IdsSpent(ids2, bots[k := b2])
  {
    hide OrderId;
    forall k2, m: nat | k2 in bots[k := b2] && OrderId(k2, m) in ids2 ensures m < bots[k := b2][k2].n {
      if OrderId(k2, m) !in ids {
        OrderIdInjective(k2, m, k, bots[k].n);
      }
    }
  }

  /** One turn: the fleet stays in order, the bot has nothing to complain about, and the
      book does not reject the order. */
  lemma TurnClean(f: Fleet, t: Turn)
    requires FleetOk(f) && MayTake(f, t)
    ensures var r := TakeTurn(f, t);
            && FleetOk(r.fleet) && r.verdicts == []
            && (forall a :: a in r.acks ==> a.status != Rejected)
  {
    hide Inv, IdsSpent, RestingIds, Step, Complaints, OrderId, Walk;
    var b := f.bots[t.who];
    WalkStays(b.mid, t.drift);
    var moved := b.(mid := Walk(b.mid, t.drift));
    var request := Request(t.who, moved, t.choice);
    RequestWellFormed(t.who, moved, t);
    StepInv(f.book, request);
    StepIds(f.book, request);
    StepSeq(f.book, request);
    var isOrder := !t.choice.CancelOwn?;
    var b2 := TakeTurn(f, t).fleet.bots[t.who];
    SpentStep(RestingIds(f.book), RestingIds(TakeTurn(f, t).fleet.book), f.bots, t.who, b2, isOrder);
    if isOrder {
      NextIdFree(f, t.who);
      AcceptedClean(f.book, request.order);
    } else {
      CancelClean(f.book, request.id);
    }
  }

  lemma WalkStays(mid: int, drift: nat)
    ensures 9000 <= Walk(mid, drift) <= 11000
  {
  }

  lemma NextIdFree(f: Fleet, k: BotKey)
    requires FleetOk(f) && k in f.bots
    ensures OrderId(k, f.bots[k].n) !in RestingIds(f.book)
  {
    hide OrderId, RestingIds, Inv;
  }

  lemma AcceptedClean(st: State, o: Order)
    requires Inv(st) && WellFormed(o) && o.id !in RestingIds(st)
    ensures var a := Step(st, Submit(o)).1;
            a.status != Rejected && a.orderId == o.id && Complaints(o, a) == []
  {
    hide Match, Insert, Ids, ListOk, LiveOk, Complaints, NothingToTake;
    StatusMeaning(st, o);
    OracleClean(st, o);
    NoComplaints(o, SubmitOrder(st, o).1);
  }

  lemma CancelClean(st: State, id: string)
    ensures Step(st, Cancel(id)).1.status in {Canceled, Unknown}
  {
    OracleCancels(st, id);
  }

  // ---------- whole runs ----------

  /** The turns can be taken one after the other. */
  predicate MayRun(f: Fleet, ts: seq<Turn>)
    decreases |ts|
  {
    ts == [] || (MayTake(f, ts[0]) && MayRun(TakeTurn(f, ts[0]).fleet, ts[1..]))
  }

  /** All complaints, and all acks the book gave, over a run. */
  function Drive(f: Fleet, ts: seq<Turn>): (seq<Violation>, seq<Ack>)
    requires MayRun(f, ts)
    decreases |ts|
  {
    if ts == [] then ([], [])
    else
      var r := TakeTurn(f, ts[0]);
      var (vs, acks) := Drive(r.fleet, ts[1..]);
      (r.verdicts + vs, r.acks + acks)
  }

  lemma {:induction false} DriveClean(f: Fleet, ts: seq<Turn>)
    requires FleetOk(f) && MayRun(f, ts)
    ensures Drive(f, ts).0 == [] && forall a :: a in Drive(f, ts).1 ==> a.status != Rejected
    decreases |ts|
  {
    hide FleetOk, TakeTurn, MayTake;
    if ts != [] {
      TurnClean(f, ts[0]);
      DriveClean(TakeTurn(f, ts[0]).fleet, ts[1..]);
    }
  }

  /** A fleet that has not started, on a book where at most ids of another shape rest. */
  ghost predicate AtStart(f: Fleet) {
    && Inv(f.book)
    && (forall id :: id in RestingIds(f.book) ==> id == "" || id[0] != 'b')
    && (forall k :: k in f.bots ==> f.bots[k].n == 0 && f.bots[k].resting == [] && f.bots[k].lastSeq == 0
                                    && 9970 <= f.bots[k].mid < 10030)
  }

  /** The live checks never trip against the reference book, and it rejects no bot order:
      for any fleet, any interleaving, any losses, and whatever other orders rest at the start. */
  lemma FleetNeverTrips(f: Fleet, ts: seq<Turn>)
    requires AtStart(f) && MayRun(f, ts)
    ensures Drive(f, ts).0 == [] && forall a :: a in Drive(f, ts).1 ==> a.status != Rejected
  {
    hide Drive, MayRun, RestingIds;
    assert FleetOk(f) by {
      forall k, m: nat ensures OrderId(k, m)[0] == 'b' {
      }
      hide OrderId;
    }
    DriveClean(f, ts);
  }

  // ---------- what bots remember ----------

  /** A bot remembers at most 50 orders, all of them its own. */
  ghost predicate OwnOnly(k: BotKey, b: Bot) {
    |b.resting| <= 50 && forall id :: id in b.resting ==> Built(k, b.n, id)
  }

  /** id is one of the first n order ids of bot k. */
  ghost predicate Built(k: BotKey, n: nat, id: string) {
    exists m: nat :: m < n && id == OrderId(k, m)
  }

  lemma BuiltMore(k: BotKey, n: nat, id: string)
    requires Built(k, n, id) || id == OrderId(k, n)
    ensures Built(k, n + 1, id)
  {
    hide OrderId;
  }

  lemma SentOwn(k: BotKey, b: Bot, c: Choice)
    requires OwnOnly(k, b) && (c.CancelOwn? ==> c.i < |b.resting|)
    ensures OwnOnly(k, Sent(b, c)) && (!c.CancelOwn? ==> Built(k, Sent(b, c).n, OrderId(k, b.n)))
  {
    hide OrderId, Built;
    forall id | id in b.resting ensures !c.CancelOwn? ==> Built(k, b.n + 1, id) {
      if !c.CancelOwn? {
        BuiltMore(k, b.n, id);
      }
    }
    BuiltMore(k, b.n, OrderId(k, b.n));
  }

  /** One turn touches the bot whose turn it is and no other. It cancels only its own orders, uses a
      new id for a new one, and remembers the last number it heard, whatever it was; the order it
      will cancel later is one that was reported as resting, or as traded in part. */
  lemma TurnMemory(f: Fleet, t: Turn)
    requires MayTake(f, t) && OwnOnly(t.who, f.bots[t.who])
    ensures var r := TakeTurn(f, t);
            var b, b2 := f.bots[t.who], r.fleet.bots[t.who];
            && (forall k :: k in f.bots && k != t.who ==> k in r.fleet.bots && r.fleet.bots[k] == f.bots[k])
            && r.fleet.bots.Keys == f.bots.Keys
            && OwnOnly(t.who, b2)
            && (if r.request.Cancel? then r.request.id in b.resting && b2.n == b.n
                else r.request.order.id == OrderId(t.who, b.n) && b2.n == b.n + 1)
            && |r.acks| == (if t.delivery.NeverArrived? then 0 else 1)
            && b2.lastSeq == (if t.delivery.Answered? then r.acks[0].seqNo else b.lastSeq)
            && (t.choice.Quote? && t.delivery.Answered? && |b.resting| < 50 && r.acks[0].status in {Resting, Partial} ==>
                  b2.resting == b.resting + [r.request.order.id])
            && (forall id :: id in b2.resting ==>
                  id in b.resting || (t.delivery.Answered? && r.request.Submit? && id == r.request.order.id
                                      && (r.acks[0].status == Resting || r.acks[0].status == Partial)))
  {
    hide OrderId, Built, Step, Verdicts;
    var b := f.bots[t.who].(mid := Walk(f.bots[t.who].mid, t.drift));
    SentOwn(t.who, b, t.choice);
  }
}
