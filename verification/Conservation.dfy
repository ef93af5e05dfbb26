/** Where every unit of quantity goes, over whole runs, for any set of order ids:
    one order, the orders of one participant, or all of them. */
module Conservation {
  import opened Protocol
  import opened PriorityList
  import opened MatchLaws

  /** The quantity of l's orders with an id in who. */
  ghost function Qty(l: seq<Entry>, who: iset<string>): int {
    if l == [] then 0 else (if l[0].id in who then l[0].qty else 0) + Qty(l[1..], who)
  }

  /** The quantity resting in the book. */
  ghost function Held(st: State, who: iset<string>): int {
    Qty(st.bids, who) + Qty(st.asks, who)
  }

  /** The quantity filled against resting orders of who. */
  ghost function Made(fs: seq<Fill>, who: iset<string>): int {
    if fs == [] then 0 else (if fs[0].makerId in who then fs[0].qty else 0) + Made(fs[1..], who)
  }

  // What happened to the orders of some ids: the quantity accepted, filled as taker,
  // filled as maker, discarded as a market remainder, withdrawn by a cancel.
  datatype Ledger = Ledger(accepted: int, taken: int, made: int, discarded: int, withdrawn: int) {
    function Plus(o: Ledger): Ledger {
      Ledger(accepted + o.accepted, taken + o.taken, made + o.made, discarded + o.discarded, withdrawn + o.withdrawn)
    }

    /** The quantity that must still be resting. */
    function Open(): int {
      accepted - taken - made - discarded - withdrawn
    }
  }

  /** What one command does to the orders of who, read off its ack. */
  ghost function Booking(st: State, c: Command, who: iset<string>): Ledger {
    var a := Step(st, c).1;
    match c
    case Submit(o) =>
      var accepted := if o.id in who && a.status != Rejected then o.qty else 0;
      var taken := if o.id in who then SumFills(a.fills) else 0;
      Ledger(accepted, taken, Made(a.fills, who), if o.typ.Market? then accepted - taken else 0, 0)
    case Cancel(id) =>
      Ledger(0, 0, 0, 0, if id in who && a.status == Canceled then Held(st, iset{id}) else 0)
  }

  ghost function Account(st: State, cmds: seq<Command>, who: iset<string>): Ledger {
    if cmds == [] then Ledger(0, 0, 0, 0, 0)
    else
      var k := |cmds| - 1;
      Account(st, cmds[..k], who).Plus(Booking(Run(st, cmds[..k]).0, cmds[k], who))
  }

  lemma {:induction false} QtyConcat(a: seq<Entry>, b: seq<Entry>, who: iset<string>)
    ensures Qty(a + b, who) == Qty(a, who) + Qty(b, who)
  {
    if a == [] {
      assert a + b == b;
    } else {
      assert (a + b)[1..] == a[1..] + b;
      QtyConcat(a[1..], b, who);
    }
  }

  lemma QtyOne(e: Entry, who: iset<string>)
    ensures Qty([e], who) == if e.id in who then e.qty else 0
  {
    assert [e][1..] == [];
  }

  lemma {:induction false} QtyNone(l: seq<Entry>, who: iset<string>)
    requires forall i :: 0 <= i < |l| ==> l[i].id !in who
    ensures Qty(l, who) == 0
  {
    if l != [] {
      QtyNone(l[1..], who);
    }
  }

  /** What a match takes off the list is what its makers filled. */
  lemma {:induction false} MatchQty(opp: seq<Entry>, o: Order, remaining: int, who: iset<string>)
    ensures var m := Match(opp, o, remaining); Qty(opp, who) == Qty(m.rest, who) + Made(m.fills, who)
  {
    if remaining > 0 && opp != [] && Accepts(o, opp[0].price) {
      var m := Match(opp, o, remaining);
      if Min(remaining, opp[0].qty) == opp[0].qty {
        MatchQty(opp[1..], o, remaining - opp[0].qty, who);
        assert m.fills[1..] == Match(opp[1..], o, remaining - opp[0].qty).fills;
      } else {
        assert m.rest[1..] == opp[1..] && m.fills[1..] == [];
      }
    }
  }

  lemma {:induction false} InsertQty(l: seq<Entry>, s: Side, e: Entry, who: iset<string>)
    ensures Qty(Insert(l, s, e), who) == Qty(l, who) + (if e.id in who then e.qty else 0)
  {
    if l == [] {
      QtyOne(e, who);
    } else if Better(s, e.price, l[0].price) {
      QtyOne(e, who);
      QtyConcat([e], l, who);
    } else {
      InsertQty(l[1..], s, e, who);
      assert ([l[0]] + Insert(l[1..], s, e))[1..] == Insert(l[1..], s, e);
    }
  }

  lemma RemoveQty(l: seq<Entry>, id: string, who: iset<string>)
    requires DistinctIds(l) && id in Ids(l)
    ensures Qty(l, who) == Qty(Remove(l, id), who) + (if id in who then Qty(l, iset{id}) else 0)
  {
    hide Ids;
    var k := RemovePosition(l, id);
    var a, b := l[..k], l[k + 1..];
    assert l == a + [l[k]] + b;
    forall w: iset<string> ensures Qty(l, w) == Qty(a, w) + Qty([l[k]], w) + Qty(b, w) {
      QtyConcat(a + [l[k]], b, w);
      QtyConcat(a, [l[k]], w);
    }
    QtyConcat(a, b, who);
    QtyOne(l[k], who);
    QtyOne(l[k], iset{id});
    QtyNone(a, iset{id});
    QtyNone(b, iset{id});
  }

  /** An accepted order's quantity is filled, resting or discarded; its makers lose what it filled. */
  lemma AcceptedConserves(st: State, o: Order, who: iset<string>)
    requires Inv(st) && !Rejects(st, o)
    ensures var (st', a) := SubmitOrder(st, o);
            var rests := if o.id in who && o.typ.Limit? then o.qty - SumFills(a.fills) else 0;
            Held(st', who) == Held(st, who) - Made(a.fills, who) + rests
  {
    hide Match, Insert, Ids, Qty, Inv, Positive, DistinctIds, Made;
    var opp := st.List(Opposite(o.side));
    var m := Match(opp, o, o.qty);
    InvPositive(st, Opposite(o.side));
    MatchCounts(opp, o, o.qty);
    MatchQty(opp, o, o.qty, who);
    InsertQty(st.List(o.side), o.side, Entry(o.id, o.price, m.remaining), who);
  }

  lemma SubmitConserves(st: State, o: Order, who: iset<string>)
    requires Inv(st)
    ensures Held(Step(st, Submit(o)).0, who) == Held(st, who) + Booking(st, Submit(o), who).Open()
  {
    hide SubmitOrder, Inv, NothingToTake, Rejects, RestingIds;
    StatusMeaning(st, o);
    if Rejects(st, o) {
      assert SubmitOrder(st, o).1.fills == [];
    } else {
      AcceptedConserves(st, o, who);
      WellFormedType(st, o);
    }
  }

  lemma WellFormedType(st: State, o: Order)
    requires !Rejects(st, o)
    ensures o.typ.Limit? || o.typ.Market?
  {
  }

  lemma InvPositive(st: State, s: Side)
    requires Inv(st)
    ensures Positive(st.List(s)) && DistinctIds(st.bids) && DistinctIds(st.asks) && Ids(st.bids) !! Ids(st.asks)
  {
  }

  /** A cancelled order takes its whole resting quantity along. */
  lemma CancelHeld(st: State, id: string, who: iset<string>)
    requires Inv(st)
    ensures var gone := if id in RestingIds(st) && id in who then Held(st, iset{id}) else 0;
            Held(CancelOrder(st, id).0, who) == Held(st, who) - gone
  {
    hide Remove, Ids, Qty, Inv, Positive, DistinctIds;
    InvPositive(st, Buy);
    if id in Ids(st.bids) {
      RemoveQty(st.bids, id, who);
      QtyElsewhere(st.asks, id);
    } else if id in Ids(st.asks) {
      RemoveQty(st.asks, id, who);
      QtyElsewhere(st.bids, id);
    }
  }

  lemma CancelStatus(st: State, id: string)
    ensures CancelOrder(st, id).1.status == (if id in RestingIds(st) then Canceled else Unknown)
  {
  }

  lemma CancelConserves(st: State, id: string, who: iset<string>)
    requires Inv(st)
    ensures Held(Step(st, Cancel(id)).0, who) == Held(st, who) + Booking(st, Cancel(id), who).Open()
  {
    hide CancelOrder, SubmitOrder, RestingIds, Held, Inv;
    CancelHeld(st, id, who);
    CancelStatus(st, id);
  }

  lemma QtyElsewhere(l: seq<Entry>, id: string)
    requires id !in Ids(l)
    ensures Qty(l, iset{id}) == 0
  {
    NotAmong(l, id);
    QtyNone(l, iset{id});
  }

  /** Over every run and for every set of ids: what is resting at the end is what was resting
      at the start and was accepted since, less what was filled on either side of a trade,
      discarded or withdrawn. */
  lemma {:induction false} RunConserves(st: State, cmds: seq<Command>, who: iset<string>)
    requires Inv(st)
    ensures Held(Run(st, cmds).0, who) == Held(st, who) + Account(st, cmds, who).Open()
  {
    hide Held, Step, Inv, Booking, Run, Account;
    AccountLast(st, cmds, who);
    if cmds == [] {
      RunNothing(st);
    } else {
      var last := cmds[|cmds| - 1];
      var before := Run(st, cmds[..|cmds| - 1]).0;
      RunLast(st, cmds);
      RunConserves(st, cmds[..|cmds| - 1], who);
      RunInv(st, cmds[..|cmds| - 1]);
      StepConserves(before, last, who);
    }
  }

  lemma StepConserves(st: State, c: Command, who: iset<string>)
    requires Inv(st)
    ensures Held(Step(st, c).0, who) == Held(st, who) + Booking(st, c, who).Open()
  {
    match c
    case Submit(o) => SubmitConserves(st, o, who);
    case Cancel(id) => CancelConserves(st, id, who);
  }

  lemma RunNothing(st: State)
    ensures Run(st, []) == (st, [])
  {
  }

  lemma AccountLast(st: State, cmds: seq<Command>, who: iset<string>)
    ensures cmds == [] ==> Account(st, cmds, who).Open() == 0
    ensures cmds != [] ==>
              var before := cmds[..|cmds| - 1];
              Account(st, cmds, who).Open() == Account(st, before, who).Open() + Booking(Run(st, before).0, cmds[|before|], who).Open()
  {
    hide Booking;
  }

  ghost function Everyone(): iset<string> {
    iset id: string | 0 <= |id|
  }

  /** The quantity traded over a run. */
  function Traded(acks: seq<Ack>): int {
    if acks == [] then 0 else Traded(acks[..|acks| - 1]) + SumFills(acks[|acks| - 1].fills)
  }

  lemma {:induction false} MadeByAll(fs: seq<Fill>)
    ensures Made(fs, Everyone()) == SumFills(fs)
  {
    if fs != [] {
      MadeByAll(fs[1..]);
      SumFillsFirst(fs);
    }
  }

  lemma {:induction false} EveryFillTwice(st: State, cmds: seq<Command>)
    ensures var all, acks := Account(st, cmds, Everyone()), Run(st, cmds).1;
            all.taken == Traded(acks) && all.made == Traded(acks)
  {
    if cmds != [] {
      var k := |cmds| - 1;
      EveryFillTwice(st, cmds[..k]);
      var s := Run(st, cmds[..k]).0;
      var a := Step(s, cmds[k]).1;
      MadeByAll(a.fills);
      assert (Run(st, cmds[..k]).1 + [a])[..|Run(st, cmds[..k]).1|] == Run(st, cmds[..k]).1;
    }
  }

  lemma EmptyHolds(who: iset<string>)
    ensures Inv(Empty) && Held(Empty, who) == 0
  {
  }

  /** From an empty book, all accepted quantity is traded twice over, resting, withdrawn or discarded. */
  lemma TotalConserved(cmds: seq<Command>)
    ensures var everyone := Everyone();
            var all := Account(Empty, cmds, everyone);
            all.accepted == 2 * Traded(Run(Empty, cmds).1) + Held(Run(Empty, cmds).0, everyone)
                          + all.withdrawn + all.discarded
  {
    hide Run, Account, Traded, Held, Everyone, Inv;
    EmptyHolds(Everyone());
    RunConserves(Empty, cmds, Everyone());
    EveryFillTwice(Empty, cmds);
  }
}
