/** The two engines side by side. */
module Engines {
  import opened Protocol
  import opened PriorityList
  import opened MatchLaws
  import Ladder
  import PriceTimeAudit
  import GoBook
  import PyBook

  /** Replay the same requests against a fresh book of each kind: identical replies, one per
      request, and they pass the price-time audit. */
  method SideBySide(cmds: seq<Command>) returns (go: seq<Ack>, py: seq<Ack>)
    ensures go == py == Run(Empty, cmds).1 && |go| == |cmds|
    ensures PriceTimeAudit.AuditRun(PriceTimeAudit.Pool(map[], 0), cmds, go).Some?
  {
    hide Run;
    go := ReplayGo(cmds);
    py := ReplayPy(cmds);
    RunSeqNos(Empty, cmds);
    PriceTimeAudit.AuditDecides(cmds, go);
  }

  method ReplayGo(cmds: seq<Command>) returns (acks: seq<Ack>)
    ensures acks == Run(Empty, cmds).1
  {
    hide Step, Run;
    var book := new GoBook.Book();
    acks := [];
    RunPrefix(cmds, 0);
    for i := 0 to |cmds|
      invariant book.Valid() && fresh(book.Repr)
      invariant (book.Abs(), acks) == Run(Empty, cmds[..i])
    {
      RunPrefix(cmds, i);
      var a := GoReply(book, cmds[i]);
      acks := acks + [a];
    }
    assert cmds[..|cmds|] == cmds;
  }

  method ReplayPy(cmds: seq<Command>) returns (acks: seq<Ack>)
    ensures acks == Run(Empty, cmds).1
  {
    hide Step, Run;
    var book := new PyBook.Book();
    acks := [];
    RunPrefix(cmds, 0);
    for i := 0 to |cmds|
      invariant book.Valid() && fresh(book)
      invariant (book.Abs(), acks) == Run(Empty, cmds[..i])
    {
      RunPrefix(cmds, i);
      var a := PyReply(book, cmds[i]);
      acks := acks + [a];
    }
    assert cmds[..|cmds|] == cmds;
  }

  lemma RunPrefix(cmds: seq<Command>, i: nat)
    requires i <= |cmds|
    ensures i == 0 ==> Run(Empty, cmds[..i]) == (Empty, [])
    ensures i < |cmds| ==>
              var (s, acks) := Run(Empty, cmds[..i]);
              Run(Empty, cmds[..i + 1]) == (Step(s, cmds[i]).0, acks + [Step(s, cmds[i]).1])
  {
    hide Step;
    if i < |cmds| {
      RunLast(Empty, cmds[..i + 1]);
      assert cmds[..i + 1][..i] == cmds[..i];
    }
  }

  method GoReply(book: GoBook.Book, c: Command) returns (a: Ack)
    requires book.Valid()
    modifies book.Repr
    ensures book.Valid() && fresh(book.Repr - old(book.Repr))
    ensures (book.Abs(), a) == Step(old(book.Abs()), c)
  {
    match c {
      case Submit(o) => a := book.Submit(o);
      case Cancel(id) => a := book.Cancel(id);
    }
  }

  method PyReply(book: PyBook.Book, c: Command) returns (a: Ack)
    requires book.Valid()
    modifies book
    ensures book.Valid() && (book.Abs(), a) == Step(old(book.Abs()), c)
  {
    match c {
      case Submit(o) => a := book.Submit(o);
      case Cancel(id) => a := book.Cancel(id);
    }
  }

  /** An order that rests without trading, cancelled at once, leaves every level and queue of
      both ladders and every indexed id as they were, whether it joined a level or opened one. */
  method RestAndCancel(book: GoBook.Book, o: Order)
    requires book.Valid() && !Rejects(book.Abs(), o) && o.typ.Limit? && NothingToTake(book.Abs(), o)
    modifies book.Repr
    ensures book.Valid() && book.bidsV == old(book.bidsV) && book.asksV == old(book.asksV)
    ensures book.byID.Keys == old(book.byID.Keys) && book.seqNo == old(book.seqNo) + 2
  {
    hide SubmitOrder, CancelOrder, Inv, NothingToTake, RestingIds;
    ghost var st, bids, asks := book.Abs(), book.bidsV, book.asksV;
    Ladders(book);
    book.IndexExact();
    Unfilled(st, o);
    SubmitCancel(st, o);
    var a := book.Submit(o);
    var b := book.Cancel(o.id);
    Ladders(book);
    book.IndexExact();
    SameBook(st, book.Abs());
    Ladder.Canonical(Buy, book.bidsV, bids);
    Ladder.Canonical(Sell, book.asksV, asks);
  }

  lemma Ladders(book: GoBook.Book)
    requires book.Valid()
    ensures Ladder.Shape(Buy, book.bidsV) && Ladder.Full(book.bidsV) && Ladder.Shape(Sell, book.asksV) && Ladder.Full(book.asksV)
    ensures book.Abs().bids == Ladder.Flatten(book.bidsV) && book.Abs().asks == Ladder.Flatten(book.asksV)
    ensures Inv(book.Abs())
  {
  }

  lemma Unfilled(st: State, o: Order)
    requires Inv(st) && !Rejects(st, o) && o.typ.Limit? && NothingToTake(st, o)
    ensures SubmitOrder(st, o).1.fills == [] && o.id in RestingIds(SubmitOrder(st, o).0) && o.id !in RestingIds(st)
  {
    hide Match, Insert, RestingIds;
    StatusMeaning(st, o);
    NoFills(st, o);
  }

  lemma SameBook(st: State, st2: State)
    requires st2 == st.(seqNo := st.seqNo + 2)
    ensures st2.bids == st.bids && st2.asks == st.asks && RestingIds(st2) == RestingIds(st)
  {
  }
}
