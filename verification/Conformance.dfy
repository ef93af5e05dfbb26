/** The probe that replays a fixed scenario against the reference book and an engine
    under test, and scores how far they agree. */
module Conformance {
  import opened Protocol
  import opened PriorityList
  import opened MatchLaws
  import Go = GoBook
  import opened Engines
  import opened BotFleet

  // A probe step: a cancel if an id to cancel is given, else a submit.
  datatype ProbeStep = ProbeStep(cancel: string, order: Order)

  // What came back from the engine: an ack, or a failed request.
  datatype Reply = NoReply | Replied(ack: Ack)

  function Request(s: ProbeStep): Command {
    if s.cancel != "" then Cancel(s.cancel) else Submit(s.order)
  }

  function Requests(steps: seq<ProbeStep>): (r: seq<Command>)
    ensures |r| == |steps| && forall i :: 0 <= i < |steps| ==> r[i] == Request(steps[i])
  {
    seq(|steps|, i requires 0 <= i < |steps| => Request(steps[i]))
  }

  const NoOrder := Order("", OtherSide(""), OtherType(""), 0, 0)

  function Scenario(): seq<ProbeStep> {
    [ ProbeStep("", Order("conf-A", Buy, Limit, 10000, 10)),
      ProbeStep("", Order("conf-B", Buy, Limit, 10000, 5)),
      ProbeStep("", Order("conf-C", Sell, Limit, 9900, 12)),
      ProbeStep("", Order("conf-D", Sell, Limit, 10100, 10)),
      ProbeStep("", Order("conf-E", Buy, Market, 0, 4)),
      ProbeStep("conf-D", NoOrder),
      ProbeStep("", Order("conf-F", Buy, Limit, 10100, 3)),
      ProbeStep("", Order("conf-G", Sell, Market, 0, 100)),
      ProbeStep("", Order("conf-H", Sell, Limit, 0, 5)),
      ProbeStep("conf-D", NoOrder) ]
  }

  method SumOfFills(fs: seq<Fill>) returns (s: int)
    ensures s == SumFills(fs)
  {
    s := 0;
    for i := 0 to |fs|
      invariant s == SumFills(fs[..i])
    {
      assert fs[..i + 1][..i] == fs[..i];
      s := s + fs[i].qty;
    }
    assert fs[..|fs|] == fs;
  }

  /** Fill sequences are compared field by field, and so as wholes. */
  method FillsEqual(a: seq<Fill>, b: seq<Fill>) returns (same: bool)
    ensures same <==> a == b
  {
    if |a| != |b| {
      return false;
    }
    for i := 0 to |a|
      invariant a[..i] == b[..i]
    {
      if a[i].price != b[i].price || a[i].qty != b[i].qty || a[i].makerId != b[i].makerId {
        return false;
      }
    }
    return true;
  }

  /** The points a reply earns out of three. */
  function Points(want: Ack, got: Reply): int {
    if got.NoReply? then 0
    else
      (if got.ack.status == want.status then 1 else 0)
      + (if SumFills(got.ack.fills) == SumFills(want.fills) then 1 else 0)
      + (if got.ack.fills == want.fills then 1 else 0)
  }

  function TotalPoints(want: seq<Ack>, got: seq<Reply>): int
    requires |want| == |got|
  {
    if want == [] then 0
    else TotalPoints(want[..|want| - 1], got[..|got| - 1]) + Points(want[|want| - 1], got[|got| - 1])
  }

  /** The engine answered, with the book's status and the book's fills in order. */
  predicate Agrees(want: Ack, got: Reply) {
    got.Replied? && got.ack.status == want.status && got.ack.fills == want.fills
  }

  lemma {:induction false} FullPoints(want: seq<Ack>, got: seq<Reply>)
    requires |want| == |got|
    ensures 0 <= TotalPoints(want, got) <= 3 * |want|
    ensures TotalPoints(want, got) == 3 * |want| <==> forall i :: 0 <= i < |want| ==> Agrees(want[i], got[i])
  {
    if want != [] {
      var k := |want| - 1;
      FullPoints(want[..k], got[..k]);
      assert forall i :: 0 <= i < k ==> want[..k][i] == want[i] && got[..k][i] == got[i];
    }
  }

  // The steps answered with the wanted status, the wanted total and the wanted fills.
  function StatusHits(want: seq<Ack>, got: seq<Reply>): set<int>
    requires |want| == |got|
  {
    set i | 0 <= i < |want| && got[i].Replied? && got[i].ack.status == want[i].status
  }

  function TotalHits(want: seq<Ack>, got: seq<Reply>): set<int>
    requires |want| == |got|
  {
    set i | 0 <= i < |want| && got[i].Replied? && SumFills(got[i].ack.fills) == SumFills(want[i].fills)
  }

  function FillHits(want: seq<Ack>, got: seq<Reply>): set<int>
    requires |want| == |got|
  {
    set i | 0 <= i < |want| && got[i].Replied? && got[i].ack.fills == want[i].fills
  }

  lemma HitsMore(want: seq<Ack>, got: seq<Reply>)
    requires |want| == |got| && want != []
    ensures var k := |want| - 1;
            var w, g, w0, g0 := want[k], got[k], want[..k], got[..k];
            && StatusHits(want, got) == StatusHits(w0, g0) + (if g.Replied? && g.ack.status == w.status then {k} else {})
            && TotalHits(want, got) == TotalHits(w0, g0)
                                       + (if g.Replied? && SumFills(g.ack.fills) == SumFills(w.fills) then {k} else {})
            && FillHits(want, got) == FillHits(w0, g0) + (if g.Replied? && g.ack.fills == w.fills then {k} else {})
            && k !in StatusHits(w0, g0) && k !in TotalHits(w0, g0) && k !in FillHits(w0, g0)
  {
    hide SumFills;
  }

  /** The points are one for every step with the status, one for every step with the total and one
      for every step with the fills. */
  lemma {:induction false} PointsAreHits(want: seq<Ack>, got: seq<Reply>)
    requires |want| == |got|
    ensures TotalPoints(want, got) == |StatusHits(want, got)| + |TotalHits(want, got)| + |FillHits(want, got)|
  {
    if want == [] {
      NoHits(want, got);
    } else {
      hide StatusHits, TotalHits, FillHits, SumFills;
      HitsMore(want, got);
      PointsAreHits(want[..|want| - 1], got[..|got| - 1]);
    }
  }

  lemma NoHits(want: seq<Ack>, got: seq<Reply>)
    requires want == [] && got == []
    ensures StatusHits(want, got) == TotalHits(want, got) == FillHits(want, got) == {}
  {
  }

  /** The acks the reference book gives. */
  function Wanted(steps: seq<ProbeStep>): (w: seq<Ack>)
    ensures |w| == |steps|
  {
    RunSeqNos(Empty, Requests(steps));
    Run(Empty, Requests(steps)).1
  }

  /** The three checks of one step. */
  method Check(want: Ack, reply: Reply) returns (passed: int)
    ensures passed == Points(want, reply)
  {
    passed := 0;
    if reply.NoReply? {
      return;
    }
    if reply.ack.status == want.status {
      passed := passed + 1;
    }
    var gotSum := SumOfFills(reply.ack.fills);
    var wantSum := SumOfFills(want.fills);
    if gotSum == wantSum {
      passed := passed + 1;
    }
    var same := FillsEqual(reply.ack.fills, want.fills);
    if same {
      passed := passed + 1;
    }
  }

  /** The score is the share of passed checks, three a step: the status, the filled quantity and
      the fills. It is full exactly when the engine agrees with the book on the status and the
      complete fill sequence of every step. */
  method Conformance(steps: seq<ProbeStep>, got: seq<Reply>) returns (score: real)
    requires |got| == |steps| > 0
    ensures var want := Wanted(steps);
            IsShare(score, |StatusHits(want, got)| + |TotalHits(want, got)| + |FillHits(want, got)|, 3 * |steps|)
    ensures score == Ratio(TotalPoints(Wanted(steps), got), 3 * |steps|)
    ensures 0.0 <= score <= 1.0
    ensures score == 1.0 <==> forall i :: 0 <= i < |steps| ==> Agrees(Wanted(steps)[i], got[i])
  {
    hide *;
    var book := new Go.Book();
    var passed, checks := 0, 0;
    ghost var wants := [];
    ProgressFirst(steps, got);
    for i := 0 to |steps|
      invariant book.Valid() && fresh(book.Repr)
      invariant Progress(steps, got, i, book.Abs(), wants, passed) && checks == 3 * i
    {
      ProgressStep(steps, got, i, book.Abs(), wants, passed);
      var want := Ask(book, steps[i]);
      var points := Check(want, got[i]);
      checks := checks + 3;
      passed := passed + points;
      wants := wants + [want];
    }
    score := Ratio(passed, checks);
    Scored(steps, got, book.Abs(), wants, passed);
  }

  lemma Scored(steps: seq<ProbeStep>, got: seq<Reply>, st: State, wants: seq<Ack>, passed: int)
    requires |got| == |steps| > 0 && Progress(steps, got, |steps|, st, wants, passed)
    ensures var want, score := Wanted(steps), Ratio(passed, 3 * |steps|);
            && IsShare(score, |StatusHits(want, got)| + |TotalHits(want, got)| + |FillHits(want, got)|, 3 * |steps|)
            && score == Ratio(TotalPoints(want, got), 3 * |steps|)
            && 0.0 <= score <= 1.0
            && (score == 1.0 <==> forall i :: 0 <= i < |steps| ==> Agrees(want[i], got[i]))
  {
    hide Run, TotalPoints, Agrees, Ratio, IsShare, Progress, Wanted, StatusHits, TotalHits, FillHits;
    ProgressLast(steps, got, st, wants, passed);
    FullPoints(wants, got);
    PointsAreHits(wants, got);
    Fraction(passed, 3 * |steps|);
  }

  /** After i steps: the book's state and acks, and the points so far. */
  ghost predicate Progress(steps: seq<ProbeStep>, got: seq<Reply>, i: nat, st: State, wants: seq<Ack>, passed: int)
    requires i <= |steps| == |got|
  {
    (st, wants) == Run(Empty, Requests(steps)[..i]) && |wants| == i && passed == TotalPoints(wants, got[..i])
  }

  lemma ProgressFirst(steps: seq<ProbeStep>, got: seq<Reply>)
    requires |steps| == |got|
    ensures Progress(steps, got, 0, Empty, [], 0)
  {
  }

  lemma ProgressStep(steps: seq<ProbeStep>, got: seq<Reply>, i: nat, st: State, wants: seq<Ack>, passed: int)
    requires i < |steps| == |got| && Progress(steps, got, i, st, wants, passed)
    ensures var (st2, want) := Step(st, Request(steps[i]));
            Progress(steps, got, i + 1, st2, wants + [want], passed + Points(want, got[i]))
  {
    hide Run, Step, TotalPoints, Points;
    RunPrefix(Requests(steps), i);
    MorePoints(wants, got[..i], Step(st, Request(steps[i])).1, got[i]);
    assert got[..i + 1] == got[..i] + [got[i]];
  }

  lemma ProgressLast(steps: seq<ProbeStep>, got: seq<Reply>, st: State, wants: seq<Ack>, passed: int)
    requires |steps| == |got| && Progress(steps, got, |steps|, st, wants, passed)
    ensures wants == Wanted(steps) && passed == TotalPoints(wants, got)
  {
    hide Run, TotalPoints;
    var cmds := Requests(steps);
    hide Requests;
    assert cmds[..|steps|] == cmds;
    assert got[..|steps|] == got;
    assert Run(Empty, cmds[..|steps|]) == Run(Empty, cmds);
  }

  /** Put one step to the reference book. */
  method Ask(book: Go.Book, s: ProbeStep) returns (a: Ack)
    requires book.Valid()
    modifies book.Repr
    ensures book.Valid() && fresh(book.Repr - old(book.Repr))
    ensures (book.Abs(), a) == Step(old(book.Abs()), Request(s))
  {
    if s.cancel != "" {
      a := book.Cancel(s.cancel);
    } else {
      a := book.Submit(s.order);
    }
  }

  /** The score times all checks is the passed ones. */
  predicate IsShare(score: real, passed: int, checks: int) {
    score * checks as real == passed as real
  }

  function Ratio(p: int, n: int): real
    requires n > 0
  {
    p as real / n as real
  }

  lemma Fraction(p: int, n: int)
    requires 0 <= p <= n && n > 0
    ensures IsShare(Ratio(p, n), p, n)
    ensures 0.0 <= Ratio(p, n) <= 1.0 && (Ratio(p, n) == 1.0 <==> p == n)
  {
    var x, d := Ratio(p, n), n as real;
    assert x * d == p as real;
    Multiple(x, d);
    Multiple(1.0 - x, d);
    assert (1.0 - x) * d == d - x * d;
    hide Ratio;
  }

  /** A multiple by a positive number keeps the sign. */
  lemma Multiple(x: real, d: real)
    requires d > 0.0
    ensures x < 0.0 ==> x * d < 0.0
    ensures x == 0.0 <==> x * d == 0.0
  {
  }

  lemma MorePoints(wants: seq<Ack>, got: seq<Reply>, want: Ack, reply: Reply)
    requires |wants| == |got|
    ensures TotalPoints(wants + [want], got + [reply]) == TotalPoints(wants, got) + Points(want, reply)
  {
    assert (wants + [want])[..|wants|] == wants && (got + [reply])[..|got|] == got;
  }

  /** Neither order ids nor sequence numbers are compared: replies that differ only there score alike. */
  lemma {:induction false} OnlyStatusAndFills(want: seq<Ack>, got: seq<Reply>, got2: seq<Reply>)
    requires |want| == |got| == |got2|
    requires forall i :: 0 <= i < |got| ==>
               got[i].Replied? == got2[i].Replied?
               && (got[i].Replied? ==> got[i].ack.status == got2[i].ack.status && got[i].ack.fills == got2[i].ack.fills)
    ensures TotalPoints(want, got) == TotalPoints(want, got2)
  {
    if want != [] {
      OnlyStatusAndFills(want[..|want| - 1], got[..|got| - 1], got2[..|got2| - 1]);
    }
  }

  /** An engine that numbers every reply 0 and echoes no id still scores full marks. */
  method ProbeUnnumbered() returns (score: real)
    ensures score == 1.0
  {
    hide Run, Scenario;
    var steps := Scenario();
    ScenarioLength();
    var want := ReplayGo(Requests(steps));
    RunSeqNos(Empty, Requests(steps));
    var got := seq(|want|, i requires 0 <= i < |want| => Replied(Ack("", 0, want[i].status, want[i].fills)));
    score := Conformance(steps, got);
  }

  /** The Python engine passes the probe. */
  method ProbePython() returns (score: real)
    ensures score == 1.0
  {
    hide Run, Scenario;
    var steps := Scenario();
    ScenarioLength();
    var acks := ReplayPy(Requests(steps));
    RunSeqNos(Empty, Requests(steps));
    var got := seq(|acks|, i requires 0 <= i < |acks| => Replied(acks[i]));
    score := Conformance(steps, got);
  }

  lemma ScenarioLength()
    ensures |Scenario()| == 10
  {
  }

  // ---------- the probe, and then the fleet, on the same engine ----------

  /** Only submitted ids come to rest. */
  lemma {:induction false} RunIds(cmds: seq<Command>, id: string)
    requires id in RestingIds(Run(Empty, cmds).0)
    ensures exists i :: 0 <= i < |cmds| && cmds[i].Submit? && cmds[i].order.id == id
  {
    hide RestingIds, Step;
    if cmds == [] {
      EmptyRests();
    } else {
      var k := |cmds| - 1;
      var st := Run(Empty, cmds[..k]).0;
      EmptyInv();
      RunInv(Empty, cmds[..k]);
      StepIds(st, cmds[k]);
      if id in RestingIds(st) {
        RunIds(cmds[..k], id);
        var i :| 0 <= i < k && cmds[..k][i].Submit? && cmds[..k][i].order.id == id;
        assert cmds[i].Submit? && cmds[i].order.id == id;
      }
    }
  }

  lemma EmptyRests()
    ensures RestingIds(Run(Empty, []).0) == {}
  {
  }

  lemma EmptyInv()
    ensures Inv(Empty)
  {
  }

  /** The probe leaves nothing a bot's id could clash with: the load phase that follows it on the
      same engine trips no check and loses no order to a rejection either. */
  lemma FleetAfterProbe(bots: map<BotKey, Bot>, ts: seq<Turn>)
    requires forall k :: k in bots ==> bots[k].n == 0 && bots[k].resting == [] && bots[k].lastSeq == 0 && 9970 <= bots[k].mid < 10030
    requires MayRun(Fleet(Run(Empty, Requests(Scenario())).0, bots), ts)
    ensures var f := Fleet(Run(Empty, Requests(Scenario())).0, bots);
            Drive(f, ts).0 == [] && forall a :: a in Drive(f, ts).1 ==> a.status != Rejected
  {
    hide MayRun, Drive, Run, RestingIds, Inv;
    var cmds := Requests(Scenario());
    var f := Fleet(Run(Empty, cmds).0, bots);
    EmptyInv();
    RunInv(Empty, cmds);
    forall id | id in RestingIds(f.book) ensures id == "" || id[0] != 'b' {
      RunIds(cmds, id);
      var i :| 0 <= i < |cmds| && cmds[i].Submit? && cmds[i].order.id == id;
      ScenarioIds(i);
    }
    FleetNeverTrips(f, ts);
  }

  lemma ScenarioIds(i: nat)
    requires i < |Scenario()|
    ensures var o := Scenario()[i].order; o.id == "" || o.id[0] == 'c'
  {
  }

  // ---------- what the scenario asks for ----------

  /** A free id, told entry by entry. */
  predicate Free(l: seq<Entry>, id: string) {
    forall i :: 0 <= i < |l| ==> l[i].id != id
  }

  /** One more submit of a run: the match, and then what the state and the ack are. */
  lemma Goes(cmds: seq<Command>, i: nat, st: State, acks: seq<Ack>, o: Order, st2: State, a: Ack)
    requires i < |cmds| && cmds[i] == Submit(o) && Run(Empty, cmds[..i]) == (st, acks)
    requires WellFormed(o) && Free(st.bids, o.id) && Free(st.asks, o.id)
    requires var s := Opposite(o.side);
             var m := Match(st.List(s), o, o.qty);
             var st1 := st.(seqNo := st.seqNo + 1).With(s, m.rest);
             && a.orderId == o.id && a.seqNo == st.seqNo + 1 && a.fills == m.fills
             && if m.remaining == 0 then a.status == Filled && st2 == st1
                else if o.typ.Market? then a.status == (if m.remaining < o.qty then Partial else Canceled) && st2 == st1
                else a.status == (if m.remaining < o.qty then Partial else Resting)
                     && st2 == st1.With(o.side, Insert(st1.List(o.side), o.side, Entry(o.id, o.price, m.remaining)))
    ensures Run(Empty, cmds[..i + 1]) == (st2, acks + [a])
  {
    NotAmong(st.bids, o.id);
    NotAmong(st.asks, o.id);
    hide Match, Insert, Ids;
    assert cmds[..i + 1][..i] == cmds[..i];
  }

  /** One more request that changes no entry but the cancelled one. */
  lemma GoesCancel(cmds: seq<Command>, i: nat, st: State, acks: seq<Ack>, id: string, st2: State, a: Ack)
    requires i < |cmds| && cmds[i] == Command.Cancel(id) && Run(Empty, cmds[..i]) == (st, acks)
    requires Free(st.bids, id) && a.orderId == id && a.seqNo == st.seqNo + 1 && a.fills == []
    requires if Free(st.asks, id) then a.status == Unknown && st2 == st.(seqNo := st.seqNo + 1)
             else a.status == Canceled && st2 == st.(seqNo := st.seqNo + 1, asks := Remove(st.asks, id))
    ensures Run(Empty, cmds[..i + 1]) == (st2, acks + [a])
  {
    NotAmong(st.bids, id);
    NotAmong(st.asks, id);
    hide Remove, Ids;
    assert cmds[..i + 1][..i] == cmds[..i];
  }

  lemma GoesRejected(cmds: seq<Command>, i: nat, st: State, acks: seq<Ack>, o: Order)
    requires i < |cmds| && cmds[i] == Submit(o) && Run(Empty, cmds[..i]) == (st, acks) && !WellFormed(o)
    ensures Run(Empty, cmds[..i + 1]) == (st.(seqNo := st.seqNo + 1), acks + [Ack(o.id, st.seqNo + 1, Rejected, [])])
  {
    hide Ids;
    assert cmds[..i + 1][..i] == cmds[..i];
  }

  lemma MatchOne(e: Entry, o: Order, qty: int)
    requires qty > 0 && e.qty > 0
    ensures Match([], o, qty) == MatchResult([], [], qty)
    ensures Match([e], o, qty) ==
            if !Accepts(o, e.price) then MatchResult([], [e], qty)
            else if qty < e.qty then MatchResult([Fill(e.price, qty, e.id)], [e.(qty := e.qty - qty)], 0)
            else MatchResult([Fill(e.price, e.qty, e.id)], [], qty - e.qty)
  {
    assert [e][1..] == [];
  }

  lemma MatchTwo(e: Entry, d: Entry, o: Order, qty: int)
    requires 0 < e.qty < qty && d.qty > 0 && Accepts(o, e.price) && Accepts(o, d.price)
    ensures Match([e, d], o, qty) ==
            if qty - e.qty < d.qty then
              MatchResult([Fill(e.price, e.qty, e.id), Fill(d.price, qty - e.qty, d.id)], [d.(qty := d.qty + e.qty - qty)], 0)
            else MatchResult([Fill(e.price, e.qty, e.id), Fill(d.price, d.qty, d.id)], [], qty - e.qty - d.qty)
  {
    assert [e, d][1..] == [d];
    MatchOne(d, o, qty - e.qty);
  }

  lemma InsertOne(s: Side, d: Entry, e: Entry)
    ensures Insert([], s, e) == [e]
    ensures Insert([d], s, e) == if Better(s, e.price, d.price) then [e, d] else [d, e]
  {
    assert [d][1..] == [];
  }

  lemma RunNone()
    ensures Run(Empty, []) == (Empty, [])
  {
  }

  lemma RemoveOne(e: Entry)
    ensures Remove([e], e.id) == []
  {
    assert [e][1..] == [];
  }

  /** A bid, a second one behind it, and a sell that takes the first whole and some of the second. */
  lemma FirstThree()
    ensures Run(Empty, Requests(Scenario())[..3]) ==
            (State([Entry("conf-B", 10000, 3)], [], 3),
             [Ack("conf-A", 1, Resting, []), Ack("conf-B", 2, Resting, []),
              Ack("conf-C", 3, Filled, [Fill(10000, 10, "conf-A"), Fill(10000, 2, "conf-B")])])
  {
    hide Run, Insert, Match, Requests;
    var r, s := Requests(Scenario()), Scenario();
    var a, b, b3 := Entry("conf-A", 10000, 10), Entry("conf-B", 10000, 5), Entry("conf-B", 10000, 3);
    var k1, k2 := Ack("conf-A", 1, Resting, []), Ack("conf-B", 2, Resting, []);
    var k3 := Ack("conf-C", 3, Filled, [Fill(10000, 10, "conf-A"), Fill(10000, 2, "conf-B")]);
    assert a.id[5] != b.id[5] && s[2].order.id[5] != a.id[5] && s[2].order.id[5] != b.id[5];
    RunNone();
    assert r[..0] == [] && [] + [k1] == [k1] && [k1] + [k2] == [k1, k2] && [k1, k2] + [k3] == [k1, k2, k3];
    MatchOne(a, s[0].order, 10);
    InsertOne(Buy, a, a);
    Goes(r, 0, Empty, [], s[0].order, State([a], [], 1), k1);
    MatchOne(a, s[1].order, 5);
    InsertOne(Buy, a, b);
    Goes(r, 1, State([a], [], 1), [k1], s[1].order, State([a, b], [], 2), k2);
    MatchTwo(a, b, s[2].order, 12);
    Goes(r, 2, State([a, b], [], 2), [k1, k2], s[2].order, State([b3], [], 3), k3);
  }

  /** An ask, a market buy that takes some of it, and its cancel. */
  lemma NextThree()
    ensures var acks := Run(Empty, Requests(Scenario())[..3]).1;
            Run(Empty, Requests(Scenario())[..6]) ==
            (State([Entry("conf-B", 10000, 3)], [], 6),
             acks + [Ack("conf-D", 4, Resting, [])] + [Ack("conf-E", 5, Filled, [Fill(10100, 4, "conf-D")])]
             + [Ack("conf-D", 6, Canceled, [])])
  {
    hide Run, Insert, Match, Requests, Remove;
    FirstThree();
    var r, s := Requests(Scenario()), Scenario();
    var b, d, d6 := Entry("conf-B", 10000, 3), Entry("conf-D", 10100, 10), Entry("conf-D", 10100, 6);
    var acks := Run(Empty, r[..3]).1;
    var k4, k5 := Ack("conf-D", 4, Resting, []), Ack("conf-E", 5, Filled, [Fill(10100, 4, "conf-D")]);
    assert d.id[5] != b.id[5] && s[4].order.id[5] != b.id[5] && s[4].order.id[5] != d.id[5] && [d6][0].id == d.id;
    MatchOne(b, s[3].order, 10);
    InsertOne(Sell, d, d);
    Goes(r, 3, State([b], [], 3), acks, s[3].order, State([b], [d], 4), k4);
    MatchOne(d, s[4].order, 4);
    Goes(r, 4, State([b], [d], 4), acks + [k4], s[4].order, State([b], [d6], 5), k5);
    RemoveOne(d6);
    GoesCancel(r, 5, State([b], [d6], 5), acks + [k4] + [k5], d.id, State([b], [], 6), Ack("conf-D", 6, Canceled, []));
  }

  /** A better bid, a market sell that sweeps both, an unpriced limit, and a cancel of what is gone. */
  lemma LastFour()
    ensures var acks := Run(Empty, Requests(Scenario())[..6]).1;
            Wanted(Scenario()) ==
            acks + [Ack("conf-F", 7, Resting, [])]
            + [Ack("conf-G", 8, Partial, [Fill(10100, 3, "conf-F"), Fill(10000, 3, "conf-B")])]
            + [Ack("conf-H", 9, Rejected, [])] + [Ack("conf-D", 10, Unknown, [])]
  {
    hide Run, Insert, Match, Remove, Requests;
    NextThree();
    var r, s := Requests(Scenario()), Scenario();
    var b, f := Entry("conf-B", 10000, 3), Entry("conf-F", 10100, 3);
    var acks := Run(Empty, r[..6]).1;
    var k7 := Ack("conf-F", 7, Resting, []);
    var k8 := Ack("conf-G", 8, Partial, [Fill(10100, 3, "conf-F"), Fill(10000, 3, "conf-B")]);
    assert f.id[5] != b.id[5] && s[7].order.id[5] != b.id[5] && s[7].order.id[5] != f.id[5];
    MatchOne(b, s[6].order, 3);
    InsertOne(Buy, b, f);
    Goes(r, 6, State([b], [], 6), acks, s[6].order, State([f, b], [], 7), k7);
    MatchTwo(f, b, s[7].order, 100);
    Goes(r, 7, State([f, b], [], 7), acks + [k7], s[7].order, State([], [], 8), k8);
    GoesRejected(r, 8, State([], [], 8), acks + [k7] + [k8], s[8].order);
    GoesCancel(r, 9, State([], [], 9), acks + [k7] + [k8] + [Ack("conf-H", 9, Rejected, [])], "conf-D",
               State([], [], 10), Ack("conf-D", 10, Unknown, []));
    assert r[..10] == r;
  }

  /** What the book answers to the scenario: fills follow price and then time, a cancel finds its
      order once, and an unpriced limit is refused. */
  lemma ScenarioAcks()
    ensures Wanted(Scenario()) ==
            [Ack("conf-A", 1, Resting, []), Ack("conf-B", 2, Resting, []),
             Ack("conf-C", 3, Filled, [Fill(10000, 10, "conf-A"), Fill(10000, 2, "conf-B")]),
             Ack("conf-D", 4, Resting, []), Ack("conf-E", 5, Filled, [Fill(10100, 4, "conf-D")]),
             Ack("conf-D", 6, Canceled, []), Ack("conf-F", 7, Resting, []),
             Ack("conf-G", 8, Partial, [Fill(10100, 3, "conf-F"), Fill(10000, 3, "conf-B")]),
             Ack("conf-H", 9, Rejected, []), Ack("conf-D", 10, Unknown, [])]
  {
    hide Wanted, Run, Requests, Scenario;
    FirstThree();
    NextThree();
    LastFour();
  }
}
