/** From the bots to the verdict: any number of shards, each with any interleaving of its
    bots and its flusher, delivered over the stream in any interleaving of the shards. */
module Pipeline {
  import opened Sums
  import opened ShardTelemetry
  import opened Ingest
  import opened Completion

  /** The batches of one shard of a run, in stream order. */
  function Lane(s: seq<Report>, id: string, k: int): seq<Batch> {
    if s == [] then []
    else
      var b := s[|s| - 1];
      Lane(s[..|s| - 1], id, k) + (if b.runId == id && b.shard == k then [Batch(b.final, b.delta)] else [])
  }

  /** A shard whose final flush is out. */
  ghost predicate Complete(shard: Shard) {
    && shard.shipped != [] && SumOf(shard.shipped) == shard.seen && Balanced(shard.seen)
    && forall k :: 0 <= k < |shard.shipped| ==> (shard.shipped[k].final <==> k == |shard.shipped| - 1)
  }

  /** The stream carries what the shards shipped, shard by shard in order, and other runs' batches besides. */
  ghost predicate Delivered(s: seq<Report>, id: string, shards: seq<Shard>) {
    && (forall b :: b in s && b.runId == id ==> 0 <= b.shard < |shards| && b.totalShards == |shards|)
    && (forall k :: 0 <= k < |shards| ==> Lane(s, id, k) == shards[k].shipped)
  }

  /** All that the bots of all shards recorded. */
  function SeenBy(shards: seq<Shard>): Tally {
    if shards == [] then Zero else SeenBy(shards[..|shards| - 1]).Plus(shards[|shards| - 1].seen)
  }

  lemma LaneMore(s: seq<Report>, b: Report, id: string, k: int)
    ensures Lane(s + [b], id, k) == Lane(s, id, k) + (if b.runId == id && b.shard == k then [Batch(b.final, b.delta)] else [])
  {
    assert (s + [b])[..|s|] == s;
  }

  lemma {:induction false} LanePrefix(s: seq<Report>, id: string, k: int, i: nat)
    requires i <= |s|
    ensures Lane(s[..i], id, k) <= Lane(s, id, k)
    decreases |s| - i
  {
    if i == |s| {
      assert s[..i] == s;
    } else {
      LanePrefix(s, id, k, i + 1);
      assert s[..i + 1] == s[..i] + [s[i]];
      LaneMore(s[..i], s[i], id, k);
    }
  }

  /** Batch i of the stream sits in its lane right behind those before it. */
  lemma LaneAt(s: seq<Report>, id: string, i: nat)
    requires i < |s| && s[i].runId == id
    ensures var k := s[i].shard;
            var at := |Lane(s[..i], id, k)|;
            at < |Lane(s, id, k)| && Lane(s, id, k)[at] == Batch(s[i].final, s[i].delta)
            && |Lane(s[..i + 1], id, k)| == at + 1
  {
    hide Lane;
    assert s[..i + 1] == s[..i] + [s[i]];
    LaneMore(s[..i], s[i], id, s[i].shard);
    LanePrefix(s, id, s[i].shard, i + 1);
  }

  /** A final batch ends its lane: nothing of the shard follows. */
  lemma FinalEndsLane(s: seq<Report>, id: string, shard: Shard, i: nat, j: nat)
    requires i < j < |s| && s[i].runId == id && s[j].runId == id && s[i].shard == s[j].shard
    requires Complete(shard) && Lane(s, id, s[i].shard) == shard.shipped
    ensures !s[i].final
  {
    hide Lane, SumOf, Balanced;
    LaneAt(s, id, i);
    LaneAt(s, id, j);
    LanePrefix(s[..j], id, s[i].shard, i + 1);
    assert s[..j][..i + 1] == s[..i + 1];
    var at := |Lane(s[..i], id, s[i].shard)|;
    assert at < |shard.shipped| - 1 && shard.shipped[at].final == s[i].final;
  }

  /** A final batch in a lane is a shard that has ended. */
  lemma {:induction false} LaneEnds(s: seq<Report>, id: string, k: int, i: nat)
    requires i < |Lane(s, id, k)| && Lane(s, id, k)[i].final
    ensures k in Ended(s, id)
  {
    var t, b := s[..|s| - 1], s[|s| - 1];
    if i < |Lane(t, id, k)| {
      LaneEnds(t, id, k, i);
    }
  }

  /** The lanes of the first m shards, summed. */
  function SumLanes(s: seq<Report>, id: string, m: nat): Tally {
    if m == 0 then Zero else SumLanes(s, id, m - 1).Plus(SumOf(Lane(s, id, m - 1)))
  }

  lemma Exchange(a: Tally, b: Tally, c: Tally)
    ensures a.Plus(b).Plus(c) == a.Plus(c).Plus(b) && a.Plus(b.Plus(c)) == a.Plus(b).Plus(c)
  {
    assert a.hist + b.hist + c.hist == a.hist + c.hist + b.hist;
    assert a.secAcks + b.secAcks + c.secAcks == a.secAcks + c.secAcks + b.secAcks;
    assert a.secErrs + b.secErrs + c.secErrs == a.secErrs + c.secErrs + b.secErrs;
    assert a.hist + (b.hist + c.hist) == a.hist + b.hist + c.hist;
    assert a.secAcks + (b.secAcks + c.secAcks) == a.secAcks + b.secAcks + c.secAcks;
    assert a.secErrs + (b.secErrs + c.secErrs) == a.secErrs + b.secErrs + c.secErrs;
  }

  lemma LaneSum(s: seq<Report>, b: Report, id: string, k: int)
    ensures SumOf(Lane(s + [b], id, k)) ==
            if b.runId == id && b.shard == k then SumOf(Lane(s, id, k)).Plus(b.delta) else SumOf(Lane(s, id, k))
  {
    LaneMore(s, b, id, k);
    hide SumOf, Lane;
    SumOfMore(Lane(s, id, k), Batch(b.final, b.delta));
    assert Lane(s, id, k) + [] == Lane(s, id, k);
  }

  lemma {:induction false} SumLanesMore(s: seq<Report>, b: Report, id: string, m: nat)
    ensures SumLanes(s + [b], id, m) ==
            if b.runId == id && 0 <= b.shard < m then SumLanes(s, id, m).Plus(b.delta) else SumLanes(s, id, m)
    decreases m
  {
    hide SumOf, Lane, Tally.Plus;
    if m > 0 {
      SumLanesMore(s, b, id, m - 1);
      LaneSum(s, b, id, m - 1);
      Exchange(SumLanes(s, id, m - 1), SumOf(Lane(s, id, m - 1)), b.delta);
      Exchange(SumLanes(s, id, m - 1), b.delta, SumOf(Lane(s, id, m - 1)));
    }
  }

  lemma {:induction false} SumLanesNone(id: string, m: nat)
    ensures SumLanes([], id, m) == Zero
    decreases m
  {
    ZeroPlusZero();
    hide Tally.Plus;
    if m > 0 {
      SumLanesNone(id, m - 1);
      NoLane(id, m - 1);
    }
  }

  lemma ZeroPlusZero()
    ensures Zero.Plus(Zero) == Zero
  {
  }

  lemma NoLane(id: string, k: int)
    ensures SumOf(Lane([], id, k)) == Zero
  {
  }

  /** A run's batches sum lane by lane. */
  lemma {:induction false} SumByLane(s: seq<Report>, id: string, n: nat)
    requires forall b :: b in s && b.runId == id ==> 0 <= b.shard < n
    ensures SumFor(s, id) == SumLanes(s, id, n)
  {
    if s == [] {
      SumLanesNone(id, n);
    } else {
      var t, b := s[..|s| - 1], s[|s| - 1];
      assert s == t + [b] && b in s;
      SumByLane(t, id, n);
      SumLanesMore(t, b, id, n);
    }
  }

  lemma {:induction false} LanesAreShards(s: seq<Report>, id: string, shards: seq<Shard>, m: nat)
    requires m <= |shards| && forall k :: 0 <= k < |shards| ==> Complete(shards[k]) && Lane(s, id, k) == shards[k].shipped
    ensures SumLanes(s, id, m) == SeenBy(shards[..m]) && Balanced(SeenBy(shards[..m]))
    decreases m
  {
    hide Tally.Plus, SumOf, Lane, Complete, Balanced, SeenBy;
    if m == 0 {
      SeenByNone(shards[..m]);
    } else {
      LanesAreShards(s, id, shards, m - 1);
      SeenByNext(shards, m - 1);
      CompleteSum(shards[m - 1]);
      BalancedPlus(SeenBy(shards[..m - 1]), shards[m - 1].seen);
    }
  }

  lemma SeenByNone(shards: seq<Shard>)
    requires shards == []
    ensures SeenBy(shards) == Zero && Balanced(SeenBy(shards))
  {
  }

  lemma SeenByNext(shards: seq<Shard>, k: nat)
    requires k < |shards|
    ensures SeenBy(shards[..k + 1]) == SeenBy(shards[..k]).Plus(shards[k].seen)
  {
    hide Tally.Plus;
    assert shards[..k + 1][..k] == shards[..k];
  }

  lemma CompleteSum(shard: Shard)
    requires Complete(shard)
    ensures SumOf(shard.shipped) == shard.seen && Balanced(shard.seen)
  {
  }

  lemma BalancedPlus(a: Tally, b: Tally)
    requires Balanced(a) && Balanced(b)
    ensures Balanced(a.Plus(b))
  {
  }

  lemma DeliveredInTurn(s: seq<Report>, id: string, shards: seq<Shard>)
    requires Delivered(s, id, shards) && forall k :: 0 <= k < |shards| ==> Complete(shards[k])
    ensures InTurn(s, id, |shards|) && AllEnd(s, id, |shards|)
  {
    hide Complete, Lane, Ended;
    forall i, j | 0 <= i < j < |s| && s[i].runId == id && s[j].runId == id && s[i].shard == s[j].shard
      ensures !s[i].final
    {
      assert s[i] in s;
      FinalEndsLane(s, id, shards[s[i].shard], i, j);
    }
    forall k | 0 <= k < |shards| ensures k in Ended(s, id) {
      LastIsFinal(shards[k]);
      LaneEnds(s, id, k, |shards[k].shipped| - 1);
    }
  }

  lemma LastIsFinal(shard: Shard)
    requires Complete(shard)
    ensures shard.shipped != [] && shard.shipped[|shard.shipped| - 1].final
  {
  }

  /** The verdict of a run is over exactly what the bots of all its shards recorded, once, and
      that record is balanced: as many latencies as acks as ticked ack seconds, as many errors as
      ticked error seconds, and every request sent is one or the other. */
  lemma VerdictIsWhatBotsRecorded(s: seq<Report>, id: string, shards: seq<Shard>)
    requires |shards| > 0 && Delivered(s, id, shards) && forall k :: 0 <= k < |shards| ==> Complete(shards[k])
    ensures VerdictsOf(Drain(s).1, id) == [Verdict(id, Agg(SeenBy(shards), |shards|, Shards(|shards|), true))]
    ensures Balanced(SeenBy(shards))
  {
    hide Complete, Drain, VerdictsOf, Lane, SumFor, SumLanes, Shards, Balanced;
    DeliveredInTurn(s, id, shards);
    OneVerdict(s, id, |shards|);
    SumByLane(s, id, |shards|);
    LanesAreShards(s, id, shards, |shards|);
    assert shards[..|shards|] == shards;
  }

  /** Every shard that has run to the end of its final flush is complete. */
  lemma FinishedIsComplete(n: nat, actions: seq<Action>)
    requires MayRun(Start(n), actions) && After(Start(n), actions).flusher.Finished?
    ensures Complete(After(Start(n), actions))
  {
    FinalFlushShipsAll(n, actions);
  }

  // ---------- from the bots' actions to the verdict ----------

  // What one shard did: its number of bots and the order of all its steps.
  datatype ShardRun = ShardRun(bots: nat, actions: seq<Action>)

  ghost predicate Finishes(r: ShardRun) {
    MayRun(Start(r.bots), r.actions) && After(Start(r.bots), r.actions).flusher.Finished?
  }

  function Ran(r: ShardRun): Shard
    requires Finishes(r)
  {
    After(Start(r.bots), r.actions)
  }

  /** The actions of all shards. */
  function AllActions(rs: seq<ShardRun>): seq<Action> {
    if rs == [] then [] else AllActions(rs[..|rs| - 1]) + rs[|rs| - 1].actions
  }

  lemma TallyPlus(t: Tally, a: seq<Action>, u: Tally, b: seq<Action>)
    requires TallyOf(t, a) && TallyOf(u, b)
    ensures TallyOf(t.Plus(u), a + b)
  {
    hide Count, Gather;
    CountConcat(a, b, Sends);
    CountConcat(a, b, Acks);
    CountConcat(a, b, Fails);
    CountConcat(a, b, Violates);
    CountConcat(a, b, Found);
    GatherConcat(a, b, Latency);
    GatherConcat(a, b, AckSecond);
    GatherConcat(a, b, ErrSecond);
  }

  lemma NoActions()
    ensures TallyOf(Zero, [])
  {
  }

  lemma {:induction false} SeenIsDone(rs: seq<ShardRun>, shards: seq<Shard>)
    requires |shards| == |rs| && forall k :: 0 <= k < |rs| ==> Finishes(rs[k]) && shards[k] == Ran(rs[k])
    ensures TallyOf(SeenBy(shards), AllActions(rs))
  {
    hide TallyOf, Tally.Plus, MayRun, After, Start;
    if rs == [] {
      NoActions();
    } else {
      var m := |rs| - 1;
      SeenIsDone(rs[..m], shards[..m]);
      FinalFlushShipsAll(rs[m].bots, rs[m].actions);
      TallyPlus(SeenBy(shards[..m]), AllActions(rs[..m]), shards[m].seen, rs[m].actions);
    }
  }

  /** End to end, over every interleaving of every shard's bots and flusher and of the shards on
      the stream: a run gets one verdict, and its counters, latencies and seconds are those of
      the bots' actions, all shards together. */
  lemma VerdictTalliesActions(s: seq<Report>, id: string, rs: seq<ShardRun>)
    requires |rs| > 0 && forall k :: 0 <= k < |rs| ==> Finishes(rs[k])
    requires Delivered(s, id, seq(|rs|, k requires 0 <= k < |rs| => Ran(rs[k])))
    ensures var vs := VerdictsOf(Drain(s).1, id);
            |vs| == 1 && vs[0].runId == id && vs[0].agg.totalShards == |rs| && vs[0].agg.finalized
            && TallyOf(vs[0].agg.sum, AllActions(rs)) && Balanced(vs[0].agg.sum)
  {
    hide Delivered, Drain, VerdictsOf, TallyOf, SeenBy, Balanced, Complete, MayRun, After, Start;
    var shards := seq(|rs|, k requires 0 <= k < |rs| => Ran(rs[k]));
    forall k | 0 <= k < |shards| ensures Complete(shards[k]) {
      FinishedIsComplete(rs[k].bots, rs[k].actions);
    }
    VerdictIsWhatBotsRecorded(s, id, shards);
    SeenIsDone(rs, shards);
  }
}
