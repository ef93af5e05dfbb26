/** When runs are closed: once, on their last batch, with everything in them. */
module Completion {
  import opened ShardTelemetry
  import opened Ingest
  import Histogram

  /** Take a whole stream of batches, of any runs; the verdicts in order. */
  function Drain(s: seq<Report>): (map<string, Agg>, seq<Verdict>) {
    if s == [] then (map[], [])
    else
      var (runs, verdicts) := Drain(s[..|s| - 1]);
      var (runs2, more) := Consume(runs, s[|s| - 1]);
      (runs2, verdicts + more)
  }

  /** The running ingester closes runs on a stream in the order Drain says. */
  method Consumer(s: seq<Report>) returns (closedRuns: seq<string>)
    ensures |closedRuns| == |Drain(s).1| && forall i :: 0 <= i < |closedRuns| ==> closedRuns[i] == Drain(s).1[i].runId
  {
    hide Consume, Ingester.Valid;
    var ing := new Ingester();
    closedRuns := [];
    for i := 0 to |s|
      invariant ing.Valid() && fresh(ing.Repr) && ing.view == Drain(s[..i]).0
      invariant |closedRuns| == |Drain(s[..i]).1|
      invariant forall k :: 0 <= k < |closedRuns| ==> closedRuns[k] == Drain(s[..i]).1[k].runId
    {
      assert s[..i + 1][..i] == s[..i];
      var closed := ing.Absorb(s[i]);
      if closed != null {
        closedRuns := closedRuns + [s[i].runId];
      }
    }
    assert s[..|s|] == s;
  }

  function VerdictsOf(vs: seq<Verdict>, id: string): seq<Verdict> {
    if vs == [] then [] else VerdictsOf(vs[..|vs| - 1], id) + (if vs[|vs| - 1].runId == id then [vs[|vs| - 1]] else [])
  }

  /** The sum of a run's batches. */
  function SumFor(s: seq<Report>, id: string): Tally {
    if s == [] then Zero
    else
      var sum := SumFor(s[..|s| - 1], id);
      if s[|s| - 1].runId == id then sum.Plus(s[|s| - 1].delta) else sum
  }

  /** The shards of a run whose final batch is in the stream. */
  function Ended(s: seq<Report>, id: string): set<int> {
    if s == [] then {}
    else
      var ended := Ended(s[..|s| - 1], id);
      if s[|s| - 1].runId == id && s[|s| - 1].final then ended + {s[|s| - 1].shard} else ended
  }

  /** The shards 0 to n - 1. */
  function Shards(n: int): (r: set<int>)
    ensures forall k :: k in r <==> 0 <= k < n
  {
    if n <= 0 then {} else Shards(n - 1) + {n - 1}
  }

  /** All batches of run id carry its n shards, no shard sends after its final batch. */
  ghost predicate InTurn(s: seq<Report>, id: string, n: int) {
    && (forall b :: b in s && b.runId == id ==> 0 <= b.shard < n && b.totalShards == n)
    && (forall i, j :: 0 <= i < j < |s| && s[i].runId == id && s[j].runId == id && s[i].shard == s[j].shard ==> !s[i].final)
  }

  lemma {:induction false} EndedIff(s: seq<Report>, id: string, k: int)
    ensures k in Ended(s, id) <==> exists i :: 0 <= i < |s| && s[i].runId == id && s[i].final && s[i].shard == k
  {
    if s != [] {
      var t := s[..|s| - 1];
      EndedIff(t, id, k);
      assert forall i :: 0 <= i < |t| ==> t[i] == s[i];
    }
  }

  lemma ShardsSize(n: nat)
    ensures |Shards(n)| == n
  {
    if n > 0 {
      ShardsSize(n - 1);
      assert Shards(n) == Shards(n - 1) + {n - 1};
    }
  }

  /** A set of shards has n members only if it is all n of them. */
  lemma FullSet(ended: set<int>, n: nat)
    requires ended <= Shards(n)
    ensures |ended| >= n <==> ended == Shards(n)
  {
    ShardsSize(n);
    if ended < Shards(n) {
      var k :| k in Shards(n) && k !in ended;
      assert ended <= Shards(n) - {k};
      SubsetSize(ended, Shards(n) - {k});
    }
  }

  lemma {:induction false} SubsetSize(a: set<int>, b: set<int>)
    requires a <= b
    ensures |a| <= |b|
    decreases |a|
  {
    if a != {} {
      Histogram.HasMember(a);
      var k :| k in a;
      SubsetSize(a - {k}, b - {k});
    }
  }

  lemma {:induction false} VerdictsOfConcat(a: seq<Verdict>, b: seq<Verdict>, id: string)
    ensures VerdictsOf(a + b, id) == VerdictsOf(a, id) + VerdictsOf(b, id)
  {
    if b == [] {
      assert a + b == a;
    } else {
      assert (a + b)[..|a + b| - 1] == a + b[..|b| - 1];
      VerdictsOfConcat(a, b[..|b| - 1], id);
    }
  }

  lemma VerdictsOfOne(v: Verdict, id: string)
    ensures VerdictsOf([v], id) == if v.runId == id then [v] else []
  {
    assert [v][..0] == [];
  }

  /** Where run id stands after a prefix of the stream: still open, or closed with all of it. */
  ghost predicate Standing(s: seq<Report>, id: string, n: int) {
    var (runs, verdicts) := Drain(s);
    var agg := Lookup(runs, id);
    if Ended(s, id) == Shards(n) then
      id !in runs && VerdictsOf(verdicts, id) == [Verdict(id, Agg(SumFor(s, id), n, Shards(n), true))]
    else
      VerdictsOf(verdicts, id) == [] && agg.sum == SumFor(s, id) && agg.finalShards == Ended(s, id) && !agg.finalized
  }

  lemma EndedWithin(s: seq<Report>, id: string, n: int)
    requires InTurn(s, id, n)
    ensures Ended(s, id) <= Shards(n)
  {
    forall k | k in Ended(s, id) ensures k in Shards(n) {
      EndedIff(s, id, k);
    }
  }

  /** One more batch. */
  lemma OneMore(s: seq<Report>, b: Report, id: string)
    ensures Drain(s + [b]) == (Consume(Drain(s).0, b).0, Drain(s).1 + Consume(Drain(s).0, b).1)
    ensures SumFor(s + [b], id) == if b.runId == id then SumFor(s, id).Plus(b.delta) else SumFor(s, id)
    ensures Ended(s + [b], id) == if b.runId == id && b.final then Ended(s, id) + {b.shard} else Ended(s, id)
  {
    assert (s + [b])[..|s|] == s;
    hide Consume;
  }

  /** The verdicts of one batch are at most one, for its own run. */
  lemma VerdictsOfBatch(runs: map<string, Agg>, b: Report, vs: seq<Verdict>, id: string)
    ensures var more := Consume(runs, b).1;
            VerdictsOf(vs + more, id) == VerdictsOf(vs, id) + (if b.runId == id then more else [])
  {
    hide Fold, VerdictsOf;
    var more := Consume(runs, b).1;
    VerdictsOfConcat(vs, more, id);
    if more != [] {
      VerdictsOfOne(more[0], id);
      assert more == [more[0]];
    } else {
      VerdictsOfNone(id);
    }
  }

  lemma VerdictsOfNone(id: string)
    ensures VerdictsOf([], id) == []
  {
  }

  /** A batch of another run changes nothing for this one. */
  lemma OtherRun(s: seq<Report>, b: Report, id: string, n: int)
    requires Standing(s, id, n) && b.runId != id
    ensures Standing(s + [b], id, n)
  {
    hide Drain, SumFor, Ended, VerdictsOf, Fold, Shards;
    OneMore(s, b, id);
    VerdictsOfBatch(Drain(s).0, b, Drain(s).1, id);
    assert VerdictsOf(Drain(s).1, id) + [] == VerdictsOf(Drain(s).1, id);
  }

  /** A batch of an open run is folded in, and closes it if it ends the last shard. */
  lemma OwnRun(s: seq<Report>, b: Report, id: string, n: int)
    requires Standing(s, id, n) && b.runId == id && n > 0 && b.totalShards == n
    requires Ended(s, id) != Shards(n) && Ended(s + [b], id) <= Shards(n)
    ensures Standing(s + [b], id, n)
  {
    hide Drain, SumFor, Ended, VerdictsOf, Shards;
    OneMore(s, b, id);
    FullSet(Ended(s + [b], id), n);
    VerdictsOfBatch(Drain(s).0, b, Drain(s).1, id);
  }

  lemma {:induction false} AlwaysStanding(s: seq<Report>, id: string, n: int)
    requires InTurn(s, id, n) && n > 0
    ensures Standing(s, id, n)
  {
    if s == [] {
      ShardsSize(n);
    } else {
      var t, b := s[..|s| - 1], s[|s| - 1];
      assert s == t + [b];
      assert InTurn(t, id, n);
      AlwaysStanding(t, id, n);
      if b.runId != id {
        OtherRun(t, b, id, n);
      } else {
        EndedWithin(s, id, n);
        NotEndedYet(t, b, id, n);
        OwnRun(t, b, id, n);
      }
    }
  }

  /** A shard that still sends has not ended. */
  lemma NotEndedYet(t: seq<Report>, b: Report, id: string, n: int)
    requires InTurn(t + [b], id, n) && b.runId == id
    ensures Ended(t, id) != Shards(n)
  {
    var s := t + [b];
    assert b in s && s[|t|] == b;
    EndedIff(t, id, b.shard);
    assert forall i :: 0 <= i < |t| ==> t[i] == s[i];
    assert b.shard in Shards(n);
  }

  /** Every shard of the run sends its final batch. */
  ghost predicate AllEnd(s: seq<Report>, id: string, n: int) {
    forall k :: 0 <= k < n ==> k in Ended(s, id)
  }

  /** For every interleaving of the shards' batches, and of other runs' batches among them, in which
      each shard ends with its final batch: the run gets exactly one verdict, over the sum of all
      its batches, and is forgotten; and not before its last batch. */
  lemma OneVerdict(s: seq<Report>, id: string, n: int)
    requires InTurn(s, id, n) && n > 0 && AllEnd(s, id, n)
    ensures VerdictsOf(Drain(s).1, id) == [Verdict(id, Agg(SumFor(s, id), n, Shards(n), true))]
    ensures id !in Drain(s).0
    ensures forall i, j :: 0 <= i <= j < |s| && s[j].runId == id ==> VerdictsOf(Drain(s[..i]).1, id) == []
  {
    AlwaysStanding(s, id, n);
    EndedWithin(s, id, n);
    assert Ended(s, id) == Shards(n);
    forall i, j | 0 <= i <= j < |s| && s[j].runId == id ensures VerdictsOf(Drain(s[..i]).1, id) == [] {
      assert InTurn(s[..i], id, n);
      AlwaysStanding(s[..i], id, n);
      EndedIff(s[..i], id, s[j].shard);
      assert s[j] in s && s[j].shard in Shards(n);
    }
  }
}
