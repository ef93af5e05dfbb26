/** What a run's aggregate holds, and what its verdict is over, told from the actions of the
    consumer and the sweeper alone. */
module HeldData {
  import opened Sums
  import opened Ingest
  import opened StaleSweep
  import T = ShardTelemetry

  predicate IsBatchOf(a: Action, id: string) {
    a.Absorb? && a.b.runId == id
  }

  /** The deltas of the run's batches, in order. */
  function Deltas(actions: seq<Action>, id: string): seq<T.Tally> {
    if actions == [] then []
    else
      var a := actions[|actions| - 1];
      Deltas(actions[..|actions| - 1], id) + (if IsBatchOf(a, id) then [a.b.delta] else [])
  }

  /** The shards of the run whose final batch is among the actions. */
  function EndedIn(actions: seq<Action>, id: string): set<int> {
    set a | a in actions && IsBatchOf(a, id) && a.b.final :: a.b.shard
  }

  function Sent(t: T.Tally): int { t.sent }
  function Acked(t: T.Tally): int { t.acked }
  function Errors(t: T.Tally): int { t.errors }
  function Violations(t: T.Tally): int { t.violations }
  function Latencies(t: T.Tally): multiset<int> { t.hist }
  function AckSeconds(t: T.Tally): multiset<int> { t.secAcks }
  function ErrSeconds(t: T.Tally): multiset<int> { t.secErrs }

  ghost predicate IsSum(t: T.Tally, ds: seq<T.Tally>) {
    && t.sent == Count(ds, Sent) && t.acked == Count(ds, Acked)
    && t.errors == Count(ds, Errors) && t.violations == Count(ds, Violations)
    && t.hist == Gather(ds, Latencies)
    && t.secAcks == Gather(ds, AckSeconds) && t.secErrs == Gather(ds, ErrSeconds)
  }

  /** Where the run starts afresh: right after its last conclusion. */
  function Since(actions: seq<Action>, id: string): (lo: nat)
    ensures lo <= |actions| && (lo == 0 || actions[lo - 1] == Conclude(id)) && Conclude(id) !in actions[lo..]
  {
    if actions == [] then 0
    else if actions[|actions| - 1] == Conclude(id) then |actions|
    else
      var front := actions[..|actions| - 1];
      var lo := Since(front, id);
      assert actions[lo..] == front[lo..] + [actions[|actions| - 1]];
      lo
  }

  /** Action j marks the run: a sweep, or a batch after which all its shards have ended. */
  ghost predicate Marks(actions: seq<Action>, id: string, lo: nat, j: nat)
    requires lo <= j < |actions|
  {
    || actions[j] == Sweep(id)
    || (IsBatchOf(actions[j], id) && 0 < actions[j].b.totalShards <= |EndedIn(actions[lo..j + 1], id)|)
  }

  /** The aggregate holds the batches of the run from action lo up to action hi, where it was
      marked, or to the end if it is not. */
  ghost predicate Holds(agg: Agg, actions: seq<Action>, id: string, lo: nat, hi: nat) {
    && lo <= hi <= |actions|
    && IsSum(agg.sum, Deltas(actions[lo..hi], id))
    && agg.finalShards == EndedIn(actions[lo..hi], id)
    && (if agg.finalized then hi > lo && Marks(actions, id, lo, hi - 1) else hi == |actions|)
    && forall j :: lo <= j < (if agg.finalized then hi - 1 else hi) ==> !Marks(actions, id, lo, j)
  }

  function AggOf(d: Desk, id: string): Agg {
    if id in d.runs then d.runs[id].agg else NewAgg
  }

  /** The run is open exactly if a batch of it came in since it was last concluded, and then holds
      those up to its mark. */
  ghost predicate Open(d: Desk, actions: seq<Action>, id: string) {
    var lo := Since(actions, id);
    && (id in d.runs <==> Deltas(actions[lo..], id) != [])
    && exists hi: nat :: Holds(AggOf(d, id), actions, id, lo, hi)
  }

  function Concludes(a: Action): int { if a.Conclude? then 1 else 0 }

  /** Verdict k is that of conclusion k, over what the run held then. */
  ghost predicate Settled(v: Outcome, actions: seq<Action>, k: nat, c: nat, hi: nat) {
    && c < |actions| && actions[c] == Conclude(v.runId) && Count(actions[..c], Concludes) == k
    && v.closed.agg.finalized
    && Holds(v.closed.agg, actions[..c], v.runId, Since(actions[..c], v.runId), hi)
  }

  ghost predicate IsVerdict(v: Outcome, actions: seq<Action>, k: nat) {
    exists c: nat, hi: nat :: Settled(v, actions, k, c, hi)
  }

  ghost predicate AllSettled(vs: seq<Outcome>, actions: seq<Action>) {
    && |vs| == Count(actions, Concludes)
    && forall k :: 0 <= k < |vs| ==> IsVerdict(vs[k], actions, k)
  }

  // ---------- one action more ----------

  lemma Slices(actions: seq<Action>, a: Action, lo: nat, hi: nat)
    requires lo <= hi <= |actions|
    ensures (actions + [a])[lo..hi] == actions[lo..hi] && (actions + [a])[lo..] == actions[lo..] + [a]
    ensures (actions + [a])[lo..|actions| + 1] == actions[lo..] + [a] && actions[lo..|actions|] == actions[lo..]
    ensures (actions + [a])[..|actions|] == actions
  {
  }

  lemma SinceMore(actions: seq<Action>, a: Action, id: string)
    ensures Since(actions + [a], id) == if a == Conclude(id) then |actions| + 1 else Since(actions, id)
  {
    assert (actions + [a])[..|actions|] == actions;
  }

  lemma DeltasMore(actions: seq<Action>, a: Action, id: string)
    ensures Deltas(actions + [a], id) == Deltas(actions, id) + (if IsBatchOf(a, id) then [a.b.delta] else [])
  {
    assert (actions + [a])[..|actions|] == actions;
  }

  lemma EndedMore(actions: seq<Action>, a: Action, id: string)
    ensures EndedIn(actions + [a], id) ==
            EndedIn(actions, id) + (if IsBatchOf(a, id) && a.b.final then {a.b.shard} else {})
  {
    assert forall x :: x in actions + [a] <==> x in actions || x == a;
  }

  lemma SumMore(t: T.Tally, ds: seq<T.Tally>, d: T.Tally)
    requires IsSum(t, ds)
    ensures IsSum(t.Plus(d), ds + [d])
  {
    hide Count, Gather;
    CountOne(ds, d, Sent);
    CountOne(ds, d, Acked);
    CountOne(ds, d, Errors);
    CountOne(ds, d, Violations);
    GatherOne(ds, d, Latencies);
    GatherOne(ds, d, AckSeconds);
    GatherOne(ds, d, ErrSeconds);
  }

  lemma MarksSame(actions: seq<Action>, a: Action, id: string, lo: nat, j: nat)
    requires lo <= j < |actions|
    ensures Marks(actions + [a], id, lo, j) <==> Marks(actions, id, lo, j)
  {
    hide EndedIn;
    assert (actions + [a])[lo..j + 1] == actions[lo..j + 1];
  }

  /** What is marked stays as it is. */
  lemma HoldsFrozen(agg: Agg, actions: seq<Action>, a: Action, id: string, lo: nat, hi: nat)
    requires Holds(agg, actions, id, lo, hi) && agg.finalized
    ensures Holds(agg, actions + [a], id, lo, hi)
  {
    hide IsSum, Deltas, EndedIn, Marks;
    Slices(actions, a, lo, hi);
    forall j: nat | lo <= j < hi ensures Marks(actions + [a], id, lo, j) <==> Marks(actions, id, lo, j) {
      MarksSame(actions, a, id, lo, j);
    }
  }

  /** What is not marked follows the action. */
  lemma HoldsMore(agg: Agg, agg2: Agg, actions: seq<Action>, a: Action, id: string, lo: nat)
    requires Holds(agg, actions, id, lo, |actions|) && !agg.finalized
    requires agg2.finalized <==> Marks(actions + [a], id, lo, |actions|)
    requires agg2.sum == if IsBatchOf(a, id) then agg.sum.Plus(a.b.delta) else agg.sum
    requires agg2.finalShards == agg.finalShards + (if IsBatchOf(a, id) && a.b.final then {a.b.shard} else {})
    ensures Holds(agg2, actions + [a], id, lo, |actions| + 1)
  {
    hide IsSum, Deltas, EndedIn, Marks;
    var window := actions[lo..];
    Slices(actions, a, lo, |actions|);
    DeltasMore(window, a, id);
    EndedMore(window, a, id);
    if IsBatchOf(a, id) {
      SumMore(agg.sum, Deltas(window, id), a.b.delta);
    }
    assert Deltas(window, id) + [] == Deltas(window, id);
    forall j: nat | lo <= j < |actions| ensures Marks(actions + [a], id, lo, j) <==> Marks(actions, id, lo, j) {
      MarksSame(actions, a, id, lo, j);
    }
  }

  lemma NothingHeld(actions: seq<Action>, id: string)
    ensures Holds(NewAgg, actions, id, |actions|, |actions|)
  {
    assert actions[|actions|..|actions|] == [];
  }

  /** The last action marks an unmarked run if it sweeps it or completes it. */
  lemma MarksLast(agg: Agg, actions: seq<Action>, a: Action, id: string, lo: nat)
    requires lo <= |actions| && agg.finalShards == EndedIn(actions[lo..], id) && !agg.finalized
    ensures Marks(actions + [a], id, lo, |actions|) <==>
            a == Sweep(id) || (IsBatchOf(a, id) && Fold(agg, a.b).finalized)
    ensures IsBatchOf(a, id) ==> Fold(agg, a.b).sum == agg.sum.Plus(a.b.delta)
                                 && Fold(agg, a.b).finalShards == agg.finalShards + (if a.b.final then {a.b.shard} else {})
  {
    hide EndedIn;
    Slices(actions, a, lo, |actions|);
    EndedMore(actions[lo..], a, id);
  }

  /** One action, seen by one run. */
  lemma DoTo(d: Desk, a: Action, id: string)
    requires Enabled(d, a) && a != Conclude(id)
    ensures id in Do(d, a).runs <==> id in d.runs || IsBatchOf(a, id)
    ensures AggOf(Do(d, a), id) ==
            if IsBatchOf(a, id) then Fold(AggOf(d, id), a.b)
            else if a == Sweep(id) then AggOf(d, id).(finalized := true) else AggOf(d, id)
    ensures a == Sweep(id) ==> !AggOf(d, id).finalized
    ensures AggOf(d, id).finalized ==> AggOf(Do(d, a), id) == AggOf(d, id)
  {
  }

  lemma OpenKept(d: Desk, actions: seq<Action>, a: Action, id: string)
    requires Open(d, actions, id) && Enabled(d, a) && a != Conclude(id)
    ensures Open(Do(d, a), actions + [a], id)
  {
    hide Do, Enabled, Since, Deltas, EndedIn, Marks, IsSum, AggOf, Fold;
    var lo := Since(actions, id);
    var hi: nat :| Holds(AggOf(d, id), actions, id, lo, hi);
    DoTo(d, a, id);
    SinceMore(actions, a, id);
    Slices(actions, a, lo, lo);
    DeltasMore(actions[lo..], a, id);
    if AggOf(d, id).finalized {
      HoldsFrozen(AggOf(d, id), actions, a, id, lo, hi);
    } else {
      Slices(actions, a, lo, |actions|);
      MarksLast(AggOf(d, id), actions, a, id, lo);
      HoldsMore(AggOf(d, id), AggOf(Do(d, a), id), actions, a, id, lo);
    }
  }

  lemma OpenAfresh(d: Desk, actions: seq<Action>, id: string)
    requires Enabled(d, Conclude(id))
    ensures Open(Do(d, Conclude(id)), actions + [Conclude(id)], id)
  {
    hide Since, Deltas, IsSum, EndedIn, Marks;
    var all := actions + [Conclude(id)];
    SinceMore(actions, Conclude(id), id);
    assert all[|all|..] == [];
    NothingHeld(all, id);
    NoDeltas(id);
    assert Holds(AggOf(Do(d, Conclude(id)), id), all, id, Since(all, id), |all|);
  }

  lemma NoDeltas(id: string)
    ensures Deltas([], id) == []
  {
  }

  lemma OpenAtFirst(id: string)
    ensures Open(Opening, [], id)
  {
    hide IsSum, EndedIn, Marks;
    NothingHeld([], id);
    assert Holds(AggOf(Opening, id), [], id, Since([], id), 0);
  }

  lemma OpenStep(d: Desk, actions: seq<Action>, a: Action, id: string)
    requires Open(d, actions, id) && Enabled(d, a)
    ensures Open(Do(d, a), actions + [a], id)
  {
    hide Open, Do, Enabled;
    if a == Conclude(id) {
      OpenAfresh(d, actions, id);
    } else {
      OpenKept(d, actions, a, id);
    }
  }

  lemma VerdictKept(v: Outcome, actions: seq<Action>, a: Action, k: nat)
    requires IsVerdict(v, actions, k)
    ensures IsVerdict(v, actions + [a], k)
  {
    hide Count, Holds, Since;
    var c: nat, hi: nat :| Settled(v, actions, k, c, hi);
    assert (actions + [a])[..c] == actions[..c];
    assert Settled(v, actions + [a], k, c, hi);
  }

  lemma DoVerdicts(d: Desk, a: Action)
    requires Enabled(d, a)
    ensures Do(d, a).verdicts == d.verdicts + (if a.Conclude? then [Outcome(a.runId, d.runs[a.runId])] else [])
  {
    hide Fold;
  }

  lemma SettledStep(d: Desk, actions: seq<Action>, a: Action)
    requires AllSettled(d.verdicts, actions) && Enabled(d, a) && MarksMatch(d)
    requires a.Conclude? ==> Open(d, actions, a.runId)
    ensures AllSettled(Do(d, a).verdicts, actions + [a])
  {
    hide Do, Count, Open;
    DoVerdicts(d, a);
    CountOne(actions, a, Concludes);
    var vs, vs2 := d.verdicts, Do(d, a).verdicts;
    forall k | 0 <= k < |vs2| ensures IsVerdict(vs2[k], actions + [a], k) {
      if k < |vs| {
        VerdictKept(vs[k], actions, a, k);
      } else {
        LastSettled(d, actions, a.runId);
      }
    }
  }

  lemma LastSettled(d: Desk, actions: seq<Action>, id: string)
    requires id in d.runs && d.runs[id].agg.finalized && |d.verdicts| == Count(actions, Concludes)
    requires Open(d, actions, id)
    ensures IsVerdict(Outcome(id, d.runs[id]), actions + [Conclude(id)], |d.verdicts|)
  {
    hide Count, Holds, Since;
    var hi: nat :| Holds(AggOf(d, id), actions, id, Since(actions, id), hi);
    assert (actions + [Conclude(id)])[..|actions|] == actions;
    assert Settled(Outcome(id, d.runs[id]), actions + [Conclude(id)], |d.verdicts|, |actions|, hi);
  }

  // ---------- every run ----------

  /** However batches, sweeps and conclusions of all runs interleave: a run is open exactly if a
      batch of it came in since its last conclusion; its aggregate, and likewise every verdict, is
      the sum of its batches since then up to its mark, with exactly the shards that ended there. */
  lemma {:induction false} WhatIsHeld(actions: seq<Action>)
    requires MayRun(Opening, actions)
    ensures var d := After(Opening, actions);
            AllSettled(d.verdicts, actions) && forall id :: Open(d, actions, id)
  {
    hide Enabled, Do, Open, AllSettled, MarksMatch, OncePlaced;
    if actions == [] {
      AtFirst();
    } else {
      var front, a := actions[..|actions| - 1], actions[|actions| - 1];
      assert actions == front + [a];
      RunSnoc(Opening, front, a);
      WhatIsHeld(front);
      var d := After(Opening, front);
      OpeningOk();
      RunKeeps(Opening, front);
      SettledStep(d, front, a);
      forall id ensures Open(Do(d, a), front + [a], id) {
        OpenStep(d, front, a, id);
      }
    }
  }

  lemma OpeningOk()
    ensures MarksMatch(Opening) && OncePlaced(Opening)
  {
  }

  lemma AtFirst()
    ensures AllSettled(After(Opening, []).verdicts, [])
    ensures forall id :: Open(After(Opening, []), [], id)
  {
    forall id ensures Open(After(Opening, []), [], id) {
      OpenAtFirst(id);
    }
  }
}
