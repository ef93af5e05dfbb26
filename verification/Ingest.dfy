/** The consumer that folds the shards' batches into one aggregate per run and decides
    when a run is complete. */
module Ingest {
  import opened Histogram
  import opened ShardTelemetry

  // A batch as it arrives: a shard's delta with its address.
  datatype Report = Report(runId: string, shard: int, totalShards: int, final: bool, delta: Tally)

  // A run's aggregate.
  datatype Agg = Agg(sum: Tally, totalShards: int, finalShards: set<int>, finalized: bool)

  const NewAgg := Agg(Zero, 0, {}, false)

  /** Fold one batch into an aggregate, and close it once all its shards have ended. */
  function Fold(agg: Agg, b: Report): Agg {
    if agg.finalized then agg
    else
      var ended := if b.final then agg.finalShards + {b.shard} else agg.finalShards;
      Agg(agg.sum.Plus(b.delta), b.totalShards, ended, b.totalShards > 0 && |ended| >= b.totalShards)
  }

  // ---------- the running code ----------

  /** The maps a tally's bags are kept in. */
  class RunAgg {
    var hist: map<int, int>
    var secAcks: map<int, int>
    var secErrs: map<int, int>
    var sent: int
    var acked: int
    var errors: int
    var violations: int
    var totalShards: int
    var finalShards: set<int>
    var finalized: bool
    ghost const runId: string
    ghost var sum: Tally

    /** The maps and counters hold the sum. */
    ghost predicate Valid()
      reads this
    {
      && hist == Counts(sum.hist) && secAcks == Counts(sum.secAcks) && secErrs == Counts(sum.secErrs)
      && sent == sum.sent && acked == sum.acked && errors == sum.errors && violations == sum.violations
    }

    ghost function View(): Agg
      reads this
    {
      Agg(sum, totalShards, finalShards, finalized)
    }

    constructor (ghost id: string)
      ensures Valid() && View() == NewAgg && runId == id
    {
      runId := id;
      hist, secAcks, secErrs := map[], map[], map[];
      sent, acked, errors, violations := 0, 0, 0, 0;
      totalShards, finalShards, finalized, sum := 0, {}, false, Zero;
    }

    /** Add the counts of a delta, bag by bag. */
    method AddBags(d: Tally)
      requires hist == Counts(sum.hist) && secAcks == Counts(sum.secAcks) && secErrs == Counts(sum.secErrs)
      modifies this`hist, this`secAcks, this`secErrs
      ensures hist == Counts(sum.hist + d.hist) && secAcks == Counts(sum.secAcks + d.secAcks)
      ensures secErrs == Counts(sum.secErrs + d.secErrs)
    {
      hide Counts;
      hist := MergeCounts(hist, Counts(d.hist), sum.hist, d.hist);
      secAcks := MergeCounts(secAcks, Counts(d.secAcks), sum.secAcks, d.secAcks);
      secErrs := MergeCounts(secErrs, Counts(d.secErrs), sum.secErrs, d.secErrs);
    }

    method AddDelta(d: Tally)
      requires Valid()
      modifies this`hist, this`secAcks, this`secErrs, this`sent, this`acked, this`errors, this`violations, this`sum
      ensures Valid() && sum == old(sum).Plus(d)
    {
      hide Counts;
      AddBags(d);
      sent := sent + d.sent;
      acked := acked + d.acked;
      errors := errors + d.errors;
      violations := violations + d.violations;
      sum := sum.Plus(d);
    }

    /** What happens to an aggregate under the lock: it closes exactly when this batch completes it. */
    method Absorb(b: Report) returns (complete: bool)
      requires Valid()
      modifies this
      ensures Valid() && View() == Fold(old(View()), b)
      ensures complete <==> !old(View()).finalized && View().finalized
    {
      if finalized {
        return false;
      }
      AddDelta(b.delta);
      totalShards := b.totalShards;
      if b.final {
        finalShards := finalShards + {b.shard};
      }
      complete := totalShards > 0 && |finalShards| >= totalShards;
      if complete {
        finalized := true;
      }
    }
  }

  /** Merge, on maps that hold the counts of bags. */
  method MergeCounts(dst: map<int, int>, src: map<int, int>, ghost m: multiset<int>, ghost n: multiset<int>) returns (r: map<int, int>)
    requires dst == Counts(m) && src == Counts(n)
    ensures r == Counts(m + n)
  {
    r := Merge(dst, src);
    MergedCounts(r, m, n);
  }

  // ---------- all runs ----------

  // A verdict: the aggregate a run was closed with.
  datatype Verdict = Verdict(runId: string, agg: Agg)

  function Lookup(runs: map<string, Agg>, id: string): Agg {
    if id in runs then runs[id] else NewAgg
  }

  /** One batch taken off the stream and, if it completes its run, the verdict. The aggregate
      is dropped once its verdict is out. */
  function Consume(runs: map<string, Agg>, b: Report): (map<string, Agg>, seq<Verdict>) {
    var agg := Lookup(runs, b.runId);
    var folded := Fold(agg, b);
    if !agg.finalized && folded.finalized then (runs - {b.runId}, [Verdict(b.runId, folded)])
    else (runs[b.runId := folded], [])
  }

  class Ingester {
    var runs: map<string, RunAgg>
    ghost var view: map<string, Agg>
    ghost var Repr: set<object>

    /** Every run has an aggregate of its own, holding what the view says. */
    ghost predicate Valid()
      reads this, Repr
    {
      && this in Repr && runs.Keys == view.Keys
      && forall id :: id in runs ==>
           runs[id] in Repr && runs[id].runId == id && runs[id].Valid() && runs[id].View() == view[id]
    }

    constructor ()
      ensures Valid() && fresh(Repr) && view == map[]
    {
      runs, view := map[], map[];
      Repr := {this};
    }

    /** Absorb one batch; when it completes its run, hand out the closed aggregate and forget the run. */
    method Absorb(b: Report) returns (closed: RunAgg?)
      requires Valid()
      modifies Repr
      ensures Valid() && fresh(Repr - old(Repr))
      ensures var (after, verdicts) := Consume(old(view), b);
              && view == after
              && (closed == null <==> verdicts == [])
              && (closed != null ==> closed.Valid() && verdicts == [Verdict(b.runId, closed.View())])
    {
      hide Fold, RunAgg.Valid, RunAgg.View;
      var agg, complete := Update(b);
      if complete {
        Forget(b.runId);
        closed := agg;
      } else {
        closed := null;
      }
    }

    /** The critical section: fold the batch into its run's aggregate. */
    method Update(b: Report) returns (agg: RunAgg, complete: bool)
      requires Valid()
      modifies Repr
      ensures Valid() && fresh(Repr - old(Repr)) && b.runId in runs && runs[b.runId] == agg
      ensures var was := Lookup(old(view), b.runId);
              && view == old(view)[b.runId := Fold(was, b)]
              && (complete <==> !was.finalized && Fold(was, b).finalized)
    {
      hide Fold, RunAgg.Valid, RunAgg.View;
      agg := Obtain(b.runId);
      complete := agg.Absorb(b);
      view := view[b.runId := Fold(view[b.runId], b)];
    }

    method Forget(id: string)
      requires Valid() && id in runs
      modifies this`runs, this`view
      ensures Valid() && view == old(view) - {id}
      ensures old(runs)[id].Valid() && old(runs)[id].View() == old(view)[id]
    {
      hide RunAgg.Valid, RunAgg.View;
      runs, view := runs - {id}, view - {id};
    }

    /** The aggregate of a run, made new if there is none. */
    method Obtain(id: string) returns (agg: RunAgg)
      requires Valid()
      modifies this
      ensures Valid() && fresh(Repr - old(Repr)) && id in runs && runs[id] == agg
      ensures view == old(view)[id := Lookup(old(view), id)]
    {
      if id in runs {
        agg := runs[id];
      } else {
        agg := new RunAgg(id);
        runs, view := runs[id := agg], view[id := NewAgg];
        Repr := Repr + {agg};
      }
    }
  }
}
