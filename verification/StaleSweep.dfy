/** The second way a run is closed: a sweeper that closes silent runs at any time,
    between any two steps of the consumer. */
module StaleSweep {
  import opened ShardTelemetry
  import opened Ingest

  // An aggregate, told apart from others of the same run by when it was created.
  datatype Instance = Instance(agg: Agg, born: nat)
  datatype Outcome = Outcome(runId: string, closed: Instance)

  // closing: the runs marked finalized whose verdict is not out yet.
  datatype Desk = Desk(runs: map<string, Instance>, clock: nat, closing: set<string>, verdicts: seq<Outcome>)

  const Opening := Desk(map[], 0, {}, [])

  // The consumer folding a batch under the lock, the sweeper marking a run it finds stale,
  // and either of them putting out the verdict of a marked run and dropping it.
  datatype Action = Absorb(b: Report) | Sweep(runId: string) | Conclude(runId: string)

  predicate Enabled(d: Desk, a: Action) {
    match a
    case Absorb(b) => true
    case Sweep(id) => id in d.runs && !d.runs[id].agg.finalized
    case Conclude(id) => id in d.closing && id in d.runs
  }

  function Do(d: Desk, a: Action): Desk
    requires Enabled(d, a)
  {
    match a
    case Absorb(b) =>
      var known := b.runId in d.runs;
      var inst := if known then d.runs[b.runId] else Instance(NewAgg, d.clock);
      var folded := Fold(inst.agg, b);
      var closes := !inst.agg.finalized && folded.finalized;
      Desk(d.runs[b.runId := inst.(agg := folded)], if known then d.clock else d.clock + 1,
           if closes then d.closing + {b.runId} else d.closing, d.verdicts)
    case Sweep(id) =>
      var inst := d.runs[id];
      d.(runs := d.runs[id := inst.(agg := inst.agg.(finalized := true))], closing := d.closing + {id})
    case Conclude(id) =>
      Desk(d.runs - {id}, d.clock, d.closing - {id}, d.verdicts + [Outcome(id, d.runs[id])])
  }

  /** Marked runs are exactly those awaiting their verdict. */
  ghost predicate MarksMatch(d: Desk) {
    d.closing <= d.runs.Keys && forall id :: id in d.runs ==> (d.runs[id].agg.finalized <==> id in d.closing)
  }

  /** No aggregate is in two places: two runs, two verdicts, or a run and a verdict. */
  ghost predicate OncePlaced(d: Desk) {
    && (forall id :: id in d.runs ==> d.runs[id].born < d.clock)
    && (forall id, id2 :: id in d.runs && id2 in d.runs && id != id2 ==> d.runs[id].born != d.runs[id2].born)
    && (forall i :: 0 <= i < |d.verdicts| ==> d.verdicts[i].closed.born < d.clock && d.verdicts[i].closed.agg.finalized)
    && (forall i, id :: 0 <= i < |d.verdicts| && id in d.runs ==> d.verdicts[i].closed.born != d.runs[id].born)
    && (forall i, j :: 0 <= i < j < |d.verdicts| ==> d.verdicts[i].closed.born != d.verdicts[j].closed.born)
  }

  lemma StepMarks(d: Desk, a: Action)
    requires MarksMatch(d) && Enabled(d, a)
    ensures MarksMatch(Do(d, a))
  {
  }

  lemma StepPlaced(d: Desk, a: Action)
    requires MarksMatch(d) && OncePlaced(d) && Enabled(d, a)
    ensures OncePlaced(Do(d, a))
  {
    hide Fold;
  }

  /** Once marked, an aggregate does not change: the verdict is over what was there when it was marked. */
  lemma MarkedIsFrozen(d: Desk, a: Action, id: string)
    requires MarksMatch(d) && Enabled(d, a) && id in d.closing
    ensures var d2 := Do(d, a);
            if a == Conclude(id) then id !in d2.runs && d2.verdicts == d.verdicts + [Outcome(id, d.runs[id])]
            else id in d2.runs && d2.runs[id] == d.runs[id] && id in d2.closing
  {
  }

  predicate MayRun(d: Desk, actions: seq<Action>)
    decreases |actions|
  {
    actions == [] || (Enabled(d, actions[0]) && MayRun(Do(d, actions[0]), actions[1..]))
  }

  function After(d: Desk, actions: seq<Action>): Desk
    requires MayRun(d, actions)
    decreases |actions|
  {
    if actions == [] then d else After(Do(d, actions[0]), actions[1..])
  }

  lemma {:induction false} RunKeeps(d: Desk, actions: seq<Action>)
    requires MarksMatch(d) && OncePlaced(d) && MayRun(d, actions)
    ensures MarksMatch(After(d, actions)) && OncePlaced(After(d, actions))
    decreases |actions|
  {
    hide MarksMatch, OncePlaced, Enabled, Do;
    if actions != [] {
      StepMarks(d, actions[0]);
      StepPlaced(d, actions[0]);
      RunKeeps(Do(d, actions[0]), actions[1..]);
    }
  }

  /** However batches, sweeps and conclusions interleave, every aggregate gets at most one verdict. */
  lemma AtMostOnce(actions: seq<Action>)
    requires MayRun(Opening, actions)
    ensures var vs := After(Opening, actions).verdicts;
            && (forall i, j :: 0 <= i < j < |vs| ==> vs[i].closed.born != vs[j].closed.born)
            && (forall i :: 0 <= i < |vs| ==> vs[i].closed.agg.finalized)
  {
    RunKeeps(Opening, actions);
  }

  // ---------- when a run is closed more than once ----------

  function CountFor(vs: seq<Outcome>, id: string): nat {
    if vs == [] then 0 else CountFor(vs[..|vs| - 1], id) + (if vs[|vs| - 1].runId == id then 1 else 0)
  }

  /** A batch of the run is taken in after a verdict on it is out. */
  predicate LateBatch(actions: seq<Action>, id: string) {
    if actions == [] then false
    else
      var front, last := actions[..|actions| - 1], actions[|actions| - 1];
      LateBatch(front, id) || (last.Absorb? && last.b.runId == id && Conclude(id) in front)
  }

  lemma {:induction false} LateIsAfter(actions: seq<Action>, id: string)
    requires LateBatch(actions, id)
    ensures Conclude(id) in actions
  {
    var front := actions[..|actions| - 1];
    if LateBatch(front, id) {
      LateIsAfter(front, id);
    }
    assert forall a :: a in front ==> a in actions;
  }

  lemma {:induction false} RunSnoc(d: Desk, actions: seq<Action>, a: Action)
    ensures MayRun(d, actions + [a]) <==> MayRun(d, actions) && Enabled(After(d, actions), a)
    ensures MayRun(d, actions + [a]) ==> After(d, actions + [a]) == Do(After(d, actions), a)
    decreases |actions|
  {
    hide Enabled, Do;
    if actions == [] {
      assert [] + [a] == [a] && [a][1..] == [];
    } else {
      assert (actions + [a])[1..] == actions[1..] + [a];
      if Enabled(d, actions[0]) {
        RunSnoc(Do(d, actions[0]), actions[1..], a);
      }
    }
  }

  lemma CountMore(vs: seq<Outcome>, v: Outcome, id: string)
    ensures CountFor(vs + [v], id) == CountFor(vs, id) + (if v.runId == id then 1 else 0)
  {
    assert (vs + [v])[..|vs|] == vs;
  }

  /** What one action does to a run's verdicts and to whether it is open. */
  lemma StepCounts(d: Desk, a: Action, id: string)
    requires Enabled(d, a)
    ensures CountFor(Do(d, a).verdicts, id) == CountFor(d.verdicts, id) + (if a == Conclude(id) then 1 else 0)
    ensures a == Conclude(id) ==> id in d.runs
    ensures id in Do(d, a).runs <==> (a.Absorb? && a.b.runId == id) || (id in d.runs && a != Conclude(id))
  {
    hide Fold, CountFor;
    if a.Conclude? {
      CountMore(d.verdicts, Outcome(a.runId, d.runs[a.runId]), id);
    }
  }

  /** Once a run has its verdict, it is open again or has another one if and only if a batch
      of it came in late. */
  lemma {:induction false} ReopenedIffLate(actions: seq<Action>, id: string)
    requires MayRun(Opening, actions)
    ensures var d := After(Opening, actions);
            var n := CountFor(d.verdicts, id);
            && (n >= 1 <==> Conclude(id) in actions)
            && (n >= 1 ==> (n >= 2 || id in d.runs <==> LateBatch(actions, id)))
  {
    if actions != [] {
      var front, a := actions[..|actions| - 1], actions[|actions| - 1];
      assert actions == front + [a];
      hide MayRun, After, Enabled, Do, CountFor;
      RunSnoc(Opening, front, a);
      ReopenedIffLate(front, id);
      StepCounts(After(Opening, front), a, id);
      if LateBatch(front, id) {
        LateIsAfter(front, id);
      }
    } else {
      NothingYet(id);
    }
  }

  lemma NothingYet(id: string)
    ensures CountFor(After(Opening, []).verdicts, id) == 0
  {
  }

  /** It happens: a batch that arrives after the sweep's verdict opens a fresh aggregate,
      and the second verdict does not hold what the first one did. */
  lemma SweptThenLate()
    ensures var early := Report("r", 0, 1, false, Zero.(sent := 5));
            var late := Report("r", 0, 1, true, Zero.(sent := 7));
            var actions := [Absorb(early), Sweep("r"), Conclude("r"), Absorb(late), Conclude("r")];
            MayRun(Opening, actions)
            && var vs := After(Opening, actions).verdicts;
               |vs| == 2 && vs[0].runId == vs[1].runId == "r"
               && vs[0].closed.agg.sum.sent == 5 && vs[1].closed.agg.sum.sent == 7
  {
    var early := Report("r", 0, 1, false, Zero.(sent := 5));
    var late := Report("r", 0, 1, true, Zero.(sent := 7));
    var actions := [Absorb(early), Sweep("r"), Conclude("r"), Absorb(late), Conclude("r")];
    var d1 := Do(Opening, Absorb(early));
    var d2 := Do(d1, Sweep("r"));
    var d3 := Do(d2, Conclude("r"));
    var d4 := Do(d3, Absorb(late));
    assert {} + {0} == {0} && |{0}| == 1;
    assert d4.runs["r"].agg.finalized;
    RunCons(d4, Conclude("r"), []);
    RunCons(d3, Absorb(late), [Conclude("r")]);
    RunCons(d2, Conclude("r"), [Absorb(late), Conclude("r")]);
    RunCons(d1, Sweep("r"), [Conclude("r"), Absorb(late), Conclude("r")]);
    RunCons(Opening, Absorb(early), [Sweep("r"), Conclude("r"), Absorb(late), Conclude("r")]);
  }

  lemma RunCons(d: Desk, a: Action, rest: seq<Action>)
    requires Enabled(d, a) && MayRun(Do(d, a), rest)
    ensures forall actions :: actions == [a] + rest ==> MayRun(d, actions) && After(d, actions) == After(Do(d, a), rest)
  {
    hide Enabled, Do;
    assert ([a] + rest)[1..] == rest;
  }
}
