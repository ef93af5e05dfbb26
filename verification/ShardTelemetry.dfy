/** One load shard: many bots bump counters, a histogram and per-second counts while
    a flusher, step by step and without stopping them, ships what is new. Whatever
    the interleaving, nothing is lost or counted twice. */
module ShardTelemetry {
  import opened Sums

  // Counters, and counts as bags: hist of latency buckets, secAcks and secErrs of seconds.
  datatype Tally = Tally(sent: int, acked: int, errors: int, violations: int,
                         hist: multiset<int>, secAcks: multiset<int>, secErrs: multiset<int>) {
    function Plus(t: Tally): Tally {
      Tally(sent + t.sent, acked + t.acked, errors + t.errors, violations + t.violations,
            hist + t.hist, secAcks + t.secAcks, secErrs + t.secErrs)
    }
  }

  const Zero := Tally(0, 0, 0, 0, multiset{}, multiset{}, multiset{})

  /** Every request is answered or failed, and each is counted once in every view of it. */
  predicate Balanced(t: Tally) {
    t.sent == t.acked + t.errors && |t.hist| == t.acked == |t.secAcks| && t.errors == |t.secErrs|
  }

  // A shipped delta.
  datatype Batch = Batch(final: bool, delta: Tally)

  function SumOf(bs: seq<Batch>): Tally {
    if bs == [] then Zero else SumOf(bs[..|bs| - 1]).Plus(bs[|bs| - 1].delta)
  }

  // Where a bot is in the accounting of one request.
  datatype BotPc =
    | Idle
    | Waiting                 // counted as sent, no outcome yet
    | Failed(sec: int)        // counted as error, second not ticked yet
    | Timed                   // latency recorded, not counted as acked yet
    | Counted(sec: int)       // counted as acked, second not ticked yet
    | Judged(complaints: nat) // complaints still to be counted
    | Done

  // Where the flusher is: the fields of the batch it has read so far.
  datatype FlushPc =
    | Between
    | Swapped(final: bool, cur: Tally)
    | LoadedSent(final: bool, cur: Tally)
    | LoadedAcked(final: bool, cur: Tally)
    | LoadedErrors(final: bool, cur: Tally)
    | LoadedViolations(final: bool, cur: Tally)
    | TookHist(final: bool, cur: Tally)
    | Finished

  // live is what the bots write to: its counters only grow, its bags are emptied by the
  // flusher. prev is the flusher's copy of the last counters it shipped. seen is all that
  // was ever recorded.
  datatype Shard = Shard(bots: seq<BotPc>, live: Tally, flusher: FlushPc, prev: Tally,
                         shipped: seq<Batch>, seen: Tally)

  function Start(n: nat): Shard {
    Shard(seq(n, _ => Idle), Zero, Between, Zero, [], Zero)
  }

  datatype Action =
    | Send(i: nat)
    | Fail(i: nat, sec: int)
    | TickErr(i: nat)
    | Record(i: nat, bucket: int)
    | CountAck(i: nat, sec: int)
    | TickAck(i: nat, complaints: nat)
    | Violate(i: nat)
    | Next(i: nat)
    | Finish(i: nat)
    | SwapMaps(final: bool)
    | LoadSent
    | LoadAcked
    | LoadErrors
    | LoadViolations
    | TakeHist
    | Ship

  predicate AllDone(bots: seq<BotPc>) {
    forall i :: 0 <= i < |bots| ==> bots[i].Done?
  }

  predicate OfFlusher(a: Action) {
    a.SwapMaps? || a.LoadSent? || a.LoadAcked? || a.LoadErrors? || a.LoadViolations? || a.TakeHist? || a.Ship?
  }

  predicate FlusherMay(f: FlushPc, a: Action)
    requires OfFlusher(a)
  {
    match a
    case SwapMaps(_) => f.Between?
    case LoadSent => f.Swapped?
    case LoadAcked => f.LoadedSent?
    case LoadErrors => f.LoadedAcked?
    case LoadViolations => f.LoadedErrors?
    case TakeHist => f.LoadedViolations?
    case _ => f.TookHist?
  }

  predicate BotMay(b: BotPc, a: Action)
    requires !OfFlusher(a)
  {
    match a
    case Send(_) => b.Idle?
    case Fail(_, _) => b.Waiting?
    case TickErr(_) => b.Failed?
    case Record(_, _) => b.Waiting?
    case CountAck(_, _) => b.Timed?
    case TickAck(_, _) => b.Counted?
    case Violate(_) => b.Judged? && b.complaints > 0
    case Next(_) => b.Judged? && b.complaints == 0
    case _ => b.Idle?
  }

  predicate Enabled(s: Shard, a: Action) {
    if OfFlusher(a) then
      FlusherMay(s.flusher, a) && (a.SwapMaps? && a.final ==> AllDone(s.bots)) // the final flush waits for all bots
    else a.i < |s.bots| && BotMay(s.bots[a.i], a)
  }

  /** Where the action leaves the bot. */
  function BotNext(b: BotPc, a: Action): BotPc
    requires !OfFlusher(a) && BotMay(b, a)
  {
    match a
    case Send(_) => Waiting
    case Fail(_, sec) => Failed(sec)
    case TickErr(_) => Idle
    case Record(_, _) => Timed
    case CountAck(_, sec) => Counted(sec)
    case TickAck(_, complaints) => Judged(complaints)
    case Violate(_) => Judged(b.complaints - 1)
    case Next(_) => Idle
    case _ => Done
  }

  /** What the action records. */
  function Adds(b: BotPc, a: Action): Tally
    requires !OfFlusher(a) && BotMay(b, a)
  {
    match a
    case Send(_) => Zero.(sent := 1)
    case Fail(_, _) => Zero.(errors := 1)
    case TickErr(_) => Zero.(secErrs := multiset{b.sec})
    case Record(_, bucket) => Zero.(hist := multiset{bucket})
    case CountAck(_, _) => Zero.(acked := 1)
    case TickAck(_, _) => Zero.(secAcks := multiset{b.sec})
    case Violate(_) => Zero.(violations := 1)
    case _ => Zero
  }

  /** Both the live tally and the record of everything grow by d. */
  function Grow(s: Shard, d: Tally): Shard {
    s.(live := s.live.Plus(d), seen := s.seen.Plus(d))
  }

  /** The counters of t relative to those of prev; the bags are new since the last swap anyway. */
  function Since(t: Tally, prev: Tally): Tally {
    t.(sent := t.sent - prev.sent, acked := t.acked - prev.acked,
       errors := t.errors - prev.errors, violations := t.violations - prev.violations)
  }

  function FlusherDo(s: Shard, a: Action): Shard
    requires OfFlusher(a) && FlusherMay(s.flusher, a)
  {
    match a
    case SwapMaps(final) =>
      s.(flusher := Swapped(final, Zero.(secAcks := s.live.secAcks, secErrs := s.live.secErrs)),
         live := s.live.(secAcks := multiset{}, secErrs := multiset{}))
    case LoadSent => s.(flusher := LoadedSent(s.flusher.final, s.flusher.cur.(sent := s.live.sent)))
    case LoadAcked => s.(flusher := LoadedAcked(s.flusher.final, s.flusher.cur.(acked := s.live.acked)))
    case LoadErrors => s.(flusher := LoadedErrors(s.flusher.final, s.flusher.cur.(errors := s.live.errors)))
    case LoadViolations => s.(flusher := LoadedViolations(s.flusher.final, s.flusher.cur.(violations := s.live.violations)))
    case TakeHist =>
      s.(flusher := TookHist(s.flusher.final, s.flusher.cur.(hist := s.live.hist)), live := s.live.(hist := multiset{}))
    case _ =>
      s.(flusher := if s.flusher.final then Finished else Between, prev := s.flusher.cur,
         shipped := s.shipped + [Batch(s.flusher.final, Since(s.flusher.cur, s.prev))])
  }

  function Do(s: Shard, a: Action): Shard
    requires Enabled(s, a)
  {
    if OfFlusher(a) then FlusherDo(s, a)
    else Grow(s.(bots := s.bots[a.i := BotNext(s.bots[a.i], a)]), Adds(s.bots[a.i], a))
  }

  // ---------- what every interleaving keeps ----------

  function Unanswered(b: BotPc): int { if b.Waiting? || b.Timed? then 1 else 0 }
  function Unacked(b: BotPc): int { if b.Timed? then 1 else 0 }
  function Unticked(b: BotPc): int { if b.Counted? then 1 else 0 }
  function UntickedErr(b: BotPc): int { if b.Failed? then 1 else 0 }

  /** The bots' accounting: the counters differ by just the bots between two steps. */
  ghost predicate BotsBalance(s: Shard) {
    && s.seen.sent == s.seen.acked + s.seen.errors + Count(s.bots, Unanswered)
    && |s.seen.hist| == s.seen.acked + Count(s.bots, Unacked)
    && s.seen.acked == |s.seen.secAcks| + Count(s.bots, Unticked)
    && s.seen.errors == |s.seen.secErrs| + Count(s.bots, UntickedErr)
  }

  /** The bags the flusher holds in hand. */
  function InHand(f: FlushPc): Tally {
    if f.Between? || f.Finished? then Zero
    else Zero.(hist := f.cur.hist, secAcks := f.cur.secAcks, secErrs := f.cur.secErrs)
  }

  /** Everything recorded is live, in the flusher's hand, or shipped: exactly once. */
  ghost predicate NothingLost(s: Shard) {
    var sum := SumOf(s.shipped);
    && s.seen.hist == s.live.hist + InHand(s.flusher).hist + sum.hist
    && s.seen.secAcks == s.live.secAcks + InHand(s.flusher).secAcks + sum.secAcks
    && s.seen.secErrs == s.live.secErrs + InHand(s.flusher).secErrs + sum.secErrs
    && s.seen.sent == s.live.sent && s.seen.acked == s.live.acked
    && s.seen.errors == s.live.errors && s.seen.violations == s.live.violations
    && s.prev.sent == sum.sent && s.prev.acked == sum.acked
    && s.prev.errors == sum.errors && s.prev.violations == sum.violations
  }

  /** How far the flusher has got in reading its batch. */
  function Progress(f: FlushPc): int {
    match f
    case Between => 0
    case Swapped(_, _) => 1
    case LoadedSent(_, _) => 2
    case LoadedAcked(_, _) => 3
    case LoadedErrors(_, _) => 4
    case LoadedViolations(_, _) => 5
    case TookHist(_, _) => 6
    case Finished => 7
  }

  predicate Running(f: FlushPc) {
    !f.Between? && !f.Finished?
  }

  /** Once the final flush has started, what it has read is all there is. */
  ghost predicate FinalExact(s: Shard) {
    var f := s.flusher;
    && (f.Finished? || (Running(f) && f.final) ==> AllDone(s.bots) && s.live.secAcks == multiset{} && s.live.secErrs == multiset{})
    && (Running(f) && f.final ==>
         && (Progress(f) >= 2 ==> f.cur.sent == s.live.sent)
         && (Progress(f) >= 3 ==> f.cur.acked == s.live.acked)
         && (Progress(f) >= 4 ==> f.cur.errors == s.live.errors)
         && (Progress(f) >= 5 ==> f.cur.violations == s.live.violations)
         && (Progress(f) >= 6 ==> s.live.hist == multiset{}))
    && (f.Finished? ==> s.live.hist == multiset{} && s.prev.sent == s.live.sent && s.prev.acked == s.live.acked
                        && s.prev.errors == s.live.errors && s.prev.violations == s.live.violations)
    && (Running(f) && Progress(f) < 6 ==> f.cur.hist == multiset{})
  }

  /** The final batch is the last one, and the only final one. */
  ghost predicate OneFinal(s: Shard) {
    forall k :: 0 <= k < |s.shipped| ==> (s.shipped[k].final <==> s.flusher.Finished? && k == |s.shipped| - 1)
  }

  ghost predicate ShardOk(s: Shard) {
    BotsBalance(s) && NothingLost(s) && FinalExact(s) && OneFinal(s) && (s.flusher.Finished? ==> s.shipped != [])
  }

  lemma StartOk(n: nat)
    ensures ShardOk(Start(n))
  {
    CountNone(Start(n).bots, Unanswered);
    CountNone(Start(n).bots, Unacked);
    CountNone(Start(n).bots, Unticked);
    CountNone(Start(n).bots, UntickedErr);
  }

  /** Each bot step shifts each balance by what it records. */
  lemma BotShift(b: BotPc, a: Action)
    requires !OfFlusher(a) && BotMay(b, a)
    ensures var d, c := Adds(b, a), BotNext(b, a);
            && d.sent == d.acked + d.errors + Unanswered(c) - Unanswered(b)
            && |d.hist| == d.acked + Unacked(c) - Unacked(b)
            && d.acked == |d.secAcks| + Unticked(c) - Unticked(b)
            && d.errors == |d.secErrs| + UntickedErr(c) - UntickedErr(b)
  {
  }

  lemma BotStepBalance(s: Shard, a: Action)
    requires BotsBalance(s) && Enabled(s, a)
    ensures BotsBalance(Do(s, a))
  {
    hide Count, BotNext, Adds, Unanswered, Unacked, Unticked, UntickedErr, BotMay, FlusherMay;
    if !OfFlusher(a) {
      var b := s.bots[a.i];
      var c, d := BotNext(b, a), Adds(b, a);
      BotShift(b, a);
      CountUpdate(s.bots, a.i, c, Unanswered);
      CountUpdate(s.bots, a.i, c, Unacked);
      CountUpdate(s.bots, a.i, c, Unticked);
      CountUpdate(s.bots, a.i, c, UntickedErr);
    } else {
      FlusherKeeps(s, a);
    }
  }

  lemma FlusherKeeps(s: Shard, a: Action)
    requires Enabled(s, a) && OfFlusher(a)
    ensures Do(s, a).bots == s.bots && Do(s, a).seen == s.seen
  {
  }

  lemma SumOfMore(bs: seq<Batch>, b: Batch)
    ensures SumOf(bs + [b]) == SumOf(bs).Plus(b.delta)
  {
    assert (bs + [b])[..|bs|] == bs;
  }

  lemma BotStepKeepsAll(s: Shard, a: Action)
    requires NothingLost(s) && Enabled(s, a) && !OfFlusher(a)
    ensures NothingLost(Do(s, a))
  {
    hide SumOf, InHand, Adds, BotNext, BotMay;
    var d := Adds(s.bots[a.i], a);
    More(s.seen.hist, d.hist, s.live.hist, InHand(s.flusher).hist, SumOf(s.shipped).hist);
    More(s.seen.secAcks, d.secAcks, s.live.secAcks, InHand(s.flusher).secAcks, SumOf(s.shipped).secAcks);
    More(s.seen.secErrs, d.secErrs, s.live.secErrs, InHand(s.flusher).secErrs, SumOf(s.shipped).secErrs);
  }

  lemma More(all: multiset<int>, d: multiset<int>, x: multiset<int>, y: multiset<int>, z: multiset<int>)
    requires all == x + y + z
    ensures all + d == (x + d) + y + z
  {
  }

  lemma ShipKeepsAll(s: Shard)
    requires NothingLost(s) && s.flusher.TookHist?
    ensures NothingLost(FlusherDo(s, Ship))
  {
    hide SumOf, AllDone;
    SumOfMore(s.shipped, Batch(s.flusher.final, Since(s.flusher.cur, s.prev)));
    Moved(s.live.hist, s.flusher.cur.hist, SumOf(s.shipped).hist);
    Moved(s.live.secAcks, s.flusher.cur.secAcks, SumOf(s.shipped).secAcks);
    Moved(s.live.secErrs, s.flusher.cur.secErrs, SumOf(s.shipped).secErrs);
  }

  lemma SwapKeepsAll(s: Shard, final: bool)
    requires NothingLost(s) && s.flusher.Between?
    ensures NothingLost(FlusherDo(s, SwapMaps(final)))
  {
    hide SumOf, AllDone;
  }

  lemma TakeKeepsAll(s: Shard)
    requires NothingLost(s) && s.flusher.LoadedViolations? && s.flusher.cur.hist == multiset{}
    ensures NothingLost(FlusherDo(s, TakeHist))
  {
    hide SumOf, AllDone;
  }

  lemma FlusherStepKeepsAll(s: Shard, a: Action)
    requires NothingLost(s) && FinalExact(s) && OfFlusher(a) && Enabled(s, a)
    ensures NothingLost(Do(s, a))
  {
    assert s.flusher.LoadedViolations? ==> s.flusher.cur.hist == multiset{};
    hide NothingLost, FinalExact, FlusherDo;
    if a.Ship? {
      ShipKeepsAll(s);
    } else if a.SwapMaps? {
      SwapKeepsAll(s, a.final);
    } else if a.TakeHist? {
      TakeKeepsAll(s);
    } else {
      LoadKeepsAll(s, a);
    }
  }

  lemma LoadKeepsAll(s: Shard, a: Action)
    requires NothingLost(s) && OfFlusher(a) && FlusherMay(s.flusher, a) && !a.Ship? && !a.SwapMaps? && !a.TakeHist?
    ensures NothingLost(FlusherDo(s, a))
  {
    hide SumOf, AllDone;
    assert InHand(FlusherDo(s, a).flusher) == InHand(s.flusher);
  }

  lemma Moved(x: multiset<int>, y: multiset<int>, z: multiset<int>)
    ensures x + y + z == x + multiset{} + (z + y)
  {
  }

  lemma BotStepFinal(s: Shard, a: Action)
    requires FinalExact(s) && OneFinal(s) && Enabled(s, a) && !OfFlusher(a)
    ensures FinalExact(Do(s, a)) && OneFinal(Do(s, a))
  {
    hide Adds, BotNext;
    assert !s.bots[a.i].Done?;
    assert !AllDone(s.bots);
  }

  lemma FlusherStepExact(s: Shard, a: Action)
    requires FinalExact(s) && Enabled(s, a) && OfFlusher(a)
    ensures FinalExact(Do(s, a))
  {
    hide AllDone;
  }

  lemma FlusherStepOneFinal(s: Shard, a: Action)
    requires OneFinal(s) && (s.flusher.Finished? ==> s.shipped != []) && Enabled(s, a) && OfFlusher(a)
    ensures OneFinal(Do(s, a)) && (Do(s, a).flusher.Finished? ==> Do(s, a).shipped != [])
  {
    hide AllDone;
  }

  lemma StepOk(s: Shard, a: Action)
    requires ShardOk(s) && Enabled(s, a)
    ensures ShardOk(Do(s, a))
  {
    hide BotsBalance, NothingLost, FinalExact, OneFinal, FlusherMay, BotMay, FlusherDo, BotNext, Adds;
    BotStepBalance(s, a);
    if OfFlusher(a) {
      FlusherStepKeepsAll(s, a);
      FlusherStepExact(s, a);
      FlusherStepOneFinal(s, a);
    } else {
      BotStepKeepsAll(s, a);
      BotStepFinal(s, a);
    }
  }

  // ---------- whole runs ----------

  predicate MayRun(s: Shard, actions: seq<Action>)
    decreases |actions|
  {
    actions == [] || (Enabled(s, actions[0]) && MayRun(Do(s, actions[0]), actions[1..]))
  }

  function After(s: Shard, actions: seq<Action>): Shard
    requires MayRun(s, actions)
    decreases |actions|
  {
    if actions == [] then s else After(Do(s, actions[0]), actions[1..])
  }

  lemma {:induction false} AfterOk(s: Shard, actions: seq<Action>)
    requires ShardOk(s) && MayRun(s, actions)
    ensures ShardOk(After(s, actions))
    decreases |actions|
  {
    hide ShardOk, Enabled, Do;
    if actions != [] {
      StepOk(s, actions[0]);
      AfterOk(Do(s, actions[0]), actions[1..]);
    }
  }

  // ---------- what a run records, told from its actions alone ----------

  function Sends(a: Action): int { if a.Send? then 1 else 0 }
  function Acks(a: Action): int { if a.CountAck? then 1 else 0 }
  function Fails(a: Action): int { if a.Fail? then 1 else 0 }
  function Violates(a: Action): int { if a.Violate? then 1 else 0 }
  function Found(a: Action): int { if a.TickAck? then a.complaints else 0 }
  function Latency(a: Action): multiset<int> { if a.Record? then multiset{a.bucket} else multiset{} }
  function AckSecond(a: Action): multiset<int> { if a.CountAck? then multiset{a.sec} else multiset{} }
  function ErrSecond(a: Action): multiset<int> { if a.Fail? then multiset{a.sec} else multiset{} }

  function PendingFound(b: BotPc): int { if b.Judged? then b.complaints else 0 }
  function PendingAck(b: BotPc): multiset<int> { if b.Counted? then multiset{b.sec} else multiset{} }
  function PendingErr(b: BotPc): multiset<int> { if b.Failed? then multiset{b.sec} else multiset{} }

  /** The tally is that of the actions: counters, latencies, seconds and complaints. */
  ghost predicate TallyOf(t: Tally, actions: seq<Action>) {
    && t.sent == Count(actions, Sends)
    && t.acked == Count(actions, Acks)
    && t.errors == Count(actions, Fails)
    && t.violations == Count(actions, Violates) == Count(actions, Found)
    && t.hist == Gather(actions, Latency)
    && t.secAcks == Gather(actions, AckSecond)
    && t.secErrs == Gather(actions, ErrSecond)
  }

  /** What was recorded is what the actions say, but for the bots between two steps. */
  ghost predicate Recorded(s: Shard, actions: seq<Action>) {
    && s.seen.sent == Count(actions, Sends)
    && s.seen.acked == Count(actions, Acks)
    && s.seen.errors == Count(actions, Fails)
    && s.seen.violations == Count(actions, Violates)
    && s.seen.violations + Count(s.bots, PendingFound) == Count(actions, Found)
    && s.seen.hist == Gather(actions, Latency)
    && s.seen.secAcks + Gather(s.bots, PendingAck) == Gather(actions, AckSecond)
    && s.seen.secErrs + Gather(s.bots, PendingErr) == Gather(actions, ErrSecond)
  }

  lemma ActionsMore(actions: seq<Action>, a: Action)
    ensures Count(actions + [a], Sends) == Count(actions, Sends) + Sends(a)
    ensures Count(actions + [a], Acks) == Count(actions, Acks) + Acks(a)
    ensures Count(actions + [a], Fails) == Count(actions, Fails) + Fails(a)
    ensures Count(actions + [a], Violates) == Count(actions, Violates) + Violates(a)
    ensures Count(actions + [a], Found) == Count(actions, Found) + Found(a)
    ensures Gather(actions + [a], Latency) == Gather(actions, Latency) + Latency(a)
    ensures Gather(actions + [a], AckSecond) == Gather(actions, AckSecond) + AckSecond(a)
    ensures Gather(actions + [a], ErrSecond) == Gather(actions, ErrSecond) + ErrSecond(a)
  {
    hide Count, Gather;
    CountOne(actions, a, Sends);
    CountOne(actions, a, Acks);
    CountOne(actions, a, Fails);
    CountOne(actions, a, Violates);
    CountOne(actions, a, Found);
    GatherOne(actions, a, Latency);
    GatherOne(actions, a, AckSecond);
    GatherOne(actions, a, ErrSecond);
  }

  /** What a bot step records now and owes for later is what the action says. */
  lemma BotOwes(b: BotPc, a: Action)
    requires !OfFlusher(a) && BotMay(b, a)
    ensures var d, c := Adds(b, a), BotNext(b, a);
            && d.sent == Sends(a) && d.acked == Acks(a) && d.errors == Fails(a) && d.violations == Violates(a)
            && d.hist == Latency(a)
            && d.violations + PendingFound(c) == PendingFound(b) + Found(a)
            && d.secAcks + PendingAck(c) == PendingAck(b) + AckSecond(a)
            && d.secErrs + PendingErr(c) == PendingErr(b) + ErrSecond(a)
  {
  }

  lemma FlusherSilent(a: Action)
    requires OfFlusher(a)
    ensures Sends(a) == Acks(a) == Fails(a) == Violates(a) == Found(a) == 0
    ensures Latency(a) == AckSecond(a) == ErrSecond(a) == multiset{}
  {
  }

  lemma Shifted(x: multiset<int>, d: multiset<int>, p: multiset<int>, q: multiset<int>, now: multiset<int>,
                owed: multiset<int>, all: multiset<int>, said: multiset<int>)
    requires x + p == all && q + now == p + owed && d + owed == now + said
    ensures (x + d) + q == all + said
  {
    forall k ensures ((x + d) + q)[k] == (all + said)[k] {
      assert (x + p)[k] == all[k] && (q + now)[k] == (p + owed)[k] && (d + owed)[k] == (now + said)[k];
    }
  }

  lemma RecordedStep(s: Shard, actions: seq<Action>, a: Action)
    requires Recorded(s, actions) && Enabled(s, a)
    ensures Recorded(Do(s, a), actions + [a])
  {
    hide Count, Gather, BotNext, Adds, BotMay, FlusherMay, Sends, Acks, Fails, Violates, Found,
         Latency, AckSecond, ErrSecond, PendingFound, PendingAck, PendingErr;
    ActionsMore(actions, a);
    if OfFlusher(a) {
      FlusherKeeps(s, a);
      FlusherSilent(a);
    } else {
      var b := s.bots[a.i];
      var c, d := BotNext(b, a), Adds(b, a);
      BotOwes(b, a);
      CountUpdate(s.bots, a.i, c, PendingFound);
      GatherUpdate(s.bots, a.i, c, PendingAck);
      GatherUpdate(s.bots, a.i, c, PendingErr);
      var bots := s.bots[a.i := c];
      Shifted(s.seen.secAcks, d.secAcks, Gather(s.bots, PendingAck), Gather(bots, PendingAck),
              PendingAck(b), PendingAck(c), Gather(actions, AckSecond), AckSecond(a));
      Shifted(s.seen.secErrs, d.secErrs, Gather(s.bots, PendingErr), Gather(bots, PendingErr),
              PendingErr(b), PendingErr(c), Gather(actions, ErrSecond), ErrSecond(a));
    }
  }

  lemma {:induction false} RunSnoc(s: Shard, actions: seq<Action>, a: Action)
    ensures MayRun(s, actions + [a]) <==> MayRun(s, actions) && Enabled(After(s, actions), a)
    ensures MayRun(s, actions + [a]) ==> After(s, actions + [a]) == Do(After(s, actions), a)
    decreases |actions|
  {
    hide Enabled, Do;
    if actions == [] {
      assert [] + [a] == [a] && [a][1..] == [];
    } else {
      assert (actions + [a])[1..] == actions[1..] + [a];
      if Enabled(s, actions[0]) {
        RunSnoc(Do(s, actions[0]), actions[1..], a);
      }
    }
  }

  lemma NothingRecorded(n: nat)
    ensures Recorded(Start(n), [])
  {
    CountNone(Start(n).bots, PendingFound);
    GatherNone(Start(n).bots, PendingAck);
    GatherNone(Start(n).bots, PendingErr);
  }

  lemma {:induction false} RunRecords(n: nat, actions: seq<Action>)
    requires MayRun(Start(n), actions)
    ensures Recorded(After(Start(n), actions), actions)
  {
    hide Recorded, Enabled, Do, Start;
    if actions == [] {
      NothingRecorded(n);
    } else {
      var front, a := actions[..|actions| - 1], actions[|actions| - 1];
      assert actions == front + [a];
      RunSnoc(Start(n), front, a);
      RunRecords(n, front);
      RecordedStep(After(Start(n), front), front, a);
    }
  }

  /** When the final flush is out, the shipped deltas sum to exactly what the actions of the run
      say, in every counter, latency bucket and second; the final batch is the last, and the only
      one marked so. */
  lemma FinalFlushShipsAll(n: nat, actions: seq<Action>)
    requires MayRun(Start(n), actions) && After(Start(n), actions).flusher.Finished?
    ensures var s := After(Start(n), actions);
            && TallyOf(SumOf(s.shipped), actions) && Balanced(SumOf(s.shipped))
            && SumOf(s.shipped) == s.seen && AllDone(s.bots)
            && s.shipped != [] && forall k :: 0 <= k < |s.shipped| ==> (s.shipped[k].final <==> k == |s.shipped| - 1)
  {
    StartOk(n);
    AfterOk(Start(n), actions);
    RunRecords(n, actions);
    FinishedSum(After(Start(n), actions));
    NonePending(After(Start(n), actions).bots);
  }

  lemma NonePending(bots: seq<BotPc>)
    requires AllDone(bots)
    ensures Count(bots, PendingFound) == 0
    ensures Gather(bots, PendingAck) == multiset{} && Gather(bots, PendingErr) == multiset{}
  {
    CountNone(bots, PendingFound);
    GatherNone(bots, PendingAck);
    GatherNone(bots, PendingErr);
  }

  lemma FinishedSum(s: Shard)
    requires ShardOk(s) && s.flusher.Finished?
    ensures SumOf(s.shipped) == s.seen && Balanced(s.seen) && AllDone(s.bots)
  {
    CountNone(s.bots, Unanswered);
    CountNone(s.bots, Unacked);
    CountNone(s.bots, Unticked);
    CountNone(s.bots, UntickedErr);
  }

  // ---------- no history is ruled out ----------

  // How one request goes.
  datatype Outcome = Answered(bucket: int, ackSec: int, complaints: nat) | Lost(errSec: int)

  /** The steps of bot i for one request. */
  function Path(i: nat, o: Outcome): seq<Action> {
    match o
    case Answered(bucket, sec, complaints) =>
      [Send(i), Record(i, bucket), CountAck(i, sec), TickAck(i, complaints)] + (Counting(i, complaints) + [Next(i)])
    case Lost(sec) => [Send(i), Fail(i, sec), TickErr(i)]
  }

  function Counting(i: nat, complaints: nat): seq<Action> {
    if complaints == 0 then [] else [Violate(i)] + Counting(i, complaints - 1)
  }

  /** The steps of one flush. */
  function Flush(final: bool): seq<Action> {
    [SwapMaps(final), LoadSent, LoadAcked, LoadErrors, LoadViolations, TakeHist, Ship]
  }

  lemma RunCons(s: Shard, a: Action, rest: seq<Action>)
    requires Enabled(s, a) && MayRun(Do(s, a), rest)
    ensures MayRun(s, [a] + rest) && After(s, [a] + rest) == After(Do(s, a), rest)
  {
    hide Enabled, Do;
    assert ([a] + rest)[1..] == rest;
  }

  lemma RunNil(s: Shard)
    ensures MayRun(s, []) && After(s, []) == s
  {
  }

  /** One bot step, as seen by the bots and the flusher. */
  lemma BotGoes(s: Shard, i: nat, a: Action)
    requires i < |s.bots| && !OfFlusher(a) && a.i == i && BotMay(s.bots[i], a)
    ensures Enabled(s, a) && Do(s, a).flusher == s.flusher
    ensures Do(s, a).bots == s.bots[i := BotNext(s.bots[i], a)]
  {
    hide BotMay, BotNext, Adds, Tally.Plus;
  }

  lemma {:induction false} CountingRuns(s: Shard, i: nat, complaints: nat)
    requires i < |s.bots| && s.bots[i] == Judged(complaints)
    ensures var path := Counting(i, complaints) + [Next(i)];
            MayRun(s, path) && After(s, path).bots == s.bots[i := Idle] && After(s, path).flusher == s.flusher
    decreases complaints
  {
    hide MayRun, After, Do, Enabled;
    if complaints == 0 {
      BotGoes(s, i, Next(i));
      RunNil(Do(s, Next(i)));
      RunCons(s, Next(i), []);
      assert Counting(i, 0) + [Next(i)] == [Next(i)] + [];
    } else {
      var rest := Counting(i, complaints - 1) + [Next(i)];
      BotGoes(s, i, Violate(i));
      CountingRuns(Do(s, Violate(i)), i, complaints - 1);
      RunCons(s, Violate(i), rest);
      assert Counting(i, complaints) + [Next(i)] == [Violate(i)] + rest;
    }
  }

  lemma AnsweredRuns(s: Shard, i: nat, bucket: int, sec: int, complaints: nat)
    requires i < |s.bots| && s.bots[i].Idle?
    ensures var path := Path(i, Answered(bucket, sec, complaints));
            MayRun(s, path) && After(s, path).bots == s.bots && After(s, path).flusher == s.flusher
  {
    hide MayRun, After, Do, Enabled, Counting;
    var p0 := Counting(i, complaints) + [Next(i)];
    var p1 := [TickAck(i, complaints)] + p0;
    var p2 := [CountAck(i, sec)] + p1;
    var p3 := [Record(i, bucket)] + p2;
    BotGoes(s, i, Send(i));
    var s1 := Do(s, Send(i));
    BotGoes(s1, i, Record(i, bucket));
    var s2 := Do(s1, Record(i, bucket));
    BotGoes(s2, i, CountAck(i, sec));
    var s3 := Do(s2, CountAck(i, sec));
    BotGoes(s3, i, TickAck(i, complaints));
    var s4 := Do(s3, TickAck(i, complaints));
    CountingRuns(s4, i, complaints);
    RunCons(s3, TickAck(i, complaints), p0);
    RunCons(s2, CountAck(i, sec), p1);
    RunCons(s1, Record(i, bucket), p2);
    RunCons(s, Send(i), p3);
    assert Path(i, Answered(bucket, sec, complaints)) == [Send(i)] + p3;
    assert s4.bots[i := Idle] == s.bots;
  }

  lemma LostRuns(s: Shard, i: nat, sec: int)
    requires i < |s.bots| && s.bots[i].Idle?
    ensures var path := Path(i, Lost(sec));
            MayRun(s, path) && After(s, path).bots == s.bots && After(s, path).flusher == s.flusher
  {
    hide MayRun, After, Do, Enabled;
    var p1 := [TickErr(i)] + [];
    var p2 := [Fail(i, sec)] + p1;
    BotGoes(s, i, Send(i));
    var s1 := Do(s, Send(i));
    BotGoes(s1, i, Fail(i, sec));
    var s2 := Do(s1, Fail(i, sec));
    BotGoes(s2, i, TickErr(i));
    var s3 := Do(s2, TickErr(i));
    RunNil(s3);
    RunCons(s2, TickErr(i), []);
    RunCons(s1, Fail(i, sec), p1);
    RunCons(s, Send(i), p2);
    assert Path(i, Lost(sec)) == [Send(i)] + p2;
    assert s3.bots == s.bots;
  }

  /** An idle bot can go through any request, whatever the latency, second and complaints, and be idle again. */
  lemma PathRuns(s: Shard, i: nat, o: Outcome)
    requires i < |s.bots| && s.bots[i].Idle?
    ensures MayRun(s, Path(i, o)) && After(s, Path(i, o)).bots == s.bots && After(s, Path(i, o)).flusher == s.flusher
  {
    hide MayRun, After, Path;
    match o
    case Answered(bucket, sec, complaints) => AnsweredRuns(s, i, bucket, sec, complaints);
    case Lost(sec) => LostRuns(s, i, sec);
  }

  lemma SwapAndLoad(s: Shard, final: bool)
    requires s.flusher.Between? && (final ==> AllDone(s.bots))
    ensures Enabled(s, SwapMaps(final))
    ensures var s1 := Do(s, SwapMaps(final));
            && s1.flusher == Swapped(final, Zero.(secAcks := s.live.secAcks, secErrs := s.live.secErrs))
            && s1.live == s.live.(secAcks := multiset{}, secErrs := multiset{})
            && s1.prev == s.prev && s1.shipped == s.shipped
  {
    hide AllDone;
  }

  lemma LoadAll(s: Shard, rest: seq<Action>)
    requires s.flusher.Swapped?
    requires MayRun(Loaded(s), rest)
    ensures var path := [LoadSent, LoadAcked, LoadErrors, LoadViolations] + rest;
            MayRun(s, path) && After(s, path) == After(Loaded(s), rest)
  {
    hide MayRun, After, AllDone;
    var s2 := Do(s, LoadSent);
    var s3 := Do(s2, LoadAcked);
    var s4 := Do(s3, LoadErrors);
    var s5 := Do(s4, LoadViolations);
    assert s5 == Loaded(s);
    RunCons(s4, LoadViolations, rest);
    RunCons(s3, LoadErrors, [LoadViolations] + rest);
    RunCons(s2, LoadAcked, [LoadErrors] + ([LoadViolations] + rest));
    RunCons(s, LoadSent, [LoadAcked] + ([LoadErrors] + ([LoadViolations] + rest)));
    assert [LoadSent, LoadAcked, LoadErrors, LoadViolations] + rest ==
           [LoadSent] + ([LoadAcked] + ([LoadErrors] + ([LoadViolations] + rest)));
  }

  /** All four counters read in a row. */
  function Loaded(s: Shard): Shard
    requires s.flusher.Swapped?
  {
    s.(flusher := LoadedViolations(s.flusher.final,
         s.flusher.cur.(sent := s.live.sent, acked := s.live.acked, errors := s.live.errors, violations := s.live.violations)))
  }

  lemma TakeAndShip(s: Shard)
    requires s.flusher.LoadedViolations?
    ensures var path := [TakeHist] + ([Ship] + []);
            MayRun(s, path) && var t := After(s, path);
            && t.shipped == s.shipped + [Batch(s.flusher.final, Since(s.flusher.cur.(hist := s.live.hist), s.prev))]
            && t.flusher == if s.flusher.final then Finished else Between
  {
    hide MayRun, After, AllDone;
    var t := Do(s, TakeHist);
    RunNil(Do(t, Ship));
    RunCons(t, Ship, []);
    RunCons(s, TakeHist, [Ship] + []);
  }

  /** A flush nobody interrupts ships the counters' growth and all bags. */
  lemma FlushRuns(s: Shard, final: bool)
    requires s.flusher.Between? && (final ==> AllDone(s.bots))
    ensures MayRun(s, Flush(final))
    ensures After(s, Flush(final)).shipped == s.shipped + [Batch(final, Since(s.live, s.prev))]
    ensures After(s, Flush(final)).flusher == if final then Finished else Between
  {
    hide MayRun, After, AllDone, Do, Enabled;
    SwapAndLoad(s, final);
    var s1 := Do(s, SwapMaps(final));
    var end := [TakeHist] + ([Ship] + []);
    TakeAndShip(Loaded(s1));
    LoadAll(s1, end);
    RunCons(s, SwapMaps(final), [LoadSent, LoadAcked, LoadErrors, LoadViolations] + end);
    assert Flush(final) == [SwapMaps(final)] + ([LoadSent, LoadAcked, LoadErrors, LoadViolations] + end);
  }
}
