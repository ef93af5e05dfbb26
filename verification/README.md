# Verification of the arena's order book, engines and telemetry

A Dafny 4.11 model of the parts of the arena that decide a contestant's verdict,
with machine-checked proofs about them. `dafny verify dfyconfig.toml` checks everything.

Two components are modelled.

**The limit order book and its judges.** `PriorityList` defines the meaning of the book:
one flat list of resting orders per side in price-time priority. `GoBook` is the platform's
reference book as it runs, with levels, FIFO queues of order objects and an id index that
aliases those objects; `PyBook` is the Python engine, with plain nested lists, append-and-sort
and filtering. Both classes are proved to compute exactly the list operations on every valid
book, so they give the same replies to every sequence of requests (`Engines`). `Ladder` relates
levels to lists. `MatchLaws`, `PriceTimeAudit` and `Conservation` say what the list operations
mean without their bodies: the matching is the unique greedy prefix; the replies of a run pass
an audit against an unordered pool of time-stamped orders if and only if they are the book's
(the audit spells out for itself which orders are refused, who has priority and who may trade);
every unit of quantity is accounted for, for any set of order ids. `LiveChecks`, `BotFleet` and
`Conformance` model the bots' in-line checks, whole fleets of bots taking turns on one book
with lost requests and replies, and the conformance probe.

**The telemetry pipeline.** `Histogram` is the log-bucket histogram over exact reals, with
merging and quantiles. `ShardTelemetry` is a step machine in which any number of bots bump
counters while the flusher swaps maps and loads the counters one by one. `Ingest`, `Completion`
and `StaleSweep` fold the batches of all runs, decide when a run is complete and close silent
runs; `HeldData` says what is in an aggregate at any point. `Pipeline` composes them: the verdict
is over exactly what the bots did. `Sums` counts over sequences of actions.
`ShardSplit` is the split of bots and rate over shards.

How to read the names: a class method is proved equal to a function on values (`Submit` to
`SubmitOrder`, `Absorb` to `Consume`, and so on), and the lemmas about that function carry the
meaning. Concurrent code (bots against flusher, shards against each other, consumer against
sweeper, bots against each other on one engine) is modelled as steps of a state machine, in any
order; the network is a choice of what arrives. The reference engine in
`examples/reference-engine/main.go` has the same submit, rest and cancel as the platform's book,
line for line, under a mutex, so `GoBook` stands for both.

## Where the code and its documentation disagree

The model follows the code.

- The contract lists a duplicate id among the rejections. The book only refuses an id that is
  resting at that moment (`MatchLaws.RejectedIff`, `MatchLaws.SpentIdAcceptedAgain`).
- The probe is described as comparing acks field by field. It compares status and fills only:
  an engine that numbers every reply 0 and echoes no id gets full marks
  (`Conformance.OnlyStatusAndFills`, `Conformance.ProbeUnnumbered`).
- Any reported quantile is said to be within 2.5% of the true value. It is, exactly when that
  value is at least 976 ns (`Histogram.ReportedWithin`).
- The in-line validation calls a correct rejection of a negative quantity an overfill; it
  accepts every ack of the book exactly for quantities of 0 or more (`LiveChecks.OracleClean`).
- A run closed by the sweeper can be closed a second time, over other data, if a batch arrives
  late (`StaleSweep.SweptThenLate`); that is the only way (`StaleSweep.ReopenedIffLate`), and each
  aggregate is closed at most once (`StaleSweep.AtMostOnce`).

## Model

| member | source | states |
|---|---|---|
| PriorityList.RunInv | internal/matching/book.go:23-28 | over every run: bids descending and asks ascending, quantities and prices positive, ids unique across both sides, every bid below every ask |
| MatchLaws.RunBook | internal/matching/book.go:1-28 | the same over the entries of the book every run leaves: bid prices never rise, ask prices never fall, every bid below every ask, no id twice |
| PriorityList.RunSeqNos | internal/matching/book.go:32 | one ack per request, numbered without a gap whatever the outcome |
| PriorityList.MatchMaximal | internal/matching/book.go:55-79 | a remainder means no opposite order at an acceptable price is left |
| MatchLaws.MatchIffGreedy | internal/matching/book.go:55-79 | fills, remaining list and remainder are the greedy prefix of the opposite list, every maker but possibly the last used up, and nothing else is |
| MatchLaws.StatusMeaning | internal/matching/book.go:36-99 | every status of a submit, both ways, the filled quantity behind it, and exactly when the order ends up resting |
| MatchLaws.RejectedIff | internal/matching/book.go:38-49 | an order is refused if and only if its quantity is not positive, its side or type is unknown, it is a limit without a positive price, or its id rests |
| MatchLaws.LimitTakenIn | internal/matching/book.go:36-99 | a priced limit of positive quantity under a free id is taken in, whatever its price; it rests whole exactly if no opposite order reaches that price |
| MatchLaws.CancelMeaning | internal/matching/book.go:127-156 | a cancel succeeds exactly on what rests and takes out nothing else |
| MatchLaws.SpentIdAcceptedAgain | internal/matching/book.go:45-48 | an id that was used and is not resting is accepted again |
| MatchLaws.SweepAdditive | internal/matching/book.go:55-87 | one market order of q1 + q2 leaves the book that orders of q1 and then q2 leave, with their fills, the seam maker counted once |
| MatchLaws.SubmitCancel | internal/matching/book.go:101-155 | cancelling an order that just rested leaves the book its fills alone would leave, and the original book if it had none |
| Ladder.Canonical | internal/matching/book.go:18-28 | the priority list determines levels and queues |
| Ladder.JoinLevel | internal/matching/book.go:107-113 | appending to the level of that price is the priority insertion |
| Ladder.OpenLevel | internal/matching/book.go:114-124 | splicing in a level where prices turn worse is the priority insertion |
| Ladder.LeaveLevel | internal/matching/book.go:139-152 | splicing an order out, and its level once empty, is removal by id |
| GoBook.TradedLinked | internal/matching/book.go:65-75 | reducing or popping the front object keeps every other object, both sides and the index linked |
| GoBook.LeftLinked | internal/matching/book.go:134-152 | the splices of a cancel keep every other object, both sides and the index linked |
| GoBook.Book.SweepLevel | internal/matching/book.go:65-75 | the inner loop on objects: finishing the match from where it stops is finishing it from where it began |
| GoBook.Book.Trade | internal/matching/book.go:50-79 | the nested loops on objects compute the match of the opposite list and leave no empty level |
| GoBook.Book.Rest | internal/matching/book.go:101-125 | the remainder enters its side at its priority position and the index, new level or not |
| GoBook.Book.Submit | internal/matching/book.go:36-99 | on every valid book, ack and both lists are those of the list operation; objects, levels and index stay valid |
| GoBook.Book.Cancel | internal/matching/book.go:127-156 | on every valid book, ack and both lists are those of the list operation; objects, levels and index stay valid |
| PyBook.StableSortSorts | examples/python-orderbook/engine.py:88 | the sort orders any levels by price and keeps them all |
| PyBook.AppendAndSort | examples/python-orderbook/engine.py:86-88 | appending a level to a sorted side and sorting splices it in where prices turn worse |
| PyBook.WithoutOne | examples/python-orderbook/engine.py:101 | filtering by id takes out exactly the one order |
| PyBook.Book.Submit | examples/python-orderbook/engine.py:31-77 | on every valid book, ack and both lists are those of the list operation |
| PyBook.Book.Rest | examples/python-orderbook/engine.py:79-88 | the remainder enters its side at its priority position and the index |
| PyBook.Book.Cancel | examples/python-orderbook/engine.py:90-106 | on every valid book, ack and both lists are those of the list operation |
| Engines.SideBySide | TESTING.md:78-80 | for every sequence of requests the two engines reply identically, and the replies pass the price-time audit |
| Engines.RestAndCancel | internal/matching/book.go:101-155 | resting without a fill and cancelling restores every level and queue of both sides and the indexed ids |
| PriceTimeAudit.AuditDecides | internal/matching/book.go:1-7 | over every run, replies pass the audit (each fill with the best opposite order by price then arrival) if and only if they are the book's |
| PriceTimeAudit.AuditRunIff | internal/matching/book.go:36-156 | the same from any pair of corresponding states, and the states still correspond at the end |
| PriceTimeAudit.InsertedSim | internal/matching/book.go:107-124 | the insertion position is the newcomer's place by (price, arrival) |
| Conservation.RunConserves | internal/matching/book.go:50-97 | for every run and set of ids: resting at the end = resting at the start + accepted - filled as taker - filled as maker - discarded - withdrawn |
| Conservation.TotalConserved | internal/matching/book.go:50-155 | from an empty book, accepted quantity = twice the traded quantity + resting + withdrawn + discarded |
| LiveChecks.Validate | cmd/botfleet/main.go:338-359 | the complaints about an ack in order, and none exactly for a clean ack |
| LiveChecks.ComplaintsCounted | cmd/botfleet/main.go:338-359 | one violation for every fill beyond the limit, one for an overfill, one for a short fill |
| LiveChecks.SeqObserver.CheckSeq | cmd/botfleet/main.go:363-371 | complains exactly when the number did not grow, and remembers it either way |
| LiveChecks.OracleClean | cmd/botfleet/main.go:337-359 | the book's ack is clean if and only if the quantity is not negative |
| BotFleet.OrderIdInjective | cmd/botfleet/main.go:240 | no two bots and no two orders of a bot share an id |
| BotFleet.TurnClean | cmd/botfleet/main.go:207-277 | one turn of any bot, with its request or reply lost or not: no complaint, no rejection, and the fleet's invariant is kept |
| BotFleet.FleetNeverTrips | cmd/botfleet/main.go:198-278 | for any fleet and interleaving the live checks never trip on the book and it rejects no bot order |
| BotFleet.SilentIff | cmd/botfleet/main.go:238-273 | an order's ack draws no verdict exactly if id, number, prices and quantity are right |
| BotFleet.SilentCancelIff | cmd/botfleet/main.go:226-237 | a cancel's ack draws none exactly if it says canceled or unknown under a grown number |
| BotFleet.TurnMemory | cmd/botfleet/main.go:207-277 | a turn changes one bot only: it cancels only its own orders, numbers new ones afresh, keeps the last number heard, and remembers at most 50 orders, just those reported as resting or partly traded |
| BotFleet.WalkRange | cmd/botfleet/main.go:216-222 | one step of the price walk reaches every price up to 3 ticks away within 9000 to 11000, and no other |
| BotFleet.QuoteRange | cmd/botfleet/main.go:251-258 | which prices a bot can quote: all from 19 ticks behind the walk to 5 beyond it, and no other |
| BotFleet.QtyRange | cmd/botfleet/main.go:239-262 | the quantities that can come up: 1 to 50 for a sweep, 1 to 100 for a limit order |
| Conformance.SumOfFills | cmd/orchestrator/main.go:339-345 | the total quantity of the fills |
| Conformance.FillsEqual | cmd/orchestrator/main.go:347-357 | true exactly for equal fill sequences |
| Conformance.Conformance | cmd/orchestrator/main.go:292-337 | for a scenario of any length and any replies: the score is the share of answered steps with the book's status, with its filled total and with its fills; 1 exactly if every step agrees |
| Conformance.ScenarioAcks | cmd/orchestrator/main.go:274-290 | the acks the scenario asks for, one by one, as its comments say |
| Conformance.OnlyStatusAndFills | cmd/orchestrator/main.go:313-327 | replies that differ only in order id or sequence number score alike |
| Conformance.ProbeUnnumbered | cmd/orchestrator/main.go:274-337 | replies without ids and numbers get full marks on the scenario |
| Conformance.ProbePython | examples/python-orderbook/engine.py:6-8 | the Python engine passes the probe |
| Conformance.FleetAfterProbe | cmd/orchestrator/main.go:192-216 | the load phase trips no check on the engine state the probe leaves |
| Histogram.Bucket | internal/telemetry/hist.go:20-25 | bucket b > 0 holds exactly the latencies from 1000 * 1.05^(b-1) up to 1000 * 1.05^b |
| Histogram.BucketValue | internal/telemetry/hist.go:28-33 | the whole part of the geometric midpoint, pinned down by its square |
| Histogram.ReportedWithin | internal/telemetry/hist.go:1-8 | a latency is reported within 2.5% if and only if it is 976 ns or more |
| Histogram.Hist.Record | internal/telemetry/hist.go:42-46 | the counts are those of the recorded latencies, one more |
| Histogram.Hist.TakeDelta | internal/telemetry/hist.go:49-55 | hands out exactly the counts since the last take and starts afresh |
| Histogram.Merge | internal/telemetry/hist.go:58-62 | bucket by bucket addition, in any key order |
| Histogram.MergeAll | internal/telemetry/hist_test.go:26-46 | folding the deltas of any parts in any order gives the histogram of any stream with the same latencies |
| Histogram.Quantile | internal/telemetry/hist.go:66-86 | for whatever n ascending samples the counts stand for: the bucket value of the sample with k others before it, k < q * n <= k + 1; 0 for none; the final fallback is unreachable |
| Histogram.QuantileOfStream | internal/telemetry/hist.go:64-86 | the bucket value of the latency with k others before it, k < q * n <= k + 1, and within 2.5% of it if and only if it is 976 ns or more |
| Histogram.QuantilesOrdered | cmd/ingester/main.go:179-183 | a higher quantile is never reported lower |
| ShardTelemetry.StepOk | cmd/botfleet/main.go:156-193 | every bot and flusher micro-step keeps: everything recorded is live, in the flusher's hand or shipped, exactly once |
| ShardTelemetry.BotStepBalance | cmd/botfleet/main.go:298-335 | every micro-step keeps the counters balanced up to the bots between two steps |
| ShardTelemetry.FinalFlushShipsAll | cmd/botfleet/main.go:138-193 | for every interleaving, the shipped deltas sum to what the run's actions say: requests sent, acked, failed, violations, each latency, each second; the final batch is the last and only one |
| ShardTelemetry.PathRuns | cmd/botfleet/main.go:298-335 | no history is ruled out: any bot can be answered or fail with any latency, second and number of complaints |
| ShardTelemetry.FlushRuns | cmd/botfleet/main.go:156-193 | an undisturbed flush ships exactly the counters' growth and all bags |
| Ingest.RunAgg.Absorb | cmd/ingester/main.go:117-144 | maps and counters hold the sum with the batch, and the aggregate closes exactly when the batch completes it |
| Ingest.Ingester.Absorb | cmd/ingester/main.go:107-151 | all runs' aggregates and the verdict, if any, are those of the fold |
| Completion.OneVerdict | cmd/ingester/main.go:135-148 | for every interleaving of the shards' batches among other runs': exactly one verdict, over the sum of all batches, and not before the last |
| Completion.Consumer | cmd/ingester/main.go:81-104 | the running ingester closes the runs of a stream in exactly the order of the fold |
| StaleSweep.AtMostOnce | cmd/ingester/main.go:154-170 | with sweeps at any point, no aggregate is closed twice |
| HeldData.WhatIsHeld | cmd/ingester/main.go:107-170 | with sweeps at any point: every open run's data, and every verdict's, is the sum of the run's batches since its last conclusion and before its mark, with the shards that ended there; a run is marked by a sweep or by the batch that ends its last shard |
| StaleSweep.MarkedIsFrozen | cmd/ingester/main.go:117-120 | a marked aggregate, data and all, does not change until its verdict is out |
| StaleSweep.ReopenedIffLate | cmd/ingester/main.go:107-170 | after its verdict a run is open again, or closed again, if and only if a batch of it came in late |
| StaleSweep.SweptThenLate | cmd/ingester/main.go:271-273 | a batch after the sweep's verdict leads to a second verdict over other data |
| Pipeline.VerdictIsWhatBotsRecorded | cmd/ingester/main.go:107-151 | end to end, for every interleaving in and between shards: the verdict is over exactly what all bots recorded; latencies = acks = ack seconds, errors = error seconds, sent = acks + errors |
| Pipeline.VerdictTalliesActions | cmd/ingester/main.go:107-151 | end to end over runs of all shards: one verdict, whose counters, latencies and seconds are those counted over the bots' actions |
| Pipeline.FinishedIsComplete | cmd/botfleet/main.go:138-153 | any run of a shard to the end of its final flush meets what the end-to-end result asks of it |
| ShardSplit.Dispatch | cmd/orchestrator/main.go:198-216 | every bot placed, 1 to 250 a shard, shards as few as that allows and at most one bot apart, budgets within the run's and short by less than one request per shard |

## Left out

- 64-bit overflow of prices, quantities, counters and sequence numbers: all are unbounded integers.
- Floating-point rounding in `math.Log`, `math.Pow`, the quantile rank and the conformance score: exact reals.
- JSON, HTTP, Redis, Docker and TimescaleDB: requests, replies and streams are values; an ack's time stamp is not modelled, and a published batch is assumed to reach the stream.
- Histogram.Merge: returns the merged map, where the code writes through `dst`.
- Histogram.Quantile: counts are non-negative, as `Record` makes them, and 0 < q <= 1 as its comment demands.
- Conformance.Conformance: takes the engine's replies as a sequence and needs at least one step, since an empty scenario would divide 0 by 0; the notes are not modelled.
- Ingest.Ingester.Absorb: marking a run and dropping it after its verdict is one step there; `StaleSweep` takes them apart. The set of ended shards stands for the map of them.
- Violation samples, live publishing, the leaderboard, the score and the maximum-throughput scan of the ingester.
- The bots' pacing, ramp and random source: a turn takes any draw within the ranges asked for, at any time.
- The gateway, the web UI, the reference engine's top-of-book view, its delay and its chaos mode.
- Engines.RestAndCancel: states the restored index by its ids; that it holds the same objects is not stated.
