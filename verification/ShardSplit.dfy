/** How a run's bots and rate are split over load shards. */
module ShardSplit {

  const BOTS_PER_SHARD := 250

  datatype LoadShard = LoadShard(shard: nat, totalShards: nat, bots: int, maxRps: int)

  function TotalBots(shards: seq<LoadShard>): int {
    if shards == [] then 0 else TotalBots(shards[..|shards| - 1]) + shards[|shards| - 1].bots
  }

  /** Every bot is placed, no shard is empty, over full or more than one bot off another, and the
      rate budgets stay within the run's, losing less than one request per shard. */
  method Dispatch(bots: int, maxRps: nat) returns (shards: seq<LoadShard>)
    ensures bots <= 0 ==> shards == []
    ensures bots > 0 ==>
              && |shards| > 0 && TotalBots(shards) == bots && (|shards| - 1) * BOTS_PER_SHARD < bots <= |shards| * BOTS_PER_SHARD
              && (forall i :: 0 <= i < |shards| ==> shards[i].shard == i && shards[i].totalShards == |shards|)
              && (forall i :: 0 <= i < |shards| ==> 1 <= shards[i].bots <= BOTS_PER_SHARD)
              && (forall i, j :: 0 <= i < j < |shards| ==> 0 <= shards[i].bots - shards[j].bots <= 1)
              && (forall i :: 0 <= i < |shards| ==> |shards| * shards[i].maxRps <= maxRps < |shards| * shards[i].maxRps + |shards|)
  {
    shards := [];
    if bots <= 0 {
      return;
    }
    var n := (bots + BOTS_PER_SHARD - 1) / BOTS_PER_SHARD;
    var q, r, rate := bots / n, bots % n, maxRps / n;
    SplitBounds(bots, n, q, r);
    Division(maxRps, n, rate);
    for i := 0 to n
      invariant |shards| == i
      invariant TotalBots(shards) == Product(i, q) + (if i < r then i else r)
      invariant forall k :: 0 <= k < i ==> shards[k] == LoadShard(k, n, q + (if k < r then 1 else 0), rate)
    {
      var share := q;
      if i < r {
        share := share + 1;
      }
      var shard := LoadShard(i, n, share, rate);
      assert (shards + [shard])[..i] == shards;
      shards := shards + [shard];
    }
  }

  /** i times q, one q at a time. */
  function Product(i: nat, q: int): (p: int)
    ensures p == i * q
  {
    if i == 0 then 0 else Product(i - 1, q) + q
  }

  lemma Division(a: nat, n: nat, q: int)
    requires n > 0 && q == a / n
    ensures n * q <= a < n * q + n
  {
  }

  lemma SplitBounds(bots: int, n: int, q: int, r: int)
    requires bots > 0 && n == (bots + BOTS_PER_SHARD - 1) / BOTS_PER_SHARD
    requires n > 0 ==> q == bots / n && r == bots % n
    ensures n > 0 && q >= 1 && 0 <= r < n && n * q + r == bots
    ensures q <= BOTS_PER_SHARD && (r > 0 ==> q < BOTS_PER_SHARD)
  {
    assert n * q + r == bots;
    Quotient(n, q, r, bots);
  }

  lemma Quotient(n: int, q: int, r: int, bots: int)
    requires n > 0 && 0 <= r < n && n * q + r == bots && n <= bots <= n * BOTS_PER_SHARD
    ensures q >= 1 && q <= BOTS_PER_SHARD && (r > 0 ==> q < BOTS_PER_SHARD)
  {
    Times(n, q, 0);
    Times(n, BOTS_PER_SHARD, q);
  }

  /** A positive factor keeps the order. */
  lemma Times(n: int, a: int, b: int)
    requires n > 0
    ensures a <= b ==> n * a <= n * b
    ensures a < b ==> n * a + n <= n * b
  {
    var d := b - a;
    assert n * b == n * a + n * d;
    NonNegative(n, d);
    NonNegative(n, d - 1);
    assert n * d == n * (d - 1) + n;
  }

  lemma NonNegative(n: int, d: int)
    requires n > 0
    ensures d >= 0 ==> n * d >= 0
  {
  }
}
