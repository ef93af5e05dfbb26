/** The mergeable log-bucket latency histogram, over exact reals: buckets grow by 5%
    from 1 microsecond upward, and a bucket reports its geometric midpoint. */
module Histogram {

  const MIN_NS := 1000

  // ---------- buckets ----------

  /** 1.05 to the k. */
  function Growth(k: nat): (g: real)
    ensures g >= 1.0
  {
    if k == 0 then 1.0 else 1.05 * Growth(k - 1)
  }

  lemma {:induction false} GrowthAtLeast(k: nat)
    ensures Growth(k) >= 1.0 + k as real / 20.0
  {
    if k > 0 {
      GrowthAtLeast(k - 1);
    }
  }

  lemma {:induction false} GrowthMonotone(j: nat, k: nat)
    requires j <= k
    ensures Growth(j) <= Growth(k)
    decreases k
  {
    if j < k {
      GrowthMonotone(j, k - 1);
    }
  }

  lemma {:induction false} GrowthAdds(j: nat, k: nat)
    ensures Growth(j + k) == Growth(j) * Growth(k)
  {
    if j > 0 {
      GrowthAdds(j - 1, k);
      Associate(Growth(j - 1), Growth(k));
    }
  }

  lemma Associate(a: real, b: real)
    ensures 1.05 * (a * b) == (1.05 * a) * b
  {
  }

  /** The greatest power of 1.05, from the k-th on, that ns reaches from the floor. */
  function Steps(ns: int, k: nat): (s: nat)
    requires 1000.0 * Growth(k) <= ns as real
    ensures 1000.0 * Growth(s) <= ns as real < 1000.0 * Growth(s + 1)
    decreases ns - 50 * (20 + k)
  {
    GrowthAtLeast(k);
    GrowthAtLeast(k + 1);
    if 1000.0 * Growth(k + 1) <= ns as real then Steps(ns, k + 1) else k
  }

  /** The bucket of a latency: 0 below the floor, else one more than the whole steps of 5% above it. */
  function Bucket(ns: int): (b: nat)
    ensures b == 0 <==> ns < MIN_NS
    ensures b > 0 ==> 1000.0 * Growth(b - 1) <= ns as real < 1000.0 * Growth(b)
  {
    if ns < MIN_NS then 0 else Steps(ns, 0) + 1
  }

  function Square(x: real): real {
    x * x
  }

  lemma SquareAtLeast(w: nat)
    ensures Square(w as real) >= w as real
  {
  }

  lemma SquareOrder(a: real, b: real)
    requires 0.0 <= a <= b
    ensures Square(a) <= Square(b)
  {
  }

  lemma SquareScale(c: real, r: real)
    ensures Square(c * r) == Square(c) * Square(r)
  {
  }

  /** The whole part of the square root, searched for from w. */
  function RootFrom(x: real, w: nat): (r: nat)
    requires Square(w as real) <= x
    ensures Square(r as real) <= x < Square((r + 1) as real)
    decreases x.Floor - w
  {
    SquareAtLeast(w);
    SquareAtLeast(w + 1);
    hide Square;
    if Square((w + 1) as real) <= x then RootFrom(x, w + 1) else w
  }

  /** The latency a bucket reports: the whole part of its geometric midpoint, 1000 * 1.05^(b - 1/2),
      pinned down by its square. */
  function BucketValue(b: int): (v: nat)
    ensures b <= 0 ==> v == MIN_NS
    ensures b > 0 ==> Square(v as real) <= 1000000.0 * Growth(2 * b - 1) < Square((v + 1) as real)
  {
    if b <= 0 then MIN_NS else RootFrom(1000000.0 * Growth(2 * b - 1), 0)
  }

  lemma BucketMonotone(s: int, t: int)
    requires s <= t
    ensures Bucket(s) <= Bucket(t)
  {
    if s >= MIN_NS && Bucket(s) > Bucket(t) {
      GrowthMonotone(Bucket(t), Bucket(s) - 1);
    }
  }

  lemma BucketValueMonotone(a: nat, b: nat)
    requires a <= b
    ensures BucketValue(a) <= BucketValue(b)
  {
    var v, w := BucketValue(a), BucketValue(b);
    assert Square(1000.0) == 1000000.0;
    hide Square, Growth, RootFrom, BucketValue;
    if a > 0 {
      GrowthMonotone(2 * a - 1, 2 * b - 1);
      RootsOrdered(v, w, 1000000.0 * Growth(2 * b - 1));
    } else if b > 0 {
      RootsOrdered(1000, w, 1000000.0 * Growth(2 * b - 1));
    }
  }

  lemma RootsOrdered(v: nat, w: nat, x: real)
    requires Square(v as real) <= x < Square((w + 1) as real)
    ensures v <= w
  {
    hide Square;
    if v >= w + 1 {
      SquareOrder((w + 1) as real, v as real);
    }
  }

  // ---------- the 2.5% promise ----------

  /** v is within 2.5% of t. */
  predicate Within(v: int, t: int) {
    39 * t <= 40 * v <= 41 * t
  }

  /** From a lower bucket edge g up, the squares leave room for the promise and the lost fraction. */
  lemma MidpointHigh(v: nat, t: int, g: real)
    requires 1000.0 <= g <= t as real && Square(v as real) <= 1.05 * Square(g)
    ensures 40 * v <= 41 * t
  {
    var r := t as real;
    assert Square(1.025) == 1.050625 && Square(1000.0) == 1000000.0;
    SquareOrder(1000.0, r);
    SquareOrder(g, r);
    SquareScale(1.025, r);
    hide Square;
    if 40 * v > 41 * t {
      SquareOrder(1.025 * r, v as real);
    }
  }

  lemma MidpointLow(v: nat, t: int, g: real)
    requires 1102.5 <= g && t as real < 1.05 * g && 1.05 * Square(g) < Square((v + 1) as real)
    ensures 39 * t <= 40 * v
  {
    if 39 * t > 40 * v {
      SquareOrder((v + 1) as real, 1.02375 * g + 1.0);
      Binomial(g);
      GrowsPast(g);
      hide Square;
    }
  }

  lemma Binomial(g: real)
    ensures Square(1.02375 * g + 1.0) == 1.0480640625 * Square(g) + 2.0475 * g + 1.0
  {
  }

  lemma GrowsPast(g: real)
    requires g >= 1102.5
    ensures 0.0019359375 * Square(g) >= 2.0475 * g + 1.0
  {
    assert Square(g) >= 1102.5 * g;
    hide Square;
  }

  lemma BucketEdges(b: nat)
    requires b > 0
    ensures Growth(2 * b - 1) == 1.05 * Square(Growth(b - 1))
  {
    GrowthAdds(b - 1, b - 1);
    assert 2 * b - 2 == (b - 1) + (b - 1);
  }

  lemma SmallGrowth()
    ensures Growth(0) == 1.0 && Growth(1) == 1.05 && Growth(2) == 1.1025 && Growth(3) == 1.157625
  {
    assert Growth(1) == 1.05 * Growth(0);
    assert Growth(2) == 1.05 * Growth(1);
    assert Growth(3) == 1.05 * Growth(2);
  }

  lemma FirstBuckets()
    ensures BucketValue(1) == 1024 && BucketValue(2) == 1075
  {
    SmallGrowth();
    assert Square(1024.0) == 1048576.0 && Square(1025.0) == 1050625.0;
    assert Square(1075.0) == 1155625.0 && Square(1076.0) == 1157776.0;
    hide Square, Growth, RootFrom, BucketValue;
    RootsOrdered(1024, BucketValue(1), 1050000.0);
    RootsOrdered(BucketValue(1), 1024, 1050000.0);
    RootsOrdered(1075, BucketValue(2), 1157625.0);
    RootsOrdered(BucketValue(2), 1075, 1157625.0);
  }

  lemma MidpointWithin(t: int)
    requires t >= MIN_NS
    ensures Within(BucketValue(Bucket(t)), t)
  {
    hide Square, Growth, RootFrom, BucketValue, Bucket;
    var b := Bucket(t);
    var v, u := BucketValue(b), Growth(b - 1);
    SmallGrowth();
    if b <= 2 {
      FirstBuckets();
    } else {
      BucketEdges(b);
      Thousandfold(u);
      MidpointHigh(v, t, 1000.0 * u);
      GrowthMonotone(2, b - 1);
      GrowthNext(b - 1);
      MidpointLow(v, t, 1000.0 * u);
    }
  }

  lemma GrowthNext(k: nat)
    ensures Growth(k + 1) == 1.05 * Growth(k)
  {
  }

  lemma Thousandfold(u: real)
    ensures 1000000.0 * (1.05 * Square(u)) == 1.05 * Square(1000.0 * u)
  {
    SquareScale(1000.0, u);
    assert Square(1000.0) == 1000000.0;
    hide Square;
  }

  /** Any latency is reported within 2.5% exactly from 976 ns on: below that the 1 microsecond
      floor is further off. */
  lemma ReportedWithin(t: int)
    ensures Within(BucketValue(Bucket(t)), t) <==> t >= 976
  {
    if t >= MIN_NS {
      MidpointWithin(t);
    }
  }

  // ---------- counts ----------

  /** The counts of a bag of buckets: no bucket without a count. */
  function Counts(m: multiset<int>): map<int, int> {
    map b | b in m :: m[b]
  }

  /** A missing count is zero. */
  function At(c: map<int, int>, b: int): int {
    if b in c then c[b] else 0
  }

  /** The buckets of a stream of latencies. */
  function Buckets(ns: seq<int>): (b: seq<int>)
    ensures |b| == |ns| && forall i :: 0 <= i < |ns| ==> b[i] == Bucket(ns[i])
  {
    seq(|ns|, i requires 0 <= i < |ns| => Bucket(ns[i]))
  }

  /** The histogram a stream of latencies amounts to. */
  function HistOf(ns: seq<int>): map<int, int> {
    Counts(multiset(Buckets(ns)))
  }

  lemma BucketsConcat(a: seq<int>, b: seq<int>)
    ensures Buckets(a + b) == Buckets(a) + Buckets(b)
  {
  }

  /** One more latency is one more count in its bucket. */
  lemma HistOfMore(ns: seq<int>, x: int)
    ensures var c, b := HistOf(ns), Bucket(x);
            HistOf(ns + [x]) == c[b := At(c, b) + 1]
  {
    BucketsConcat(ns, [x]);
    assert Buckets([x]) == [Bucket(x)];
    hide Bucket, Buckets;
    var m, b := multiset(Buckets(ns)), Bucket(x);
    assert multiset(Buckets(ns) + [b]) == m + multiset{b};
    CountsMore(m, b);
  }

  lemma CountsMore(m: multiset<int>, b: int)
    ensures Counts(m + multiset{b}) == Counts(m)[b := At(Counts(m), b) + 1]
  {
    var c := Counts(m + multiset{b});
    assert forall x :: x in c <==> x in m || x == b;
    assert forall x :: x in c && x != b ==> c[x] == m[x];
  }

  class Hist {
    var c: map<int, int>
    ghost var recorded: seq<int> // the latencies since the last take

    ghost predicate Valid()
      reads this
    {
      c == HistOf(recorded)
    }

    constructor ()
      ensures Valid() && recorded == []
    {
      c, recorded := map[], [];
    }

    method Record(ns: int)
      requires Valid()
      modifies this
      ensures Valid() && recorded == old(recorded) + [ns]
    {
      hide HistOf, Bucket;
      HistOfMore(recorded, ns);
      var b := Bucket(ns);
      c := c[b := At(c, b) + 1];
      recorded := recorded + [ns];
    }

    /** The counts since the last take, and a fresh start. */
    method TakeDelta() returns (d: map<int, int>)
      requires Valid()
      modifies this
      ensures Valid() && recorded == [] && d == HistOf(old(recorded))
    {
      d := c;
      c, recorded := map[], [];
    }
  }

  lemma HasMember(s: set<int>)
    requires s != {}
    ensures exists k :: k in s
  {
    assert (forall k :: k !in s) ==> s == {};
  }

  /** Fold src into dst, whatever order the keys come in. */
  method Merge(dst: map<int, int>, src: map<int, int>) returns (r: map<int, int>)
    ensures r.Keys == dst.Keys + src.Keys
    ensures forall b :: b in r ==> r[b] == At(dst, b) + At(src, b)
  {
    r := dst;
    var todo := src.Keys;
    while todo != {}
      invariant todo <= src.Keys && r.Keys == dst.Keys + (src.Keys - todo)
      invariant forall b :: b in r ==>
                  r[b] == At(dst, b) + (if b in todo then 0 else At(src, b))
      decreases todo
    {
      HasMember(todo);
      var k :| k in todo;
      r := r[k := At(r, k) + src[k]];
      todo := todo - {k};
    }
  }

  /** Merging the counts of two bags gives the counts of their union. */
  lemma MergedCounts(r: map<int, int>, m: multiset<int>, n: multiset<int>)
    requires r.Keys == Counts(m).Keys + Counts(n).Keys
    requires forall b :: b in r ==> r[b] == At(Counts(m), b) + At(Counts(n), b)
    ensures r == Counts(m + n)
  {
    var c := Counts(m + n);
    assert forall b :: b in c <==> b in m || b in n;
    assert r.Keys == c.Keys;
    forall b | b in r ensures r[b] == c[b] {
      assert (m + n)[b] == m[b] + n[b];
    }
  }

  function Concat(parts: seq<seq<int>>): seq<int> {
    if parts == [] then [] else Concat(parts[..|parts| - 1]) + parts[|parts| - 1]
  }

  /** Folding the deltas of any parts, in any order, gives the histogram of any stream with the
      same latencies. */
  method MergeAll(parts: seq<seq<int>>, deltas: seq<map<int, int>>, ghost whole: seq<int>) returns (r: map<int, int>)
    requires |deltas| == |parts| && forall i :: 0 <= i < |parts| ==> deltas[i] == HistOf(parts[i])
    requires multiset(Concat(parts)) == multiset(whole)
    ensures r == HistOf(whole)
  {
    r := map[];
    for i := 0 to |parts|
      invariant r == HistOf(Concat(parts[..i]))
    {
      assert parts[..i + 1][..i] == parts[..i];
      BucketsConcat(Concat(parts[..i]), parts[i]);
      ghost var before := r;
      r := Merge(r, deltas[i]);
      MergedCounts(r, multiset(Buckets(Concat(parts[..i]))), multiset(Buckets(parts[i])));
    }
    assert parts[..|parts|] == parts;
    SameBuckets(Concat(parts), whole);
  }

  lemma BucketsWithout(a: seq<int>, i: nat)
    requires i < |a|
    ensures multiset(Buckets(a)) == multiset(Buckets(a[..i] + a[i + 1..])) + multiset{Bucket(a[i])}
    ensures multiset(a) == multiset(a[..i] + a[i + 1..]) + multiset{a[i]}
  {
    var c, d := a[..i], a[i + 1..];
    assert a == c + [a[i]] + d;
    assert Buckets([a[i]]) == [Bucket(a[i])];
    BucketsConcat(c + [a[i]], d);
    BucketsConcat(c, [a[i]]);
    BucketsConcat(c, d);
    hide Buckets, Bucket;
  }

  /** The buckets of a stream do not depend on its order. */
  lemma {:induction false} SameBuckets(a: seq<int>, b: seq<int>)
    requires multiset(a) == multiset(b)
    ensures multiset(Buckets(a)) == multiset(Buckets(b))
  {
    hide Buckets, Bucket;
    if a == [] {
      assert |multiset(b)| == 0;
      assert b == [];
    } else {
      assert a[0] in multiset(b);
      var i :| 0 <= i < |b| && b[i] == a[0];
      BucketsWithout(a, 0);
      BucketsWithout(b, i);
      assert multiset(a[..0] + a[1..]) == multiset(a) - multiset{a[0]};
      assert multiset(b[..i] + b[i + 1..]) == multiset(b) - multiset{a[0]};
      SameBuckets(a[..0] + a[1..], b[..i] + b[i + 1..]);
    }
  }

  // ---------- quantiles ----------

  ghost predicate Ascending(s: seq<int>) {
    forall i, j :: 0 <= i < j < |s| ==> s[i] <= s[j]
  }

  /** The least whole number not below x. */
  function Ceil(x: real): int {
    -((-x).Floor)
  }

  /** The one-based rank of quantile q among n samples. */
  function Rank(q: real, n: nat): int {
    Ceil(q * n as real)
  }

  /** The rank is the one whole number that q * n does not exceed, by less than one. */
  lemma RankIs(q: real, n: nat, r: int)
    ensures r == Rank(q, n) <==> (r - 1) as real < q * n as real <= r as real
  {
  }

  lemma RankInRange(q: real, n: nat)
    requires 0.0 < q <= 1.0 && n > 0
    ensures 1 <= Rank(q, n) <= n
  {
    assert 0.0 < q * n as real <= n as real;
  }

  lemma RankMonotone(p: real, q: real, n: nat)
    requires p <= q
    ensures Rank(p, n) <= Rank(q, n)
  {
    assert p * n as real <= q * n as real;
  }

  /** The value reported for the rank's sample of an ascending sequence of buckets. */
  function ValueAt(s: seq<int>, q: real): int
    requires 0.0 < q <= 1.0
  {
    if s == [] then 0 else RankInRange(q, |s|); BucketValue(s[Rank(q, |s|) - 1])
  }

  function InsertInt(s: seq<int>, x: int): seq<int> {
    if s == [] then [x] else if x < s[0] then [x] + s else [s[0]] + InsertInt(s[1..], x)
  }

  /** Integers sorted in ascending order. */
  function SortInts(s: seq<int>): (r: seq<int>)
    ensures Ascending(r) && multiset(r) == multiset(s)
  {
    if s == [] then [] else
      InsertIntSorts(SortInts(s[..|s| - 1]), s[|s| - 1]);
      assert s == s[..|s| - 1] + [s[|s| - 1]];
      InsertInt(SortInts(s[..|s| - 1]), s[|s| - 1])
  }

  lemma {:induction false} InsertIntSorts(s: seq<int>, x: int)
    requires Ascending(s)
    ensures Ascending(InsertInt(s, x)) && multiset(InsertInt(s, x)) == multiset(s) + multiset{x}
  {
    if s != [] && x >= s[0] {
      InsertIntSorts(s[1..], x);
      var r := InsertInt(s[1..], x);
      AscendingCons(s[0], r, s, x);
      hide Ascending, InsertInt;
      assert s == [s[0]] + s[1..];
      assert multiset([s[0]] + r) == multiset{s[0]} + multiset(r);
    } else {
      assert InsertInt(s, x) == [x] + s;
    }
  }

  lemma AscendingCons(x: int, r: seq<int>, s: seq<int>, y: int)
    requires Ascending(s) && s != [] && x == s[0] && x <= y
    requires Ascending(r) && multiset(r) == multiset(s[1..]) + multiset{y}
    ensures Ascending([x] + r)
  {
    forall j | 0 <= j < |r| ensures x <= r[j] {
      assert r[j] in multiset(r);
      assert r[j] == y || r[j] in multiset(s[1..]);
      assert r[j] == y || r[j] in s[1..];
    }
  }

  lemma AscendingTail(s: seq<int>)
    requires Ascending(s) && s != []
    ensures Ascending(s[1..])
  {
  }

  /** An ascending sequence is determined by its elements. */
  lemma {:induction false} AscendingUnique(s: seq<int>, t: seq<int>)
    requires Ascending(s) && Ascending(t) && multiset(s) == multiset(t)
    ensures s == t
  {
    hide *;
    if s == [] || t == [] {
      assert |multiset(s)| == |multiset(t)|;
    } else {
      SameHead(s, t);
      AscendingTail(s);
      AscendingTail(t);
      assert s == [s[0]] + s[1..] && t == [t[0]] + t[1..];
      assert multiset(s[1..]) == multiset(s) - multiset{s[0]};
      assert multiset(t[1..]) == multiset(t) - multiset{t[0]};
      AscendingUnique(s[1..], t[1..]);
    }
  }

  lemma SameHead(s: seq<int>, t: seq<int>)
    requires Ascending(s) && Ascending(t) && multiset(s) == multiset(t) && s != [] && t != []
    ensures s[0] == t[0]
  {
    assert s[0] in multiset(t) && t[0] in multiset(s);
    assert s[0] in t && t[0] in s;
  }

  /** Each key as often as it is counted, in the order of the keys. */
  ghost function Expand(c: map<int, int>, keys: seq<int>): seq<int> {
    if keys == [] then []
    else
      var k := keys[|keys| - 1];
      Expand(c, keys[..|keys| - 1]) + seq(if At(c, k) > 0 then At(c, k) else 0, _ => k)
  }

  /** m holds every bucket as often as c counts it. */
  ghost predicate IsBag(c: map<int, int>, m: multiset<int>) {
    forall b :: m[b] == At(c, b)
  }

  ghost predicate NonNegative(c: map<int, int>) {
    forall b :: b in c ==> c[b] >= 0
  }

  ghost predicate Increasing(keys: seq<int>) {
    forall i, j :: 0 <= i < j < |keys| ==> keys[i] < keys[j]
  }

  lemma Repeated(k: int, n: nat)
    ensures var r := seq(n, _ => k); multiset(r)[k] == n && forall x :: x != k ==> multiset(r)[x] == 0
    decreases n
  {
    var r := seq(n, _ => k);
    if n > 0 {
      Repeated(k, n - 1);
      assert r == seq(n - 1, _ => k) + [k];
    }
  }

  ghost predicate Distinct(keys: seq<int>) {
    forall i, j :: 0 <= i < j < |keys| ==> keys[i] != keys[j]
  }

  /** The expansion of distinct keys counts every key as c does, and nothing else. */
  lemma {:induction false} ExpandBag(c: map<int, int>, keys: seq<int>, x: int)
    requires NonNegative(c) && Distinct(keys)
    ensures multiset(Expand(c, keys))[x] == if x in keys then At(c, x) else 0
  {
    if keys != [] {
      var front, k := keys[..|keys| - 1], keys[|keys| - 1];
      assert keys == front + [k];
      ExpandBag(c, front, x);
      Repeated(k, At(c, k));
      assert k !in front;
    }
  }

  /** Keys listed without repetition, each once. */
  ghost predicate Lists(keys: seq<int>, c: map<int, int>) {
    Distinct(keys) && forall k :: k in keys <==> k in c
  }

  lemma ExpandIsBag(c: map<int, int>, keys: seq<int>)
    requires NonNegative(c) && Lists(keys, c)
    ensures IsBag(c, multiset(Expand(c, keys)))
  {
    forall x ensures multiset(Expand(c, keys))[x] == At(c, x) {
      ExpandBag(c, keys, x);
    }
  }

  lemma BagUnique(c: map<int, int>, m: multiset<int>, n: multiset<int>)
    requires IsBag(c, m) && IsBag(c, n)
    ensures m == n
  {
    forall x ensures m[x] == n[x] {
    }
  }

  lemma {:induction false} ExpandAscends(c: map<int, int>, keys: seq<int>)
    requires Increasing(keys)
    ensures Ascending(Expand(c, keys)) && forall i :: 0 <= i < |Expand(c, keys)| ==> Expand(c, keys)[i] in keys
  {
    if keys != [] {
      var front, k := keys[..|keys| - 1], keys[|keys| - 1];
      ExpandAscends(c, front);
      assert forall x :: x in front ==> x in keys && x < k;
    }
  }

  lemma {:induction false} ExpandPrefix(c: map<int, int>, keys: seq<int>, i: nat)
    requires i <= |keys|
    ensures Expand(c, keys[..i]) <= Expand(c, keys)
  {
    if i == |keys| {
      assert keys[..i] == keys;
    } else {
      ExpandPrefix(c, keys[..|keys| - 1], i);
      assert keys[..|keys| - 1][..i] == keys[..i];
    }
  }

  /** The full expansion is the one ascending sequence the counts stand for. */
  lemma ExpandIs(c: map<int, int>, keys: seq<int>, s: seq<int>)
    requires NonNegative(c) && Increasing(keys) && Lists(keys, c)
    requires Ascending(s) && IsBag(c, multiset(s))
    ensures s == Expand(c, keys)
  {
    hide Ascending, IsBag, Lists, NonNegative;
    ExpandIsBag(c, keys);
    ExpandAscends(c, keys);
    BagUnique(c, multiset(s), multiset(Expand(c, keys)));
    AscendingUnique(s, Expand(c, keys));
  }

  /** Sorting distinct keys: increasing, the same keys, and as many samples in all. */
  lemma SortedKeys(c: map<int, int>, keys: seq<int>)
    requires NonNegative(c) && Lists(keys, c)
    ensures Increasing(SortInts(keys)) && Lists(SortInts(keys), c)
    ensures |Expand(c, SortInts(keys))| == |Expand(c, keys)|
  {
    var r := SortInts(keys);
    StillDistinct(keys, r);
    assert Lists(r, c) by {
      forall k ensures k in r <==> k in c {
        assert k in r <==> k in multiset(r);
        assert k in keys <==> k in multiset(keys);
      }
    }
    ExpandIsBag(c, keys);
    ExpandIsBag(c, r);
    hide IsBag, NonNegative, Lists;
    BagUnique(c, multiset(Expand(c, keys)), multiset(Expand(c, r)));
    assert |multiset(Expand(c, keys))| == |multiset(Expand(c, r))|;
  }

  lemma OnlyOnce(s: seq<int>, j: nat)
    requires j < |s|
    ensures multiset(s)[s[j]] == 1 <==> forall i :: 0 <= i < |s| && i != j ==> s[i] != s[j]
  {
    var a, b := s[..j], s[j + 1..];
    assert s == a + [s[j]] + b;
    assert multiset(s)[s[j]] == multiset(a)[s[j]] + 1 + multiset(b)[s[j]];
    assert s[j] in multiset(a) <==> s[j] in a;
    assert s[j] in multiset(b) <==> s[j] in b;
    assert forall i :: 0 <= i < j ==> s[i] in a;
    assert forall i :: j < i < |s| ==> s[i] == b[i - j - 1];
  }

  lemma StillDistinct(s: seq<int>, r: seq<int>)
    requires Distinct(s) && multiset(r) == multiset(s)
    ensures Distinct(r)
  {
    forall i, j | 0 <= i < j < |r| ensures r[i] != r[j] {
      assert r[j] in multiset(s);
      var k :| 0 <= k < |s| && s[k] == r[j];
      OnlyOnce(s, k);
      OnlyOnce(r, j);
    }
  }

  /** The keys of the counts in any order, and the total of the counts. */
  method KeysAndTotal(c: map<int, int>) returns (keys: seq<int>, total: int)
    ensures Lists(keys, c) && (NonNegative(c) ==> total == |Expand(c, keys)|)
  {
    keys, total := [], 0;
    var todo := c.Keys;
    while todo != {}
      invariant todo <= c.Keys && Distinct(keys) && forall k :: k in keys <==> k in c && k !in todo
      invariant NonNegative(c) ==> total == |Expand(c, keys)|
      decreases todo
    {
      HasMember(todo);
      var k :| k in todo;
      assert (keys + [k])[..|keys|] == keys;
      keys := keys + [k];
      total := total + c[k];
      todo := todo - {k};
    }
  }

  /** v is what the sample with k others before it is reported as, where k is the last whole number
      below a fraction q of all the samples. */
  ghost predicate IsQuantile(v: int, s: seq<int>, q: real) {
    if s == [] then v == 0
    else exists k :: 0 <= k < |s| && k as real < q * |s| as real <= (k + 1) as real && v == BucketValue(s[k])
  }

  /** The quantile of non-negative counts, for whatever ascending samples the counts stand for. */
  method Quantile(c: map<int, int>, q: real) returns (v: int)
    requires NonNegative(c) && 0.0 < q <= 1.0
    ensures forall s: seq<int> :: Ascending(s) && IsBag(c, multiset(s)) ==> IsQuantile(v, s, q) && v == ValueAt(s, q)
  {
    hide *;
    var keys, total := KeysAndTotal(c);
    SortedKeys(c, keys);
    keys := SortInts(keys);
    ValueOf(Expand(c, keys), q);
    if total == 0 {
      Answers(c, keys, q, 0);
      return 0;
    }
    RankInRange(q, total);
    var rank := Rank(q, total);
    var cum := 0;
    ExpandNone(c, keys);
    assert keys[..|keys|] == keys;
    for i := 0 to |keys|
      invariant cum == |Expand(c, keys[..i])| < rank
    {
      ExpandNext(c, keys, i);
      cum := cum + c[keys[i]];
      if cum >= rank {
        ExpandPrefix(c, keys, i + 1);
        Answers(c, keys, q, BucketValue(keys[i]));
        return BucketValue(keys[i]);
      }
    }
    assert false;
  }

  /** The answer for the expansion is the answer for all ascending samples. */
  lemma Answers(c: map<int, int>, keys: seq<int>, q: real, v: int)
    requires NonNegative(c) && Increasing(keys) && Lists(keys, c)
    requires 0.0 < q <= 1.0 && v == ValueAt(Expand(c, keys), q)
    ensures forall s: seq<int> :: Ascending(s) && IsBag(c, multiset(s)) ==> IsQuantile(v, s, q) && v == ValueAt(s, q)
  {
    hide *;
    forall s: seq<int> | Ascending(s) && IsBag(c, multiset(s)) ensures IsQuantile(v, s, q) && v == ValueAt(s, q) {
      ExpandIs(c, keys, s);
      ValueOf(s, q);
    }
  }

  lemma ValueOf(s: seq<int>, q: real)
    requires 0.0 < q <= 1.0
    ensures s == [] ==> ValueAt(s, q) == 0
    ensures s != [] ==> 1 <= Rank(q, |s|) <= |s| && ValueAt(s, q) == BucketValue(s[Rank(q, |s|) - 1])
    ensures IsQuantile(ValueAt(s, q), s, q)
  {
    if s != [] {
      RankInRange(q, |s|);
      var k := Rank(q, |s|) - 1;
      RankIs(q, |s|, k + 1);
      assert k as real < q * |s| as real <= (k + 1) as real && ValueAt(s, q) == BucketValue(s[k]);
    }
  }

  lemma ExpandNone(c: map<int, int>, keys: seq<int>)
    ensures Expand(c, keys[..0]) == []
  {
  }

  lemma ExpandNext(c: map<int, int>, keys: seq<int>, i: nat)
    requires i < |keys| && NonNegative(c) && Lists(keys, c)
    ensures keys[i] in c && c[keys[i]] >= 0
    ensures Expand(c, keys[..i + 1]) == Expand(c, keys[..i]) + seq(c[keys[i]], _ => keys[i])
  {
    assert keys[i] in keys;
    assert keys[..i + 1][..i] == keys[..i];
  }

  // ---------- what the quantiles of a stream of latencies are worth ----------

  lemma HistIsBag(ns: seq<int>)
    ensures NonNegative(HistOf(ns)) && IsBag(HistOf(ns), multiset(Buckets(ns)))
  {
  }

  /** For a stream of latencies, in ascending order: the histogram's quantile is the value of the
      bucket of the latency with k before it, for the last k below q * n, and it is within 2.5% of
      that latency exactly if the latency is 976 ns or more. */
  method QuantileOfStream(ns: seq<int>, q: real) returns (v: int)
    requires Ascending(ns) && ns != [] && 0.0 < q <= 1.0
    ensures exists k :: 0 <= k < |ns| && k as real < q * |ns| as real <= (k + 1) as real
                        && v == BucketValue(Bucket(ns[k])) && (39 * ns[k] <= 40 * v <= 41 * ns[k] <==> ns[k] >= 976)
  {
    hide BucketValue, Bucket, Rank, NonNegative, IsBag, HistOf;
    HistIsBag(ns);
    BucketsAscend(ns);
    RankInRange(q, |ns|);
    v := Quantile(HistOf(ns), q);
    var k := Rank(q, |ns|) - 1;
    RankIs(q, |ns|, k + 1);
    ReportedWithin(ns[k]);
    assert Ascending(Buckets(ns)) && v == ValueAt(Buckets(ns), q);
    assert v == BucketValue(Bucket(ns[k]));
  }

  lemma BucketsAscend(ns: seq<int>)
    requires Ascending(ns)
    ensures Ascending(Buckets(ns))
  {
    hide Bucket;
    forall i, j | 0 <= i < j < |ns| ensures Buckets(ns)[i] <= Buckets(ns)[j] {
      BucketMonotone(ns[i], ns[j]);
    }
  }

  /** A higher quantile of the same latencies is never reported lower: p50 <= p90 <= p99. */
  lemma QuantilesOrdered(ns: seq<int>, p: real, q: real)
    requires Ascending(ns) && 0.0 < p <= q <= 1.0
    ensures ValueAt(Buckets(ns), p) <= ValueAt(Buckets(ns), q)
  {
    hide BucketValue, Bucket, Rank;
    if ns != [] {
      RankInRange(p, |ns|);
      RankInRange(q, |ns|);
      RankMonotone(p, q, |ns|);
      var i, j := Rank(p, |ns|) - 1, Rank(q, |ns|) - 1;
      BucketMonotone(ns[i], ns[j]);
      BucketValueMonotone(Bucket(ns[i]), Bucket(ns[j]));
    }
  }
}
