/** The latency histogram and its conservative percentiles
    (crates/application/src/diagnostics/histogram.rs). */
module Histograms {
  import opened Wrappers

  const BUCKETS: nat := 1025
  const WIDTH: nat := 100
  const MAX64: nat := 0xFFFF_FFFF_FFFF_FFFF

  function Min(a: nat, b: nat): nat {
    if a <= b then a else b
  }

  function Max(a: nat, b: nat): nat {
    if a >= b then a else b
  }

  /** Elapsed nanoseconds as microseconds, rounded up, as far as 64 bits reach. */
  function Micros(nanos: nat): (r: nat)
    ensures r <= MAX64
    ensures nanos <= MAX64 * 1000 ==> r * 1000 - 999 <= nanos <= r * 1000
    ensures nanos > MAX64 * 1000 ==> r == MAX64
  {
    Min((nanos + 999) / 1000, MAX64)
  }

  /** Bucket i > 0 holds 100i + 1 to 100i + 100, bucket 0 also holds 0, and the last one all the rest. */
  function Bucket(micros: nat): (r: nat)
    ensures r < BUCKETS
    ensures micros <= (r + 1) * WIDTH || r == BUCKETS - 1
    ensures micros > r * WIDTH || r == 0
  {
    Min((if micros == 0 then 0 else micros - 1) / WIDTH, BUCKETS - 1)
  }

  // ----- counting samples

  ghost function Count(samples: seq<nat>, p: nat -> bool): nat {
    if samples == [] then 0
    else Count(samples[..|samples| - 1], p) + if p(samples[|samples| - 1]) then 1 else 0
  }

  lemma {:induction false} CountMono(samples: seq<nat>, p: nat -> bool, q: nat -> bool)
    requires forall x :: p(x) ==> q(x)
    ensures Count(samples, p) <= Count(samples, q) <= |samples|
  {
    if samples == [] {
    } else {
      CountMono(samples[..|samples| - 1], p, q);
    }
  }

  lemma {:induction false} CountSplit(samples: seq<nat>, p: nat -> bool, q: nat -> bool, either: nat -> bool)
    requires forall x :: either(x) <==> p(x) || q(x)
    requires forall x :: !(p(x) && q(x))
    ensures Count(samples, either) == Count(samples, p) + Count(samples, q)
  {
    if samples == [] {
    } else {
      CountSplit(samples[..|samples| - 1], p, q, either);
    }
  }

  lemma {:induction false} CountAll(samples: seq<nat>, p: nat -> bool)
    requires forall x :: x in samples ==> p(x)
    ensures Count(samples, p) == |samples|
  {
    if samples == [] {
    } else {
      CountAll(samples[..|samples| - 1], p);
    }
  }

  lemma {:induction false} CountNone(samples: seq<nat>, p: nat -> bool)
    requires forall x :: x in samples ==> !p(x)
    ensures Count(samples, p) == 0
  {
    if samples == [] {
    } else {
      CountNone(samples[..|samples| - 1], p);
    }
  }

  ghost function InBucket(i: nat): nat -> bool {
    (x: nat) => Bucket(x) == i
  }

  ghost function InFirst(i: nat): nat -> bool {
    (x: nat) => Bucket(x) < i
  }

  ghost function Below(v: nat): nat -> bool {
    x => x < v
  }

  ghost function AtMost(v: nat): nat -> bool {
    x => x <= v
  }

  // ----- the k-th smallest sample

  /** `v` is the sample at rank k when the samples are put in order, counting from one. */
  ghost predicate IsRank(samples: seq<nat>, k: nat, v: nat) {
    v in samples && Count(samples, Below(v)) < k <= Count(samples, AtMost(v))
  }

  lemma RankUnique(samples: seq<nat>, k: nat, v: nat, w: nat)
    requires IsRank(samples, k, v) && IsRank(samples, k, w)
    ensures v == w
  {
    if v < w {
      CountMono(samples, AtMost(v), Below(w));
    } else if w < v {
      CountMono(samples, AtMost(w), Below(v));
    }
  }

  lemma RankExists(samples: seq<nat>, k: nat)
    requires 1 <= k <= |samples|
    ensures exists v :: IsRank(samples, k, v)
  {
    CountNone(samples, Below(0));
    var top := Top(samples);
    TopIsMost(samples);
    CountAll(samples, AtMost(top));
    RankWithin(samples, k, 0, top);
  }

  /** Search upwards for the first value that enough samples do not exceed. */
  lemma {:induction false} RankWithin(samples: seq<nat>, k: nat, low: nat, high: nat)
    requires low <= high && Count(samples, Below(low)) < k <= Count(samples, AtMost(high))
    ensures exists v :: IsRank(samples, k, v)
    decreases high - low
  {
    if k <= Count(samples, AtMost(low)) {
      if low !in samples {
        CountOnly(samples, low);
      }
      assert IsRank(samples, k, low);
    } else {
      CountMono(samples, Below(low + 1), AtMost(low));
      if low == high {
        assert false;
      }
      RankWithin(samples, k, low + 1, high);
    }
  }

  lemma {:induction false} CountOnly(samples: seq<nat>, v: nat)
    requires v !in samples
    ensures Count(samples, AtMost(v)) == Count(samples, Below(v))
  {
    if samples == [] {
    } else {
      CountOnly(samples[..|samples| - 1], v);
    }
  }

  ghost function Top(samples: seq<nat>): nat {
    if samples == [] then 0 else Max(Top(samples[..|samples| - 1]), samples[|samples| - 1])
  }

  lemma {:induction false} TopIsMost(samples: seq<nat>)
    ensures forall x :: x in samples ==> x <= Top(samples)
    ensures samples != [] ==> Top(samples) in samples
  {
    if samples == [] {
    } else {
      var init := samples[..|samples| - 1];
      TopIsMost(init);
      assert samples == init + [samples[|samples| - 1]];
    }
  }

  // ----- snapshots

  datatype Snapshot = Snapshot(buckets: seq<nat>, failures: nat, unavailable: nat, maximum: nat)

  /** The buckets and the maximum are those of the samples; a full counter stays full. */
  ghost predicate Reflects(buckets: seq<nat>, maximum: nat, samples: seq<nat>) {
    && |buckets| == BUCKETS && maximum == Top(samples)
    && forall i :: 0 <= i < BUCKETS ==> buckets[i] == Min(Count(samples, InBucket(i)), MAX64)
  }

  function Total(buckets: seq<nat>, i: nat): nat
    requires i <= |buckets|
  {
    if i == 0 then 0 else Total(buckets, i - 1) + buckets[i - 1]
  }

  lemma {:induction false} TotalCounts(buckets: seq<nat>, maximum: nat, samples: seq<nat>, i: nat)
    requires Reflects(buckets, maximum, samples) && |samples| <= MAX64 && i <= BUCKETS
    ensures Total(buckets, i) == Count(samples, InFirst(i))
  {
    if i == 0 {
      CountNone(samples, InFirst(0));
    } else {
      TotalCounts(buckets, maximum, samples, i - 1);
      CountSplit(samples, InFirst(i - 1), InBucket(i - 1), InFirst(i));
      CountMono(samples, InBucket(i - 1), InBucket(i - 1));
    }
  }

  lemma {:induction false} TotalMono(buckets: seq<nat>, i: nat, j: nat)
    requires i <= j <= |buckets|
    ensures Total(buckets, i) <= Total(buckets, j)
  {
    if i < j {
      TotalMono(buckets, i, j - 1);
    }
  }

  /** Number of samples, as far as 64 bits reach. */
  method Samples(snap: Snapshot) returns (n: nat)
    ensures n == Min(Total(snap.buckets, |snap.buckets|), MAX64)
  {
    n := 0;
    for i := 0 to |snap.buckets|
      invariant n == Min(Total(snap.buckets, i), MAX64)
    {
      n := Min(n + snap.buckets[i], MAX64);
    }
  }

  /** The least rank that covers this percentage of `n` samples. */
  predicate Covers(n: nat, percentile: nat, k: nat) {
    n * percentile <= 100 * k < n * percentile + 100
  }

  function Rank(n: nat, percentile: nat): (k: nat)
    ensures Covers(n, percentile, k)
  {
    (n * percentile + 99) / 100
  }

  lemma RankInside(n: nat, percentile: nat)
    requires n > 0 && 1 <= percentile <= 100
    ensures 1 <= Rank(n, percentile) <= n
  {
    assert n <= n * percentile <= n * 100;
  }

  function UpperEdge(i: nat, maximum: nat): nat {
    if i == BUCKETS - 1 then maximum else Min((i + 1) * WIDTH, maximum)
  }

  /** The bucket in which the running total reaches the rank. */
  predicate Reaches(buckets: seq<nat>, rank: nat, i: nat) {
    i < |buckets| && Total(buckets, i) < rank <= Total(buckets, i + 1)
  }

  method PercentileUpper(snap: Snapshot, percentile: nat) returns (r: Option<nat>)
    requires |snap.buckets| == BUCKETS
    ensures r.None? <==> Total(snap.buckets, BUCKETS) == 0 || percentile == 0 || percentile > 100
    ensures r.Some? ==> exists k: nat, i: nat ::
              && Covers(Min(Total(snap.buckets, BUCKETS), MAX64), percentile, k) && Reaches(snap.buckets, k, i)
              && r.value == UpperEdge(i, snap.maximum)
  {
    var samples := Samples(snap);
    if samples == 0 || percentile == 0 || percentile > 100 {
      return None;
    }
    var rank := Rank(samples, percentile);
    RankInside(samples, percentile);
    var total := 0;
    for i := 0 to BUCKETS
      invariant total == Total(snap.buckets, i) && total < rank
    {
      total := total + snap.buckets[i];
      if total >= rank {
        assert Reaches(snap.buckets, rank, i);
        return Some(UpperEdge(i, snap.maximum));
      }
    }
    assert false;
  }

  /** Any answer is an upper bound of the true percentile that overstates it by at most
      the width of a bucket, and never exceeds what was observed. */
  lemma PercentileIsTight(buckets: seq<nat>, maximum: nat, samples: seq<nat>, k: nat, i: nat, v: nat)
    requires Reflects(buckets, maximum, samples) && |samples| <= MAX64
    requires Reaches(buckets, k, i) && IsRank(samples, k, v)
    ensures Bucket(v) == i
    ensures v <= UpperEdge(i, maximum) <= maximum
    ensures v <= WIDTH * (BUCKETS - 1) ==> UpperEdge(i, maximum) <= v + WIDTH
    ensures v > WIDTH * (BUCKETS - 1) ==> UpperEdge(i, maximum) == maximum
  {
    TotalCounts(buckets, maximum, samples, i);
    TotalCounts(buckets, maximum, samples, i + 1);
    if Bucket(v) < i {
      CountMono(samples, AtMost(v), InFirst(i));
    } else if Bucket(v) > i {
      CountMono(samples, InFirst(i + 1), Below(v));
    }
    TopIsMost(samples);
  }

  lemma EverySampleCounts(buckets: seq<nat>, maximum: nat, samples: seq<nat>)
    requires Reflects(buckets, maximum, samples) && |samples| <= MAX64
    ensures Total(buckets, BUCKETS) == |samples|
  {
    TotalCounts(buckets, maximum, samples, BUCKETS);
    CountAll(samples, InFirst(BUCKETS));
  }

  // ----- recording

  function Saturating(n: nat): nat {
    Min(n + 1, MAX64)
  }

  class Histogram {
    const buckets: array<nat>
    var failures: nat
    var unavailable: nat
    var maximum: nat
    /** The successful samples, in microseconds. */
    ghost var samples: seq<nat>

    ghost predicate Valid()
      reads this, buckets
    {
      buckets.Length == BUCKETS && Reflects(buckets[..], maximum, samples)
    }

    constructor ()
      ensures Valid() && samples == [] && failures == 0 && unavailable == 0 && fresh(buckets)
    {
      buckets := new nat[BUCKETS](_ => 0);
      failures, unavailable, maximum, samples := 0, 0, 0, [];
    }

    method ResetQuiescent()
      requires Valid()
      modifies this, buckets
      ensures Valid() && samples == [] && failures == 0 && unavailable == 0
    {
      for i := 0 to BUCKETS
        invariant forall j :: 0 <= j < i ==> buckets[j] == 0
      {
        buckets[i] := 0;
      }
      failures, unavailable, maximum, samples := 0, 0, 0, [];
    }

    /** A failure is counted apart and never becomes a sample. */
    method Record(nanos: nat, success: bool)
      requires Valid()
      modifies this, buckets
      ensures Valid() && unavailable == old(unavailable)
      ensures samples == if success then old(samples) + [Micros(nanos)] else old(samples)
      ensures failures == if success then old(failures) else Saturating(old(failures))
    {
      hide Reflects, Micros, Bucket;
      if !success {
        failures := Saturating(failures);
        return;
      }
      var micros := Micros(nanos);
      RecordReflects(buckets[..], maximum, samples, micros);
      maximum := Max(maximum, micros);
      samples := samples + [micros];
      var b := Bucket(micros);
      ghost var before := buckets[..];
      buckets[b] := Saturating(buckets[b]);
      assert buckets[..] == before[b := Saturating(before[b])];
    }

    method Take() returns (snap: Snapshot)
      requires Valid()
      ensures |snap.buckets| == BUCKETS && Reflects(snap.buckets, snap.maximum, samples)
      ensures snap.failures == failures && snap.unavailable == unavailable
    {
      return Snapshot(buckets[..], failures, unavailable, maximum);
    }

    /** The percentile of a quiescent histogram, against the samples themselves. */
    method Percentile(percentile: nat) returns (r: Option<nat>)
      requires Valid() && |samples| <= MAX64
      ensures r.None? <==> samples == [] || percentile == 0 || percentile > 100
      ensures r.Some? ==> exists k: nat, v: nat :: Covers(|samples|, percentile, k) && IsRank(samples, k, v)
      ensures r.Some? ==> forall k: nat, v: nat :: Covers(|samples|, percentile, k) && IsRank(samples, k, v) ==>
                v <= r.value <= Top(samples) && (v <= 102_400 ==> r.value <= v + 100)
    {
      var snap := Take();
      r := PercentileUpper(snap, percentile);
      EverySampleCounts(snap.buckets, snap.maximum, samples);
      if r.Some? {
        var rank := Rank(|samples|, percentile);
        RankInside(|samples|, percentile);
        RankExists(samples, rank);
        ghost var k: nat, i: nat :| Covers(|samples|, percentile, k) && Reaches(snap.buckets, k, i)
                                    && r.value == UpperEdge(i, snap.maximum);
        forall j: nat, v: nat | Covers(|samples|, percentile, j) && IsRank(samples, j, v)
          ensures v <= r.value <= Top(samples) && (v <= 102_400 ==> r.value <= v + 100)
        {
          assert j == k;
          PercentileIsTight(snap.buckets, snap.maximum, samples, k, i, v);
        }
      }
    }
  }

  lemma RecordReflects(buckets: seq<nat>, maximum: nat, samples: seq<nat>, micros: nat)
    requires Reflects(buckets, maximum, samples)
    ensures var b := Bucket(micros);
            Reflects(buckets[b := Saturating(buckets[b])], Max(maximum, micros), samples + [micros])
  {
    var more := samples + [micros];
    assert more[..|more| - 1] == samples;
  }
}
