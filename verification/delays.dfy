/** delayTracker: a ring of the latest propagation delays and a running mean. */
module Delays {
  /** Go's integer division, for a positive divisor: truncates toward zero. */
  function Quo(a: int, b: int): int
    requires b > 0
  {
    if a >= 0 then a / b else -((-a) / b)
  }

  lemma QuoBounds(a: int, b: int)
    requires b > 0
    ensures a >= 0 ==> 0 <= b * Quo(a, b) <= a
    ensures a < 0 ==> a <= b * Quo(a, b) <= 0
  {
    if a >= 0 {
      DivBounds(a, b);
    } else {
      DivBounds(-a, b);
      Negate(b, (-a) / b);
    }
  }

  /** The quotient is the whole one nearest to zero within one of the true one. */
  lemma QuoIsExact(a: int, b: int)
    requires b > 0
    ensures a >= 0 ==> b * Quo(a, b) <= a < b * Quo(a, b) + b
    ensures a < 0 ==> b * Quo(a, b) - b < a <= b * Quo(a, b)
  {
    if a >= 0 {
      DivRest(a, b);
    } else {
      DivRest(-a, b);
      Negate(b, (-a) / b);
    }
  }

  lemma DivRest(a: int, b: int)
    requires a >= 0 && b > 0
    ensures b * (a / b) <= a < b * (a / b) + b
  {
    var q := a / b;
    assert a == b * q + a % b;
  }

  lemma DivBounds(a: int, b: int)
    requires a >= 0 && b > 0
    ensures 0 <= b * (a / b) <= a
  {
    var q := a / b;
    assert a == b * q + a % b;
    assert q >= 0;
  }

  lemma Negate(b: int, p: int)
    ensures b * (-p) == -(b * p)
  {
  }

  datatype Ring = Ring(size: int, min: int, max: int, nums: seq<int>, pos: int, mean: int)

  function Clamp(r: Ring, d: int): int {
    if d <= r.min then r.min else if d >= r.max then r.max else d
  }

  predicate Valid(r: Ring) {
    && 1 <= r.size && |r.nums| <= r.size
    && 0 <= r.pos <= r.size && (|r.nums| < r.size ==> r.pos == |r.nums|)
  }

  /** The next place of a full ring. */
  function Next(r: Ring): int {
    if r.pos + 1 >= r.size then 0 else r.pos + 1
  }

  /** The samples in the ring, oldest first. */
  function Contents(r: Ring): seq<int>
    requires Valid(r)
  {
    if |r.nums| < r.size then r.nums else r.nums[Next(r)..] + r.nums[..Next(r)]
  }

  function Added(r: Ring, d0: int): Ring
    requires Valid(r)
  {
    var d := Clamp(r, d0);
    if |r.nums| < r.size then
      r.(mean := Quo(r.mean * |r.nums| + d, |r.nums| + 1), nums := r.nums + [d], pos := |r.nums| + 1)
    else
      r.(mean := Quo(r.mean * r.size - r.nums[Next(r)] + d, r.size), nums := r.nums[Next(r) := d], pos := Next(r))
  }

  class DelayTracker {
    const size: int
    const min: int
    const max: int
    var pos: int
    var mean: int
    var nums: seq<int>

    ghost function State(): Ring
      reads this
    {
      Ring(size, min, max, nums, pos, mean)
    }

    constructor (size: int, min: int, max: int)
      requires size >= 1
      ensures State() == Ring(size, min, max, [], 0, 0) && Valid(State())
    {
      this.size, this.min, this.max := size, min, max;
      pos, mean, nums := 0, 0, [];
    }

    method Add(d0: int)
      requires Valid(State())
      modifies this
      ensures State() == Added(old(State()), d0) && Valid(State())
    {
      var d := d0;
      if d <= min {
        d := min;
      } else if d >= max {
        d := max;
      }
      if |nums| < size {
        mean := Quo(mean * |nums| + d, |nums| + 1);
        nums := nums + [d];
        pos := |nums|;
      } else {
        pos := pos + 1;
        if pos >= size {
          pos := 0;
        }
        var last := nums[pos];
        nums := nums[pos := d];
        mean := Quo(mean * size - last + d, size);
      }
    }

    method Mean() returns (m: int)
      ensures m == State().mean
    {
      m := mean;
    }
  }

  // The ring holds the latest samples.

  lemma AddedContents(r: Ring, d: int)
    requires Valid(r)
    ensures Valid(Added(r, d))
    ensures Contents(Added(r, d)) ==
      (if |r.nums| < r.size then Contents(r) else Contents(r)[1..]) + [Clamp(r, d)]
  {
    hide Quo, Clamp;
    if |r.nums| == r.size {
      Rotate(r.nums, Next(r), Clamp(r, d));
      assert Added(r, d).nums == r.nums[Next(r) := Clamp(r, d)];
    }
  }

  /** Replacing the oldest of a full ring drops it and puts the new one last. */
  lemma Rotate(s: seq<int>, o: int, x: int)
    requires 0 <= o < |s|
    ensures var t, next := s[o := x], if o + 1 < |s| then o + 1 else 0;
      t[next..] + t[..next] == (s[o..] + s[..o])[1..] + [x]
  {
    var t := s[o := x];
    assert (s[o..] + s[..o])[1..] == s[o + 1..] + s[..o];
    assert t[..o + 1] == s[..o] + [x] && t[o + 1..] == s[o + 1..];
    assert t[0..] + t[..0] == t[..o + 1] + t[o + 1..];
  }

  function AddedAll(r: Ring, samples: seq<int>): (r': Ring)
    requires Valid(r)
    ensures Valid(r') && r'.size == r.size && r'.min == r.min && r'.max == r.max
  {
    if samples == [] then r
    else
      AddedContents(AddedAll(r, samples[..|samples| - 1]), samples[|samples| - 1]);
      Added(AddedAll(r, samples[..|samples| - 1]), samples[|samples| - 1])
  }

  function Clamped(r: Ring, samples: seq<int>): (c: seq<int>)
    ensures |c| == |samples|
  {
    seq(|samples|, i requires 0 <= i < |samples| => Clamp(r, samples[i]))
  }

  function Latest(s: seq<int>, n: int): seq<int>
    requires n >= 0
  {
    if |s| <= n then s else s[|s| - n..]
  }

  lemma LatestStep(s: seq<int>, x: int, n: int)
    requires n >= 1
    ensures Latest(s + [x], n) == (if |s| < n then Latest(s, n) else Latest(s, n)[1..]) + [x]
  {
  }

  lemma ClampedStep(r: Ring, samples: seq<int>)
    requires samples != []
    ensures Clamped(r, samples) == Clamped(r, samples[..|samples| - 1]) + [Clamp(r, samples[|samples| - 1])]
  {
  }

  lemma ContentsSize(r: Ring)
    requires Valid(r)
    ensures |Contents(r)| == |r.nums|
  {
  }

  /** After any samples the ring holds exactly the latest `size` of them, clamped, oldest first. */
  lemma {:induction false} HoldsLatest(size: int, min: int, max: int, samples: seq<int>)
    requires size >= 1
    ensures var empty := Ring(size, min, max, [], 0, 0);
      Contents(AddedAll(empty, samples)) == Latest(Clamped(empty, samples), size)
  {
    var empty := Ring(size, min, max, [], 0, 0);
    if samples != [] {
      var front, d := samples[..|samples| - 1], samples[|samples| - 1];
      var r := AddedAll(empty, front);
      HoldsLatest(size, min, max, front);
      AddedContents(r, d);
      ContentsSize(r);
      ClampedStep(empty, samples);
      LatestStep(Clamped(empty, front), Clamp(empty, d), size);
      hide Contents, Added, Clamp, Valid;
    }
  }

  /** Samples within the bounds enter the ring as they are; others become the bound they exceed. */
  lemma ClampIs(r: Ring, d: int)
    requires r.min <= r.max
    ensures r.min <= d <= r.max ==> Clamp(r, d) == d
    ensures d < r.min ==> Clamp(r, d) == r.min
    ensures d > r.max ==> Clamp(r, d) == r.max
  {
  }

  lemma ClampedAsTheyAre(r: Ring, samples: seq<int>)
    requires r.min <= r.max && forall i | 0 <= i < |samples| :: r.min <= samples[i] <= r.max
    ensures Clamped(r, samples) == samples
  {
  }

  /** The ring holds the latest samples themselves when they are within the bounds. */
  lemma HoldsLatestAsTheyAre(size: int, min: int, max: int, samples: seq<int>)
    requires size >= 1 && min <= max && forall i | 0 <= i < |samples| :: min <= samples[i] <= max
    ensures Contents(AddedAll(Ring(size, min, max, [], 0, 0), samples)) == Latest(samples, size)
  {
    HoldsLatest(size, min, max, samples);
    ClampedAsTheyAre(Ring(size, min, max, [], 0, 0), samples);
    hide Contents, AddedAll, Clamped, Latest;
  }

  // The running mean, with all the rounding it has gathered.

  function Sum(s: seq<int>): int {
    if s == [] then 0 else Sum(s[..|s| - 1]) + s[|s| - 1]
  }

  lemma {:induction false} SumAppend(a: seq<int>, b: seq<int>)
    ensures Sum(a + b) == Sum(a) + Sum(b)
  {
    if b == [] {
      assert a + b == a;
    } else {
      SumAppend(a, b[..|b| - 1]);
      assert (a + b)[..|a + b| - 1] == a + b[..|b| - 1];
    }
  }

  lemma {:induction false} SumBounds(s: seq<int>, min: int, max: int)
    requires 0 <= min && forall i | 0 <= i < |s| :: min <= s[i] <= max
    ensures 0 <= Sum(s) <= |s| * max
  {
    if s != [] {
      SumBounds(s[..|s| - 1], min, max);
      assert |s| * max == (|s| - 1) * max + max;
    }
  }

  /** The mean of `n` samples never exceeds theirs and never falls more than `max` below it. */
  predicate Drifts(sum: int, n: int, max: int, mean: int) {
    sum - n * max <= n * mean <= sum
  }

  predicate MeanOk(r: Ring) {
    && Valid(r) && 0 <= r.min <= r.max
    && (forall i | 0 <= i < |r.nums| :: r.min <= r.nums[i] <= r.max)
    && Drifts(Sum(r.nums), |r.nums|, r.max, r.mean)
    && (r.nums == [] ==> r.mean == 0)
  }

  /** Truncation toward zero keeps both bounds, whatever the sign of the dividend. */
  lemma QuoKeeps(a: int, n: int, sum: int, max: int)
    requires n > 0 && 0 <= sum <= n * max && sum - n * max <= a <= sum
    ensures Drifts(sum, n, max, Quo(a, n))
  {
    QuoBounds(a, n);
    hide Quo;
  }

  lemma GrowingDrift(sum: int, n: int, max: int, mean: int, d: int)
    requires n >= 0 && 0 <= d <= max && Drifts(sum, n, max, mean) && 0 <= sum + d <= (n + 1) * max
    ensures Drifts(sum + d, n + 1, max, Quo(mean * n + d, n + 1))
  {
    assert (n + 1) * max == n * max + max;
    assert mean * n == n * mean;
    QuoKeeps(mean * n + d, n + 1, sum + d, max);
    hide Quo, Drifts;
  }

  lemma FullDrift(sum: int, n: int, max: int, mean: int, last: int, d: int)
    requires n > 0 && Drifts(sum, n, max, mean) && 0 <= sum - last + d <= n * max
    ensures Drifts(sum - last + d, n, max, Quo(mean * n - last + d, n))
  {
    assert mean * n == n * mean;
    QuoKeeps(mean * n - last + d, n, sum - last + d, max);
    hide Quo, Drifts;
  }

  lemma SumReplaced(s: seq<int>, i: int, x: int)
    requires 0 <= i < |s|
    ensures Sum(s[i := x]) == Sum(s) - s[i] + x
  {
    var a, b := s[..i], s[i + 1..];
    assert s == a + [s[i]] + b && s[i := x] == a + [x] + b;
    SumAppend(a + [s[i]], b);
    SumAppend(a + [x], b);
    SumAppend(a, [s[i]]);
    SumAppend(a, [x]);
    assert Sum([]) == 0 && [s[i]][..0] == [] && [x][..0] == [];
  }

  lemma GrowingMean(r: Ring, d0: int)
    requires MeanOk(r) && |r.nums| < r.size
    ensures MeanOk(Added(r, d0))
  {
    var d, n := Clamp(r, d0), |r.nums|;
    assert (r.nums + [d])[..n] == r.nums;
    SumBounds(r.nums + [d], r.min, r.max);
    GrowingDrift(Sum(r.nums), n, r.max, r.mean, d);
    hide Quo, Drifts;
  }

  lemma FullMean(r: Ring, d0: int)
    requires MeanOk(r) && |r.nums| == r.size
    ensures MeanOk(Added(r, d0))
  {
    var d, o := Clamp(r, d0), Next(r);
    SumReplaced(r.nums, o, d);
    SumBounds(r.nums[o := d], r.min, r.max);
    FullDrift(Sum(r.nums), r.size, r.max, r.mean, r.nums[o], d);
    hide Quo, Drifts, Sum;
  }

  lemma {:induction false} EveryRunMean(size: int, min: int, max: int, samples: seq<int>)
    requires size >= 1 && 0 <= min <= max
    ensures MeanOk(AddedAll(Ring(size, min, max, [], 0, 0), samples))
  {
    if samples != [] {
      var front, d := samples[..|samples| - 1], samples[|samples| - 1];
      EveryRunMean(size, min, max, front);
      var r := AddedAll(Ring(size, min, max, [], 0, 0), front);
      if |r.nums| < r.size {
        GrowingMean(r, d);
      } else {
        FullMean(r, d);
      }
    }
  }

  /** One sample moves the mean as the exact mean of `n` values would, up to rounding toward zero: the new
      mean times `n` is within `n` of the old one times its number, less what leaves, plus what comes. */
  lemma MeanMoves(r: Ring, d: int)
    requires Valid(r)
    ensures
      var r', full := Added(r, d), |r.nums| == r.size;
      var n := if full then r.size else |r.nums| + 1;
      var total := r.mean * |r.nums| - (if full then Contents(r)[0] else 0) + Clamp(r, d);
      && |r'.nums| == n
      && (total >= 0 ==> n * r'.mean <= total < n * r'.mean + n)
      && (total < 0 ==> n * r'.mean - n < total <= n * r'.mean)
  {
    if |r.nums| == r.size {
      assert Contents(r)[0] == r.nums[Next(r)];
      QuoIsExact(r.mean * r.size - r.nums[Next(r)] + Clamp(r, d), r.size);
    } else {
      QuoIsExact(r.mean * |r.nums| + Clamp(r, d), |r.nums| + 1);
    }
    hide Quo, Clamp, Contents;
  }

  lemma MeanRange(r: Ring)
    requires MeanOk(r)
    ensures r.nums == [] ==> r.mean == 0
    ensures r.nums != [] ==> r.min - r.max <= r.mean <= r.max
  {
    var n := |r.nums|;
    if n > 0 {
      SumAtLeast(r.nums, r.min);
      SumBounds(r.nums, r.min, r.max);
      assert n * r.mean <= n * r.max;
      assert n * (r.min - r.max) == n * r.min - n * r.max;
      Cancel(n, r.mean, r.max);
      Cancel(n, r.min - r.max, r.mean);
    }
  }

  lemma Cancel(n: int, a: int, b: int)
    requires n > 0 && n * a <= n * b
    ensures a <= b
  {
    var d := a - b;
    assert n * a == n * b + n * d;
    assert d > 0 ==> n * d >= n;
  }

  lemma {:induction false} SumAtLeast(s: seq<int>, min: int)
    requires forall i | 0 <= i < |s| :: min <= s[i]
    ensures |s| * min <= Sum(s)
  {
    if s != [] {
      SumAtLeast(s[..|s| - 1], min);
      assert |s| * min == (|s| - 1) * min + min;
    }
  }

  /** On every run, truncation drift included, the mean stays within min - max and max. */
  lemma {:induction false} EveryRunMeanRange(size: int, min: int, max: int, samples: seq<int>)
    requires size >= 1 && 0 <= min <= max
    ensures var r := AddedAll(Ring(size, min, max, [], 0, 0), samples);
      && min - max <= r.mean <= max
      && |r.nums| * r.mean <= Sum(r.nums)
  {
    EveryRunMean(size, min, max, samples);
    MeanRange(AddedAll(Ring(size, min, max, [], 0, 0), samples));
  }

  /** The drift is real: the mean of samples that are not negative can become negative. */
  lemma MeanCanBeNegative()
    ensures AddedAll(Ring(3, 0, 3, [], 0, 0), [3, 0, 0, 0]).mean == -1
  {
    var e := Ring(3, 0, 3, [], 0, 0);
    assert [3, 0, 0, 0][..3] == [3, 0, 0] && [3, 0, 0][..2] == [3, 0] && [3, 0][..1] == [3] && [3][..0] == [];
    assert AddedAll(e, [3]) == Ring(3, 0, 3, [3], 1, 3);
    assert AddedAll(e, [3, 0]) == Ring(3, 0, 3, [3, 0], 2, 1);
    assert AddedAll(e, [3, 0, 0]) == Ring(3, 0, 3, [3, 0, 0], 3, 0);
  }
}
