/** Exactly when a cliff can be classified over and over again. */
module Cliffs {
  import opened Scheduling
  import opened Stats

  function Pow(x: real, k: nat): real {
    if k == 0 then 1.0 else Pow(x, k - 1) * x
  }

  lemma Product(a: real, b: real)
    requires 0.0 < a && 0.0 < b < 1.0
    ensures 0.0 < a * b < a
  {}

  lemma PowNext(y: real, k: nat)
    ensures Pow(y, k + 1) == Pow(y, k) * y && Pow(y, 0) == 1.0
  {}

  lemma {:induction false} PowPositive(y: real, k: nat)
    requires 0.0 < y < 1.0
    ensures 0.0 < Pow(y, k)
  {
    if k > 0 {
      PowPositive(y, k - 1);
      Product(Pow(y, k - 1), y);
    }
  }

  lemma {:induction false} PowShrinks(y: real, k: nat, m: nat)
    requires 0.0 < y < 1.0 && k <= m
    ensures 0.0 < Pow(y, m) <= Pow(y, k)
    decreases m - k
  {
    hide Pow;
    PowPositive(y, k);
    if k < m {
      PowShrinks(y, k + 1, m);
      PowNext(y, k);
      Product(Pow(y, k), y);
    }
  }

  // ---- what a run can observe ----------------------------------------------

  const TICK: real := 0.1

  /** Falling, and nowhere level, as the exponential is. */
  ghost predicate StrictlyDecaying(exp: real -> real) {
    Decaying(exp) && forall x: real, y: real :: 0.0 < x < y ==> exp(y) < exp(x)
  }

  /** One tick at least has passed, nothing was written that was not read, and the rings hold buffers of one arena. */
  predicate Plausible(s: Sample, capacity: nat) {
    && s.elapsed >= TICK && s.bytesWritten <= s.bytesRead
    && s.capacity == capacity >= 4 && s.free + s.filled <= capacity
  }

  /** Samples of one run: each plausible, and the byte counters never fall. */
  ghost predicate Observable(samples: seq<Sample>, capacity: nat) {
    && (forall i :: 0 <= i < |samples| ==> Plausible(samples[i], capacity))
    && (forall i, j :: 0 <= i < j < |samples| ==>
          samples[i].bytesRead <= samples[j].bytesRead && samples[i].bytesWritten <= samples[j].bytesWritten)
  }

  // ---- the short average falls behind --------------------------------------

  lemma Raise(p: real, q: real, x: real, d: real, k: real)
    requires 0.0 < p && 0.0 < x && 0.0 < d && k >= 0.0 && p * (1.0 + k * d) <= q
    ensures (p * x) * (1.0 + (k + 1.0) * d) <= q * (x * (1.0 + d))
  {
    var a := 1.0 + k * d;
    assert k * d >= 0.0 && (k * d) * d >= 0.0;
    assert a * (1.0 + d) == 1.0 + (k + 1.0) * d + (k * d) * d;
    var b := 1.0 + (k + 1.0) * d;
    assert b <= a * (1.0 + d);
    var z := p * x;
    Scale(z, b, a * (1.0 + d));
    assert z * (a * (1.0 + d)) == (p * a) * (x * (1.0 + d));
    Scale(x * (1.0 + d), p * a, q);
  }

  lemma Scale(z: real, a: real, b: real)
    requires 0.0 < z && a <= b
    ensures z * a <= z * b && a * z <= b * z
  {}

  /** Powers of two bases a factor `1 + d` apart come apart at least linearly. */
  lemma {:induction false} PowersPart(x: real, d: real, k: nat)
    requires 0.0 < x < 1.0 && 0.0 < d
    ensures Pow(x, k) * (1.0 + k as real * d) <= Pow(x * (1.0 + d), k)
  {
    hide Pow;
    if k == 0 {
      PowNext(x, 0);
      PowNext(x * (1.0 + d), 0);
    } else {
      var j: nat := k - 1;
      PowersPart(x, d, j);
      PowPositive(x, j);
      Raise(Pow(x, j), Pow(x * (1.0 + d), j), x, d, j as real);
      PowNext(x, j);
      PowNext(x * (1.0 + d), j);
      assert k as real == j as real + 1.0;
    }
  }

  lemma BehindAt(x: real, y: real, d: real, q: real, i: nat)
    requires 0.0 < x < 1.0 && 0.0 < d && x * (1.0 + d) == y && q * d == 1.0 && i as real > q
    ensures Behind(x, y, i)
  {
    hide Pow;
    var z := i as real;
    var f := 1.0 + z * d;
    Enough(d, q, z);
    PowersPart(x, d, i);
    PowPositive(x, i);
    Twice(Pow(x, i), f, Pow(y, i));
  }

  /** From some tick on the power of the smaller base is below 0.7 of the power of the larger. */
  lemma FallsBehind(x: real, y: real) returns (k: nat)
    requires 0.0 < x < y < 1.0
    ensures k >= 1 && forall i: nat :: i >= k ==> Behind(x, y, i)
  {
    hide Behind;
    var d := y / x - 1.0;
    assert (y / x) * x == y;
    assert x * (1.0 + d) == y;
    Positive(x, y, d);
    PositiveQuotient(1.0, d);
    var q := 1.0 / d;
    assert q * d == 1.0;
    k := q.Floor + 1;
    forall i: nat | i >= k ensures Behind(x, y, i) {
      BehindAt(x, y, d, q, i);
    }
  }

  lemma PositiveQuotient(a: real, z: real)
    requires a > 0.0 && z > 0.0
    ensures a / z > 0.0
  {}

  lemma Enough(d: real, q: real, z: real)
    requires d > 0.0 && q * d == 1.0 && z > q
    ensures z * d > 1.0
  {
    var one, more := q * d, z * d;
    assert one < more by {
      ScaleStrictly(d, q, z);
    }
  }

  lemma Positive(x: real, y: real, d: real)
    requires 0.0 < x < y && x * (1.0 + d) == y
    ensures d > 0.0
  {
    assert x * d == y - x;
  }

  lemma ScaleStrictly(z: real, a: real, b: real)
    requires 0.0 < z && a < b
    ensures a * z < b * z
  {}

  lemma Twice(p: real, f: real, q: real)
    requires p > 0.0 && f > 2.0 && p * f <= q
    ensures p < CLIFF_RATIO * q
  {
    ScaleStrictly(p, 2.0, f);
  }

  predicate Behind(x: real, y: real, i: nat) {
    Pow(x, i) < CLIFF_RATIO * Pow(y, i)
  }

  // ---- a burst and then silence --------------------------------------------

  /** `bytes` are read and written in the first interval, and nothing more for as long as the run lasts. */
  function Burst(bytes: nat, dt: real, capacity: nat, ticks: nat): (samples: seq<Sample>)
    ensures |samples| == ticks
    ensures forall i :: 0 <= i < ticks ==> samples[i] == Sample(bytes, bytes, dt, capacity, capacity, 0)
  {
    seq(ticks, _ => Sample(bytes, bytes, dt, capacity, capacity, 0))
  }

  ghost predicate Decayed(c: Control, bytes: nat, short: real, long: real) {
    && c.lastWritten == bytes
    && c.writeShort == Average(short, 2.0, true) && c.writeLong == Average(long, 30.0, true)
  }

  lemma BurstTick(c: Control, s: Sample, exp: real -> real)
    requires Sane(c) && c.lastWritten == 0 && !c.writeShort.primed && !c.writeLong.primed && s.elapsed >= TICK
    ensures var rate := s.bytesWritten as real / s.elapsed;
            Decayed(Averaged(c, s, exp), s.bytesWritten, rate, rate)
  {}

  lemma QuietTick(c: Control, s: Sample, short: real, long: real, exp: real -> real)
    requires Sane(c) && Decayed(c, s.bytesWritten, short, long) && s.elapsed >= TICK
    ensures Decayed(Averaged(c, s, exp), s.bytesWritten, short * exp(s.elapsed / 2.0), long * exp(s.elapsed / 30.0))
  {}

  /** Hysteresis and steering leave the averages alone. */
  lemma KeepsAverages(l: Limits, samples: seq<Sample>, i: nat, exp: real -> real)
    requires i < |samples|
    ensures var a, t := Averaged(After(l, samples, i, exp), samples[i], exp), After(l, samples, i + 1, exp);
            t.lastWritten == a.lastWritten && t.writeShort == a.writeShort && t.writeLong == a.writeLong
  {
    hide Averaged; hide Indicated; hide Target; hide Clamp;
  }

  /** At tick `i` the averages have decayed `i` times since the burst. */
  ghost predicate DecayedAt(l: Limits, samples: seq<Sample>, bytes: nat, dt: real, i: nat, exp: real -> real)
    requires i < |samples| && dt > 0.0
  {
    var rate := bytes as real / dt;
    Decayed(Averaged(After(l, samples, i, exp), samples[i], exp), bytes,
            rate * Pow(exp(dt / 2.0), i), rate * Pow(exp(dt / 30.0), i))
  }

  lemma FirstDecay(l: Limits, samples: seq<Sample>, exp: real -> real)
    requires samples != [] && samples[0].elapsed >= TICK
    ensures DecayedAt(l, samples, samples[0].bytesWritten, samples[0].elapsed, 0, exp)
  {
    hide Averaged;
    var dt := samples[0].elapsed;
    BurstTick(After(l, samples, 0, exp), samples[0], exp);
    assert Pow(exp(dt / 2.0), 0) == 1.0 == Pow(exp(dt / 30.0), 0);
  }

  lemma NextDecay(l: Limits, samples: seq<Sample>, bytes: nat, dt: real, i: nat, exp: real -> real)
    requires i + 1 < |samples| && samples[i + 1].bytesWritten == bytes && samples[i + 1].elapsed == dt >= TICK
    requires DecayedAt(l, samples, bytes, dt, i, exp)
    ensures DecayedAt(l, samples, bytes, dt, i + 1, exp)
  {
    hide Averaged; hide After; hide Pow; hide Indicated;
    var x, y, rate := exp(dt / 2.0), exp(dt / 30.0), bytes as real / dt;
    KeepsAverages(l, samples, i, exp);
    QuietTick(After(l, samples, i + 1, exp), samples[i + 1], rate * Pow(x, i), rate * Pow(y, i), exp);
    PowNext(x, i);
    PowNext(y, i);
    Associate(rate, Pow(x, i), x);
    Associate(rate, Pow(y, i), y);
  }

  lemma Associate(a: real, b: real, c: real)
    ensures (a * b) * c == a * (b * c)
  {}

  lemma {:induction false} BurstDecays(l: Limits, samples: seq<Sample>, bytes: nat, dt: real, i: nat, exp: real -> real)
    requires dt >= TICK && i < |samples|
    requires forall k :: 0 <= k < |samples| ==> samples[k].bytesWritten == bytes && samples[k].elapsed == dt
    ensures DecayedAt(l, samples, bytes, dt, i, exp)
  {
    hide DecayedAt;
    if i == 0 {
      FirstDecay(l, samples, exp);
    } else {
      BurstDecays(l, samples, bytes, dt, i - 1, exp);
      NextDecay(l, samples, bytes, dt, i - 1, exp);
    }
  }

  /** The decayed rate of the burst is still above the floor of the cliff test. */
  predicate StaysAbove(bytes: nat, dt: real, y: real, k: nat)
    requires dt > 0.0
  {
    bytes as real / dt * Pow(y, k) > CLIFF_FLOOR_BPS
  }

  lemma AboveFloor(y: real, dt: real, m: nat) returns (bytes: nat)
    requires 0.0 < y < 1.0 && dt > 0.0
    ensures forall k: nat :: k <= m ==> StaysAbove(bytes, dt, y, k)
  {
    hide Pow;
    PowShrinks(y, m, m);
    var z := Pow(y, m);
    var rate := CLIFF_FLOOR_BPS / z;
    assert rate * z == CLIFF_FLOOR_BPS;
    PositiveQuotient(CLIFF_FLOOR_BPS, z);
    bytes := (rate * dt).Floor + 1;
    Exceeds(bytes as real, rate, dt);
    forall k: nat | k <= m ensures StaysAbove(bytes, dt, y, k) {
      PowShrinks(y, k, m);
      ScaledUp(rate, bytes as real / dt, z, Pow(y, k));
    }
  }

  lemma Exceeds(b: real, rate: real, dt: real)
    requires dt > 0.0 && b > rate * dt
    ensures b / dt > rate
  {
    assert (b / dt) * dt == b;
  }

  lemma ScaledUp(a: real, b: real, x: real, z: real)
    requires 0.0 < a < b && 0.0 < x <= z
    ensures a * x < b * z
  {
    assert a * x < b * x;
    assert b * x <= b * z;
  }

  // ---- when cliffs end -----------------------------------------------------

  lemma Decays(dt: real, exp: real -> real)
    requires StrictlyDecaying(exp) && dt >= TICK
    ensures 0.0 < exp(dt / 2.0) < exp(dt / 30.0) < 1.0
  {
    assert 0.0 < dt / 30.0 < dt / 2.0;
  }

  /**
   If the bounds leave a single split and it uses the destination's depth, an observable burst followed
   by silence is classified as a cliff from some tick on, for as many ticks as one likes and at any
   pace of ticks.
   */
  lemma CliffPersists(l: Limits, dt: real, capacity: nat, m: nat, exp: real -> real)
      returns (samples: seq<Sample>, k: nat)
    requires l.workers >= 2 && !l.sameSpindle && Lowest(l) == Highest(l) && l.maxWriters < l.workers
    requires StrictlyDecaying(exp) && dt >= TICK && capacity >= 4
    ensures Observable(samples, capacity) && |samples| == k + m
    ensures forall i :: k <= i < k + m ==> IndicatedAt(l, samples, i, exp) == Cliff
  {
    Decays(dt, exp);
    hide Pow; hide StrictlyDecaying; hide After; hide Averaged; hide StaysAbove; hide IndicatedAt; hide DecayedAt;
    hide Behind;
    var x, y := exp(dt / 2.0), exp(dt / 30.0);
    k := FallsBehind(x, y);
    var bytes := AboveFloor(y, dt, k + m);
    samples := Burst(bytes, dt, capacity, k + m);
    forall i: nat | k <= i < k + m ensures IndicatedAt(l, samples, i, exp) == Cliff {
      TickInBounds(l, samples, i, exp);
      BurstDecays(l, samples, bytes, dt, i, exp);
      PowShrinks(y, i, i);
      assert Behind(x, y, i) && StaysAbove(bytes, dt, y, i);
      CliffAt(l, samples, i, bytes, dt, exp);
    }
  }

  lemma CliffAt(l: Limits, samples: seq<Sample>, i: nat, bytes: nat, dt: real, exp: real -> real)
    requires !l.sameSpindle && l.workers >= 2 && Lowest(l) == Highest(l) && l.maxWriters < l.workers
    requires i < |samples| && InBounds(l, After(l, samples, i, exp).readers) && dt > 0.0
    requires var x, y := exp(dt / 2.0), exp(dt / 30.0);
             Behind(x, y, i) && StaysAbove(bytes, dt, y, i) && Pow(y, i) > 0.0
    requires DecayedAt(l, samples, bytes, dt, i, exp)
    ensures IndicatedAt(l, samples, i, exp) == Cliff
  {
    hide Averaged; hide After; hide Pow;
    SeenFrom(bytes as real / dt, Pow(exp(dt / 2.0), i), Pow(exp(dt / 30.0), i));
  }

  lemma SeenFrom(b: real, x: real, y: real)
    requires x < CLIFF_RATIO * y && b * y > CLIFF_FLOOR_BPS && y > 0.0
    ensures b * x < CLIFF_RATIO * (b * y)
  {
    assert b > 0.0;
    assert b * x < b * (CLIFF_RATIO * y);
  }

  /**
   No observable run classifies a cliff on three consecutive ticks if and only if the bounds leave a
   choice of splits or the destination's depth is out of reach.
   */
  lemma WhenCliffsEnd(l: Limits, capacity: nat, exp: real -> real)
    requires l.workers >= 2 && !l.sameSpindle && StrictlyDecaying(exp) && capacity >= 4
    ensures (forall samples: seq<Sample>, i: nat :: Observable(samples, capacity) && i + 2 < |samples| ==>
               !ThreeCliffs(l, samples, i, exp))
            <==> Lowest(l) < Highest(l) || l.maxWriters >= l.workers
  {
    if Lowest(l) < Highest(l) {
      forall samples: seq<Sample>, i: nat | i + 2 < |samples| ensures !ThreeCliffs(l, samples, i, exp) {
        NoThreeCliffs(l, samples, i, exp);
      }
    } else if l.maxWriters >= l.workers {
      forall samples: seq<Sample>, i: nat | i + 2 < |samples| ensures !ThreeCliffs(l, samples, i, exp) {
        NoCliffAtFullDepth(l, samples, i, exp);
      }
    } else {
      ClampFits(l, 0);
      var samples, k := CliffPersists(l, TICK, capacity, 3, exp);
      assert ThreeCliffs(l, samples, k, exp);
    }
  }
}
