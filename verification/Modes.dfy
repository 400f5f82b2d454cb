/** Which observations lead to which mode, and where the reader count goes then. */
module Modes {
  import opened Scheduling
  import opened Stats

  // ---- the readings of the write side --------------------------------------

  /** A reading spreads the bytes written since the last tick over the time since then. */
  lemma {:induction false} ReadingAt(samples: seq<Sample>, n: nat, k: nat)
    requires k < n <= |samples|
    ensures var r, last := WriteReadings(samples, n)[k], if k == 0 then 0 else samples[k - 1].bytesWritten;
            && r.dt == (if samples[k].elapsed < 0.000001 then 0.000001 else samples[k].elapsed)
            && r.sample * r.dt
               == (if samples[k].bytesWritten >= last then (samples[k].bytesWritten - last) as real else 0.0)
  {
    hide Rate;
    if k < n - 1 {
      ReadingAt(samples, n - 1, k);
    } else {
      RateTimesTime(samples[k].bytesWritten, if k == 0 then 0 else samples[k - 1].bytesWritten, Interval(samples[k]));
    }
  }

  lemma RateTimesTime(now: nat, last: nat, dt: real)
    requires dt > 0.0
    ensures Rate(now, last, dt) * dt == (if now >= last then (now - last) as real else 0.0)
  {
    Divided(Sat(now, last) as real, dt);
  }

  lemma Divided(x: real, y: real)
    requires y > 0.0
    ensures (x / y) * y == x
  {}

  /** The average write rate up to tick `i`, over a window of `tau` seconds. */
  function WriteAverage(samples: seq<Sample>, i: nat, tau: real, exp: real -> real): real
    requires i < |samples| && tau > 0.0
  {
    Fold(Average(0.0, tau, false), WriteReadings(samples, i + 1), i + 1, exp).value
  }

  // ---- what a tick shows ---------------------------------------------------

  function ReadersAt(l: Limits, samples: seq<Sample>, n: nat, exp: real -> real): nat
    requires n <= |samples|
  {
    After(l, samples, n, exp).readers
  }

  function StateAt(l: Limits, samples: seq<Sample>, n: nat, exp: real -> real): Mode
    requires n <= |samples|
  {
    After(l, samples, n, exp).state
  }

  /** All the depth the destination has is in use, and yet the rate is 30 percent below its recent average. */
  predicate Collapsed(l: Limits, samples: seq<Sample>, i: nat, exp: real -> real)
    requires i < |samples|
  {
    && l.workers - ReadersAt(l, samples, i, exp) >= l.maxWriters
    && WriteAverage(samples, i, 30.0, exp) > 8388608.0
    && WriteAverage(samples, i, 2.0, exp) < 0.7 * WriteAverage(samples, i, 30.0, exp)
  }

  /** Some reader has no buffer to read into. */
  predicate ReadersBlocked(l: Limits, samples: seq<Sample>, i: nat, exp: real -> real)
    requires i < |samples|
  {
    samples[i].free == 0 || samples[i].free < ReadersAt(l, samples, i, exp)
  }

  /** Some writer has no chunk to write. */
  predicate WritersStarved(l: Limits, samples: seq<Sample>, i: nat, exp: real -> real)
    requires i < |samples|
  {
    samples[i].filled == 0 || samples[i].filled < l.workers - ReadersAt(l, samples, i, exp)
  }

  /** What the sample of tick `i` speaks for. */
  predicate Shows(l: Limits, samples: seq<Sample>, i: nat, mode: Mode, exp: real -> real)
    requires i < |samples|
  {
    var cliff, blocked, starved :=
      Collapsed(l, samples, i, exp), ReadersBlocked(l, samples, i, exp), WritersStarved(l, samples, i, exp);
    match mode
    case Thrash => l.sameSpindle
    case Cliff => !l.sameSpindle && cliff
    case Drain => !l.sameSpindle && !cliff && blocked
    case Fill => !l.sameSpindle && !cliff && !blocked && starved
    case Balanced => !l.sameSpindle && !cliff && !blocked && !starved
  }

  lemma ReadersFit(l: Limits, samples: seq<Sample>, n: nat, exp: real -> real)
    requires l.workers > 0 && n <= |samples|
    ensures ReadersAt(l, samples, n, exp) <= l.workers
  {
    if n > 0 {
      TickInBounds(l, samples, n, exp);
      ClampFits(l, 0);
    }
  }

  /** A tick indicates exactly what its sample shows. */
  lemma IndicatesWhatItShows(l: Limits, samples: seq<Sample>, i: nat, exp: real -> real, mode: Mode)
    requires l.workers > 0 && i < |samples|
    ensures IndicatedAt(l, samples, i, exp) == mode <==> Shows(l, samples, i, mode, exp)
  {
    ReadersFit(l, samples, i, exp);
    ClassifiedAverages(l, samples, i, exp);
    hide After; hide Fold; hide WriteReadings; hide Updated; hide Rate;
  }

  /**
   What two consecutive samples both show takes effect, and a sample that shows something else than
   the one before it changes nothing.
   */
  lemma ShownTwiceTakesEffect(l: Limits, samples: seq<Sample>, n: nat, exp: real -> real, mode: Mode)
    requires l.workers > 0 && 2 <= n <= |samples|
    ensures Shows(l, samples, n - 2, mode, exp) && Shows(l, samples, n - 1, mode, exp) ==>
              StateAt(l, samples, n, exp) == mode
    ensures Shows(l, samples, n - 2, mode, exp) && !Shows(l, samples, n - 1, mode, exp) ==>
              StateAt(l, samples, n, exp) == StateAt(l, samples, n - 1, exp)
    ensures StateAt(l, samples, 0, exp) == StateAt(l, samples, 1, exp) == Balanced
  {
    hide Shows; hide IndicatedAt; hide After;
    IndicatesWhatItShows(l, samples, n - 2, exp, mode);
    IndicatesWhatItShows(l, samples, n - 1, exp, mode);
    HysteresisMeansRepeated(l, samples, n, exp);
    HysteresisMeansRepeated(l, samples, n - 1, exp);
    HysteresisMeansRepeated(l, samples, 1, exp);
    HysteresisMeansRepeated(l, samples, 0, exp);
  }

  /** The controller starts with half of the workers reading, and with one of one. */
  lemma StartsWithHalf(l: Limits, samples: seq<Sample>, exp: real -> real)
    ensures ReadersAt(l, samples, 0, exp) == if l.workers >= 2 then l.workers / 2 else 1
  {}

  // ---- what is done about it -----------------------------------------------

  /** The least number of readers: the destination has no use for more writers, and one worker reads. */
  function Least(l: Limits): int { if l.workers - l.maxWriters >= 1 then l.workers - l.maxWriters else 1 }

  /** The greatest number of readers: the source has no use for more, and one worker is left to write. */
  function Greatest(l: Limits): int {
    var most := if l.maxReaders <= l.workers - 1 then l.maxReaders else l.workers - 1;
    if most >= Least(l) then most else Least(l)
  }

  lemma ClampAtEnds(l: Limits, x: nat)
    requires l.workers > 0 && !l.sameSpindle
    ensures var y := Clamp(x, Lowest(l), Highest(l));
            && (y == x <==> Least(l) <= x <= Greatest(l))
            && (y == Least(l) <==> x <= Least(l) || Least(l) == Greatest(l))
            && (y == Greatest(l) <==> x >= Greatest(l) || Least(l) == Greatest(l))
            && Least(l) <= y <= Greatest(l)
  {}

  /**
   Readers that find no buffer on two consecutive ticks lose a worker to the writing side, writers that
   find no chunk lose one to the reading side, and so do writers on a drive whose rate has collapsed;
   when neither side is short the split moves towards the one weighted by the two depths.
   */
  lemma StarvedSideIsServed(l: Limits, samples: seq<Sample>, n: nat, exp: real -> real, mode: Mode)
    requires l.workers > 0 && !l.sameSpindle && 2 <= n <= |samples|
    requires Shows(l, samples, n - 2, mode, exp) && Shows(l, samples, n - 1, mode, exp)
    ensures var before, now := ReadersAt(l, samples, n - 1, exp), ReadersAt(l, samples, n, exp);
            var base := (l.workers * l.maxReaders) / Max(l.maxReaders + l.maxWriters, 1);
            && Least(l) <= now <= Greatest(l)
            && (mode == Drain ==> now == if before > Least(l) then before - 1 else Least(l))
            && (mode == Fill || mode == Cliff ==> now == if before < Greatest(l) then before + 1 else Greatest(l))
            && (mode == Balanced && before < base ==> now == if before < Greatest(l) then before + 1 else Greatest(l))
            && (mode == Balanced && before > base ==> now == if before > Least(l) then before - 1 else Least(l))
            && (mode == Balanced && before == base ==> now == before)
  {
    hide Shows; hide Target; hide Clamp; hide Lowest; hide Highest; hide Least; hide Greatest; hide Averaged;
    hide Indicated; hide Max;
    ShownTwiceTakesEffect(l, samples, n, exp, mode);
    TickInBounds(l, samples, n - 1, exp);
    TickInBounds(l, samples, n, exp);
    var c, s := After(l, samples, n - 1, exp), samples[n - 1];
    var f := Filtered(Averaged(c, s, exp), Indicated(l, c, s, exp));
    assert After(l, samples, n, exp) == Tick(l, c, s, exp);
    assert ReadersAt(l, samples, n, exp) == Clamp(Target(l, f.state, c.readers, s), Lowest(l), Highest(l));
    MovesTo(l, mode, c.readers, s);
  }

  lemma MovesTo(l: Limits, mode: Mode, before: nat, s: Sample)
    requires l.workers > 0 && !l.sameSpindle && InBounds(l, before)
    ensures var now := Clamp(Target(l, mode, before, s), Lowest(l), Highest(l));
            var base := (l.workers * l.maxReaders) / Max(l.maxReaders + l.maxWriters, 1);
            && Least(l) <= now <= Greatest(l)
            && (mode == Drain ==> now == if before > Least(l) then before - 1 else Least(l))
            && (mode == Fill || mode == Cliff ==> now == if before < Greatest(l) then before + 1 else Greatest(l))
            && (mode == Balanced && before < base ==> now == if before < Greatest(l) then before + 1 else Greatest(l))
            && (mode == Balanced && before > base ==> now == if before > Least(l) then before - 1 else Least(l))
            && (mode == Balanced && before == base ==> now == before)
  {
    ClampAtEnds(l, before);
    ClampAtEnds(l, Target(l, mode, before, s));
    assert Base(l) == (l.workers * l.maxReaders) / Max(l.maxReaders + l.maxWriters, 1);
    hide Base; hide Lowest; hide Highest; hide Least; hide Greatest; hide Max;
  }
}
