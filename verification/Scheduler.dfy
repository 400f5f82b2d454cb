/** The feedback controller: one tick classifies, filters, acts and clamps. */
module Scheduling {
  import opened Device
  import opened Stats

  datatype Mode = Balanced | Fill | Drain | Cliff | Thrash

  datatype Role = Read | Write

  datatype Limits = Limits(workers: nat, maxReaders: nat, maxWriters: nat, sameSpindle: bool)

  /** What one tick observes: the byte counters, the time since the last tick, the ring occupancy. */
  datatype Sample = Sample(bytesRead: nat, bytesWritten: nat, elapsed: real, capacity: nat, free: nat, filled: nat)

  /** Everything the controller carries from one tick to the next. */
  datatype Control = Control(
    readers: nat,
    state: Mode,
    candidate: Mode,
    count: nat,
    lastRead: nat,
    lastWritten: nat,
    readShort: Average,
    readLong: Average,
    writeShort: Average,
    writeLong: Average)

  const CLIFF_RATIO: real := 0.70
  const CLIFF_FLOOR_BPS: real := 8.0 * 1024.0 * 1024.0
  const MIN_DT: real := 0.000001
  const BURST: real := 0.12

  function Max(a: nat, b: nat): nat { if a >= b then a else b }

  /** Subtraction that stops at zero. */
  function Sat(a: nat, b: nat): nat { if a >= b then a - b else 0 }

  function Clamp(x: nat, lo: nat, hi: nat): nat {
    if x < lo then lo else if x > hi then hi else x
  }

  // ---- one tick as a function ----------------------------------------------

  function StartReaders(l: Limits): nat {
    Clamp(l.workers / 2, 1, Max(Sat(l.workers, 1), 1))
  }

  function Start(l: Limits): Control {
    Control(StartReaders(l), Balanced, Balanced, 0, 0, 0,
            Average(0.0, 2.0, false), Average(0.0, 30.0, false), Average(0.0, 2.0, false), Average(0.0, 30.0, false))
  }

  function Lowest(l: Limits): nat {
    if l.sameSpindle then 0 else Max(Sat(l.workers, l.maxWriters), 1)
  }

  function Highest(l: Limits): nat {
    if l.sameSpindle then l.workers else Max(Min(l.maxReaders, Sat(l.workers, 1)), Lowest(l))
  }

  function RoleOf(readers: nat, worker: nat): Role {
    if worker < readers then Read else Write
  }

  function Interval(s: Sample): real {
    if s.elapsed < MIN_DT then MIN_DT else s.elapsed
  }

  function Rate(now: nat, last: nat, dt: real): real
    requires dt > 0.0
  {
    Sat(now, last) as real / dt
  }

  function CliffSeen(l: Limits, readers: nat, short: Average, long: Average): bool {
    && Sat(l.workers, readers) >= l.maxWriters
    && long.value > CLIFF_FLOOR_BPS
    && short.value < CLIFF_RATIO * long.value
  }

  function Classify(l: Limits, readers: nat, short: Average, long: Average, s: Sample): Mode {
    if l.sameSpindle then Thrash
    else if CliffSeen(l, readers, short, long) then Cliff
    else if s.free < Max(readers, 1) then Drain
    else if s.filled < Max(Sat(l.workers, readers), 1) then Fill
    else Balanced
  }

  function Occupancy(n: nat, capacity: nat): real {
    n as real / Max(capacity, 1) as real
  }

  /** The split the two devices want, weighted by their useful depths. */
  function Base(l: Limits): nat {
    (l.workers * l.maxReaders) / Max(l.maxReaders + l.maxWriters, 1)
  }

  function Target(l: Limits, committed: Mode, readers: nat, s: Sample): nat {
    match committed
    case Thrash =>
      if Occupancy(s.free, s.capacity) < BURST then 0
      else if Occupancy(s.filled, s.capacity) < BURST then l.workers
      else readers
    case Fill => readers + 1
    case Cliff => readers + 1
    case Drain => Sat(readers, 1)
    case Balanced =>
      if readers < Base(l) then readers + 1
      else if readers > Base(l) then Sat(readers, 1)
      else readers
  }

  function Averaged(c: Control, s: Sample, exp: real -> real): Control
    requires c.readShort.tau > 0.0 && c.readLong.tau > 0.0 && c.writeShort.tau > 0.0 && c.writeLong.tau > 0.0
  {
    var dt := Interval(s);
    var readRate, writeRate := Rate(s.bytesRead, c.lastRead, dt), Rate(s.bytesWritten, c.lastWritten, dt);
    c.(lastRead := s.bytesRead, lastWritten := s.bytesWritten,
       readShort := Updated(c.readShort, readRate, dt, exp), readLong := Updated(c.readLong, readRate, dt, exp),
       writeShort := Updated(c.writeShort, writeRate, dt, exp), writeLong := Updated(c.writeLong, writeRate, dt, exp))
  }

  /** A mode takes effect when it is indicated for the second time running. */
  function Filtered(c: Control, next: Mode): Control {
    var count := if next == c.candidate then c.count + 1 else 1;
    c.(candidate := next, count := count, state := if count >= 2 then next else c.state)
  }

  predicate Sane(c: Control) {
    c.readShort.tau == c.writeShort.tau == 2.0 && c.readLong.tau == c.writeLong.tau == 30.0
  }

  function Indicated(l: Limits, c: Control, s: Sample, exp: real -> real): Mode
    requires Sane(c)
  {
    var a := Averaged(c, s, exp);
    Classify(l, c.readers, a.writeShort, a.writeLong, s)
  }

  function Tick(l: Limits, c: Control, s: Sample, exp: real -> real): (t: Control)
    requires Sane(c)
    ensures Sane(t)
  {
    var f := Filtered(Averaged(c, s, exp), Indicated(l, c, s, exp));
    f.(readers := Clamp(Target(l, f.state, c.readers, s), Lowest(l), Highest(l)))
  }

  /** The controller after the first `n` ticks. */
  function After(l: Limits, samples: seq<Sample>, n: nat, exp: real -> real): (c: Control)
    requires n <= |samples|
    ensures Sane(c)
  {
    if n == 0 then Start(l) else Tick(l, After(l, samples, n - 1, exp), samples[n - 1], exp)
  }

  lemma ClampFits(l: Limits, x: nat)
    requires l.workers > 0
    ensures Lowest(l) <= Clamp(x, Lowest(l), Highest(l)) <= Highest(l) <= l.workers
  {}

  // ---- the controller thread -----------------------------------------------

  class Scheduler {
    var readersTarget: nat
    var state: Mode
    var publishedReaders: nat
    var publishedWriters: nat
    const limits: Limits

    constructor (limits: Limits)
      ensures this.limits == limits && readersTarget == StartReaders(limits) && state == Balanced
      ensures readersTarget == if limits.workers >= 2 then limits.workers / 2 else 1
    {
      this.limits := limits;
      readersTarget := Clamp(limits.workers / 2, 1, Max(Sat(limits.workers, 1), 1));
      state := Balanced;
      publishedReaders, publishedWriters := 0, 0;
    }

    /** Feed one rate to both windows of a device. */
    static method Observe(short: Ewma, long: Ewma, rate: real, dt: real, exp: real -> real)
      requires short != long && short.tau > 0.0 && long.tau > 0.0
      modifies short, long
      ensures short.View() == Updated(old(short.View()), rate, dt, exp)
      ensures long.View() == Updated(old(long.View()), rate, dt, exp)
    {
      short.Update(rate, dt, exp);
      long.Update(rate, dt, exp);
    }

    /** Classify the sample, apply the hysteresis and move the reader count. */
    method Steer(s: Sample, candidate: Mode, count: nat, short: real, long: real, ghost a: Control)
      returns (candidate': Mode, count': nat)
      requires limits.workers > 0
      requires a.readers == readersTarget && a.state == state && a.candidate == candidate && a.count == count
      requires a.writeShort.value == short && a.writeLong.value == long
      modifies this
      ensures var f := Filtered(a, Classify(limits, a.readers, a.writeShort, a.writeLong, s));
        && state == f.state && candidate' == f.candidate && count' == f.count
        && readersTarget == Clamp(Target(limits, f.state, a.readers, s), Lowest(limits), Highest(limits))
      ensures publishedReaders == readersTarget && publishedReaders + publishedWriters == limits.workers
    {
      hide Target; hide Clamp; hide Lowest; hide Highest; hide Max;
      var readers := readersTarget;
      var writers := Sat(limits.workers, readers);
      var cliff := writers >= limits.maxWriters && long > CLIFF_FLOOR_BPS && short < CLIFF_RATIO * long;
      var next := if limits.sameSpindle then Thrash
                  else if cliff then Cliff
                  else if s.free < Max(readers, 1) then Drain
                  else if s.filled < Max(writers, 1) then Fill
                  else Balanced;
      if next == candidate {
        candidate', count' := candidate, count + 1;
      } else {
        candidate', count' := next, 1;
      }
      var committed := state;
      if count' >= 2 {
        state := candidate';
        committed := candidate';
      }
      var target := Target(limits, committed, readers, s);
      ClampFits(limits, target);
      target := Clamp(target, Lowest(limits), Highest(limits));
      readersTarget := target;
      publishedReaders := target;
      publishedWriters := limits.workers - target;
    }

    /** Sample and steer, one iteration per element of `samples`. */
    method Run(samples: seq<Sample>, exp: real -> real)
      requires limits.workers > 0 && readersTarget == StartReaders(limits) && state == Balanced
      modifies this
      ensures readersTarget == After(limits, samples, |samples|, exp).readers
      ensures state == After(limits, samples, |samples|, exp).state
      ensures samples != [] ==>
                publishedReaders == readersTarget && publishedReaders + publishedWriters == limits.workers
    {
      hide Updated; hide Rate; hide Target; hide Clamp; hide Classify;
      var lastRead, lastWritten := 0, 0;
      var readShort := new Ewma(2.0);
      var readLong := new Ewma(30.0);
      var writeShort := new Ewma(2.0);
      var writeLong := new Ewma(30.0);
      var candidate, candidateCount := Balanced, 0;
      for i := 0 to |samples|
        invariant fresh(readShort) && fresh(readLong) && fresh(writeShort) && fresh(writeLong)
        invariant readShort != readLong && readShort != writeShort && readShort != writeLong
        invariant readLong != writeShort && readLong != writeLong && writeShort != writeLong
        invariant Control(readersTarget, state, candidate, candidateCount, lastRead, lastWritten,
                          readShort.View(), readLong.View(), writeShort.View(), writeLong.View())
               == After(limits, samples, i, exp)
        invariant i > 0 ==> publishedReaders == readersTarget && publishedReaders + publishedWriters == limits.workers
      {
        var s := samples[i];
        ghost var c := After(limits, samples, i, exp);
        var dt := if s.elapsed < MIN_DT then MIN_DT else s.elapsed;
        var readRate, writeRate := Rate(s.bytesRead, lastRead, dt), Rate(s.bytesWritten, lastWritten, dt);
        lastRead, lastWritten := s.bytesRead, s.bytesWritten;
        Observe(readShort, readLong, readRate, dt, exp);
        Observe(writeShort, writeLong, writeRate, dt, exp);
        ghost var a := Averaged(c, s, exp);
        assert a == Control(readersTarget, state, candidate, candidateCount, lastRead, lastWritten,
                            readShort.View(), readLong.View(), writeShort.View(), writeLong.View());
        hide Averaged;
        var short := writeShort.Get();
        var long := writeLong.Get();
        candidate, candidateCount := Steer(s, candidate, candidateCount, short, long, a);
      }
    }
  }

  // ---- who is told to read -------------------------------------------------

  function Assigned(readers: nat, workers: nat, role: Role): set<nat> {
    set w: nat | w < workers && RoleOf(readers, w) == role
  }

  /** Of all workers exactly the target number is told to read, or all if there are fewer; the others write. */
  lemma {:induction false} RolesFollowTarget(readers: nat, workers: nat)
    ensures |Assigned(readers, workers, Read)| == Min(readers, workers)
    ensures |Assigned(readers, workers, Write)| == Sat(workers, readers)
  {
    if workers > 0 {
      RolesFollowTarget(readers, workers - 1);
      OneMore(readers, workers - 1, Read);
      OneMore(readers, workers - 1, Write);
    } else {
      assert Assigned(readers, 0, Read) == {} == Assigned(readers, 0, Write);
    }
  }

  lemma OneMore(readers: nat, last: nat, role: Role)
    ensures |Assigned(readers, last + 1, role)|
         == |Assigned(readers, last, role)| + (if RoleOf(readers, last) == role then 1 else 0)
  {
    var before, now := Assigned(readers, last, role), Assigned(readers, last + 1, role);
    if RoleOf(readers, last) == role {
      assert now == before + {last};
    } else {
      assert now == before;
    }
  }

  // ---- the split over a whole run ------------------------------------------

  ghost predicate InBounds(l: Limits, readers: nat) {
    Lowest(l) <= readers <= Highest(l)
  }

  lemma TickInBounds(l: Limits, samples: seq<Sample>, n: nat, exp: real -> real)
    requires l.workers > 0 && 0 < n <= |samples|
    ensures InBounds(l, After(l, samples, n, exp).readers)
  {
    var c := After(l, samples, n - 1, exp);
    var f := Filtered(Averaged(c, samples[n - 1], exp), Indicated(l, c, samples[n - 1], exp));
    ClampFits(l, Target(l, f.state, c.readers, samples[n - 1]));
  }

  /**
   After every tick the writers respect the destination's depth and some worker reads.  Some worker
   writes exactly when the destination has a depth at all, and the readers respect the source's depth
   exactly when it is positive and the two depths together can occupy all workers.
   */
  lemma SplitSafe(l: Limits, samples: seq<Sample>, n: nat, exp: real -> real)
    requires l.workers >= 2 && !l.sameSpindle && 0 < n <= |samples|
    ensures var readers := After(l, samples, n, exp).readers;
      && 1 <= readers <= l.workers && l.workers - readers <= l.maxWriters
      && (l.workers - readers >= 1 <==> l.maxWriters >= 1)
      && (readers <= l.maxReaders <==> l.maxReaders >= 1 && l.maxReaders + l.maxWriters >= l.workers)
  {
    TickInBounds(l, samples, n, exp);
  }

  /** After every tick at least one worker is told to read, and no more to write than the destination can take. */
  lemma CrewSplit(l: Limits, samples: seq<Sample>, n: nat, exp: real -> real)
    requires l.workers >= 2 && !l.sameSpindle && 0 < n <= |samples|
    ensures var readers := After(l, samples, n, exp).readers;
      && |Assigned(readers, l.workers, Read)| == readers >= 1
      && |Assigned(readers, l.workers, Write)| == l.workers - readers <= l.maxWriters
  {
    hide After;
    SplitSafe(l, samples, n, exp);
    RolesFollowTarget(After(l, samples, n, exp).readers, l.workers);
  }

  /** From the second tick on the reader count moves by at most one worker per tick. */
  lemma OneWorkerPerTick(l: Limits, samples: seq<Sample>, n: nat, exp: real -> real)
    requires l.workers > 0 && !l.sameSpindle && 1 < n <= |samples|
    ensures var before, now := After(l, samples, n - 1, exp).readers, After(l, samples, n, exp).readers;
      before - 1 <= now <= before + 1
  {
    ThrashNeedsSharedSpindle(l, samples, n, exp);
    TickInBounds(l, samples, n - 1, exp);
    TickInBounds(l, samples, n, exp);
    var c := After(l, samples, n - 1, exp);
    var f := Filtered(Averaged(c, samples[n - 1], exp), Indicated(l, c, samples[n - 1], exp));
    assert After(l, samples, n, exp).state == f.state;
    hide After; hide Averaged; hide Indicated; hide Lowest; hide Highest; hide Base;
  }

  /** A committed Fill or Cliff moves one worker to reading and a committed Drain one to writing, up to the bounds. */
  lemma StarvedSideGains(l: Limits, samples: seq<Sample>, n: nat, exp: real -> real)
    requires l.workers > 0 && 1 < n <= |samples|
    ensures var before, now := After(l, samples, n - 1, exp).readers, After(l, samples, n, exp).readers;
      var state := After(l, samples, n, exp).state;
      && (state == Fill || state == Cliff ==> if before < Highest(l) then now == before + 1 else now == Highest(l))
      && (state == Drain ==> if before > Lowest(l) then now == before - 1 else now == Lowest(l))
  {
    TickInBounds(l, samples, n - 1, exp);
    ClampFits(l, 0);
    var c := After(l, samples, n - 1, exp);
    var f := Filtered(Averaged(c, samples[n - 1], exp), Indicated(l, c, samples[n - 1], exp));
    assert After(l, samples, n, exp).state == f.state;
    hide Averaged; hide Indicated; hide Lowest; hide Highest; hide Base;
  }

  lemma NearlyGone(n: nat, capacity: nat)
    ensures Occupancy(n, capacity) < BURST <==> 100 * n < 12 * Max(capacity, 1)
  {
    var all := Max(capacity, 1) as real;
    ShareBelow(n as real, all);
    assert 100.0 * n as real < 12.0 * all <==> (100 * n) as real < (12 * Max(capacity, 1)) as real;
  }

  lemma ShareBelow(x: real, all: real)
    requires all > 0.0
    ensures x / all < 0.12 <==> 100.0 * x < 12.0 * all
  {
    var share := x / all;
    assert share * all == x;
    if share < 0.12 {
      assert share * all < 0.12 * all;
    } else {
      assert share * all >= 0.12 * all;
    }
  }

  /**
   On a shared spindle, from the second tick on, all workers write while less than 12 percent of the
   buffers are free, else all read while less than 12 percent are filled, and otherwise nobody changes sides.
   */
  lemma SharedSpindleBursts(l: Limits, samples: seq<Sample>, n: nat, exp: real -> real)
    requires l.workers > 0 && l.sameSpindle && 2 <= n <= |samples|
    ensures var s, before := samples[n - 1], After(l, samples, n - 1, exp).readers;
      After(l, samples, n, exp).readers == if 100 * s.free < 12 * Max(s.capacity, 1) then 0
             else if 100 * s.filled < 12 * Max(s.capacity, 1) then l.workers
             else before
  {
    NearlyGone(samples[n - 1].free, samples[n - 1].capacity);
    NearlyGone(samples[n - 1].filled, samples[n - 1].capacity);
    SharedSpindleThrashes(l, samples, n, exp);
    TickInBounds(l, samples, n - 1, exp);
    var c := After(l, samples, n - 1, exp);
    var f := Filtered(Averaged(c, samples[n - 1], exp), Indicated(l, c, samples[n - 1], exp));
    assert After(l, samples, n, exp).state == f.state;
    hide Averaged; hide Indicated; hide Occupancy;
  }

  // ---- hysteresis ----------------------------------------------------------

  /** What tick `i` indicated. */
  function IndicatedAt(l: Limits, samples: seq<Sample>, i: nat, exp: real -> real): Mode
    requires i < |samples|
  {
    Indicated(l, After(l, samples, i, exp), samples[i], exp)
  }

  /** The latest mode indicated on two consecutive ticks among the first `n`, or Balanced. */
  function LatestRepeated(l: Limits, samples: seq<Sample>, n: nat, exp: real -> real): Mode
    requires n <= |samples|
  {
    if n < 2 then Balanced
    else if IndicatedAt(l, samples, n - 1, exp) == IndicatedAt(l, samples, n - 2, exp) then
      IndicatedAt(l, samples, n - 1, exp)
    else LatestRepeated(l, samples, n - 1, exp)
  }

  lemma TickFilters(l: Limits, samples: seq<Sample>, n: nat, exp: real -> real)
    requires 0 < n <= |samples|
    ensures var c, t := After(l, samples, n - 1, exp), After(l, samples, n, exp);
      var next := IndicatedAt(l, samples, n - 1, exp);
      && t.candidate == next
      && t.count == (if next == c.candidate then c.count + 1 else 1)
      && t.state == (if t.count >= 2 then next else c.state)
  {
    hide Classify; hide Updated; hide Clamp; hide Target; hide Rate;
  }

  /** One noisy sample flips nothing: the state is exactly the latest repeated indication. */
  lemma {:induction false} HysteresisMeansRepeated(l: Limits, samples: seq<Sample>, n: nat, exp: real -> real)
    requires n <= |samples|
    ensures After(l, samples, n, exp).state == LatestRepeated(l, samples, n, exp)
    ensures n > 0 ==> After(l, samples, n, exp).candidate == IndicatedAt(l, samples, n - 1, exp)
                      && After(l, samples, n, exp).count >= 1
    ensures n >= 2 ==> (After(l, samples, n, exp).count >= 2 <==>
                          IndicatedAt(l, samples, n - 1, exp) == IndicatedAt(l, samples, n - 2, exp))
  {
    if n > 0 {
      HysteresisMeansRepeated(l, samples, n - 1, exp);
      TickFilters(l, samples, n, exp);
      if n == 1 {
        assert After(l, samples, 0, exp) == Start(l);
      }
      hide After; hide Indicated;
    }
  }

  lemma {:induction false} ThrashNeedsSharedSpindle(l: Limits, samples: seq<Sample>, n: nat, exp: real -> real)
    requires n <= |samples| && !l.sameSpindle
    ensures After(l, samples, n, exp).state != Thrash && After(l, samples, n, exp).candidate != Thrash
  {
    if n > 0 {
      ThrashNeedsSharedSpindle(l, samples, n - 1, exp);
      hide CliffSeen; hide Updated; hide Clamp; hide Target;
    }
  }

  /** On a shared spindle the bursting mode holds from the second tick for the rest of the run. */
  lemma SharedSpindleThrashes(l: Limits, samples: seq<Sample>, n: nat, exp: real -> real)
    requires l.sameSpindle && 2 <= n <= |samples|
    ensures After(l, samples, n, exp).state == Thrash
  {
    HysteresisMeansRepeated(l, samples, n, exp);
  }

  // ---- cliffs --------------------------------------------------------------

  /** With the destination as deep as there are workers, a cliff is never classified. */
  lemma NoCliffAtFullDepth(l: Limits, samples: seq<Sample>, i: nat, exp: real -> real)
    requires l.workers >= 2 && l.maxWriters >= l.workers && !l.sameSpindle && i < |samples|
    ensures IndicatedAt(l, samples, i, exp) != Cliff
  {
    if i > 0 {
      TickInBounds(l, samples, i, exp);
    }
    hide Updated;
  }

  /** Committing a cliff takes a writer away whenever the bounds leave a choice. */
  lemma CliffGivesUpDepth(l: Limits, samples: seq<Sample>, n: nat, exp: real -> real)
    requires l.workers >= 2 && !l.sameSpindle && 1 < n <= |samples|
    requires Lowest(l) < Highest(l) && After(l, samples, n, exp).state == Cliff
    ensures 0 <= l.workers - After(l, samples, n, exp).readers < l.maxWriters
  {
    ClampFits(l, 0);
    TickInBounds(l, samples, n - 1, exp);
    TickInBounds(l, samples, n, exp);
    hide Updated; hide Classify;
  }

  predicate ThreeCliffs(l: Limits, samples: seq<Sample>, i: nat, exp: real -> real)
    requires i + 2 < |samples|
  {
    && IndicatedAt(l, samples, i, exp) == Cliff && IndicatedAt(l, samples, i + 1, exp) == Cliff
    && IndicatedAt(l, samples, i + 2, exp) == Cliff
  }

  /** With a choice of splits, no run classifies a cliff on three consecutive ticks. */
  lemma NoThreeCliffs(l: Limits, samples: seq<Sample>, i: nat, exp: real -> real)
    requires l.workers >= 2 && !l.sameSpindle && i + 2 < |samples| && Lowest(l) < Highest(l)
    ensures !ThreeCliffs(l, samples, i, exp)
  {
    hide Updated; hide After; hide Rate; hide Lowest; hide Highest; hide Classify; hide Averaged;
    if IndicatedAt(l, samples, i, exp) == IndicatedAt(l, samples, i + 1, exp) == Cliff {
      HysteresisMeansRepeated(l, samples, i + 2, exp);
      CliffGivesUpDepth(l, samples, i + 2, exp);
      if IndicatedAt(l, samples, i + 2, exp) == Cliff {
        CliffNeedsDepth(l, samples, i + 2, exp);
      }
    }
  }

  lemma CliffNeedsDepth(l: Limits, samples: seq<Sample>, i: nat, exp: real -> real)
    requires i < |samples| && IndicatedAt(l, samples, i, exp) == Cliff
    ensures Sat(l.workers, After(l, samples, i, exp).readers) >= l.maxWriters
  {
    hide Updated; hide After; hide Rate;
  }

  // ---- cliff detection and the averages ------------------------------------

  /** The write rates of a run, as the averages see them. */
  function WriteReadings(samples: seq<Sample>, n: nat): (r: seq<Reading>)
    requires n <= |samples|
    ensures |r| == n
  {
    if n == 0 then []
    else
      var last := if n == 1 then 0 else samples[n - 2].bytesWritten;
      var dt := Interval(samples[n - 1]);
      WriteReadings(samples, n - 1) + [Reading(Rate(samples[n - 1].bytesWritten, last, dt), dt)]
  }

  lemma {:induction false} FoldPrefix(a: Average, xs: seq<Reading>, x: Reading, n: nat, exp: real -> real)
    requires n <= |xs| && a.tau > 0.0
    ensures Fold(a, xs + [x], n, exp) == Fold(a, xs, n, exp)
  {
    if n > 0 {
      FoldPrefix(a, xs, x, n - 1, exp);
    }
  }

  lemma {:induction false} AveragesFoldReadings(l: Limits, samples: seq<Sample>, n: nat, exp: real -> real)
    requires n <= |samples|
    ensures var c, r := After(l, samples, n, exp), WriteReadings(samples, n);
      && c.writeShort == Fold(Average(0.0, 2.0, false), r, n, exp)
      && c.writeLong == Fold(Average(0.0, 30.0, false), r, n, exp)
      && c.lastWritten == (if n == 0 then 0 else samples[n - 1].bytesWritten)
      && Ticking(r)
  {
    if n > 0 {
      AveragesFoldReadings(l, samples, n - 1, exp);
      var before, r := WriteReadings(samples, n - 1), WriteReadings(samples, n);
      FoldPrefix(Average(0.0, 2.0, false), before, r[n - 1], n - 1, exp);
      FoldPrefix(Average(0.0, 30.0, false), before, r[n - 1], n - 1, exp);
      hide Updated; hide Classify; hide Clamp; hide Target; hide Rate;
    }
  }

  /** The read rates of a run, as the averages see them. */
  function ReadReadings(samples: seq<Sample>, n: nat): (r: seq<Reading>)
    requires n <= |samples|
    ensures |r| == n
  {
    if n == 0 then []
    else
      var last := if n == 1 then 0 else samples[n - 2].bytesRead;
      var dt := Interval(samples[n - 1]);
      ReadReadings(samples, n - 1) + [Reading(Rate(samples[n - 1].bytesRead, last, dt), dt)]
  }

  /** The averages of the read rate, which nothing but the telemetry uses. */
  lemma {:induction false} ReadAveragesFoldReadings(l: Limits, samples: seq<Sample>, n: nat, exp: real -> real)
    requires n <= |samples|
    ensures var c, r := After(l, samples, n, exp), ReadReadings(samples, n);
      && c.readShort == Fold(Average(0.0, 2.0, false), r, n, exp)
      && c.readLong == Fold(Average(0.0, 30.0, false), r, n, exp)
      && c.lastRead == (if n == 0 then 0 else samples[n - 1].bytesRead)
  {
    if n > 0 {
      ReadAveragesFoldReadings(l, samples, n - 1, exp);
      var before, r := ReadReadings(samples, n - 1), ReadReadings(samples, n);
      FoldPrefix(Average(0.0, 2.0, false), before, r[n - 1], n - 1, exp);
      FoldPrefix(Average(0.0, 30.0, false), before, r[n - 1], n - 1, exp);
      hide Updated; hide Classify; hide Clamp; hide Target; hide Rate;
    }
  }

  /** The averages a tick classifies with are those of the readings up to and including it. */
  lemma ClassifiedAverages(l: Limits, samples: seq<Sample>, i: nat, exp: real -> real)
    requires i < |samples|
    ensures var a, r := Averaged(After(l, samples, i, exp), samples[i], exp), WriteReadings(samples, i + 1);
      && a.writeShort == Fold(Average(0.0, 2.0, false), r, i + 1, exp)
      && a.writeLong == Fold(Average(0.0, 30.0, false), r, i + 1, exp)
  {
    AveragesFoldReadings(l, samples, i + 1, exp);
    hide Classify; hide Clamp; hide Target; hide Updated;
  }

  ghost predicate RatesWithin(readings: seq<Reading>, lo: real, hi: real) {
    forall k :: 0 <= k < |readings| ==> lo <= readings[k].sample <= hi
  }

  lemma CloseAveragesAreNoCliff(l: Limits, readers: nat, short: Average, long: Average, s: Sample, lo: real, hi: real)
    requires lo <= short.value && long.value <= hi && lo >= CLIFF_RATIO * hi && !l.sameSpindle
    ensures Classify(l, readers, short, long, s) != Cliff
  {}

  /** Noise within 30 percent is never a cliff: all rates in [lo, hi] with lo at least 0.7 of hi. */
  lemma SteadyRatesAreNoCliff(l: Limits, samples: seq<Sample>, i: nat, exp: real -> real, lo: real, hi: real)
    requires Decaying(exp) && i < |samples| && !l.sameSpindle
    requires RatesWithin(WriteReadings(samples, i + 1), lo, hi)
    requires lo >= CLIFF_RATIO * hi
    ensures IndicatedAt(l, samples, i, exp) != Cliff
  {
    var r := WriteReadings(samples, i + 1);
    AveragesFoldReadings(l, samples, i + 1, exp);
    ClassifiedAverages(l, samples, i, exp);
    AverageInRange(2.0, r, i + 1, exp, lo, hi);
    AverageInRange(30.0, r, i + 1, exp, lo, hi);
    var c := After(l, samples, i, exp);
    var a := Averaged(c, samples[i], exp);
    hide Averaged; hide Fold; hide WriteReadings; hide After; hide Classify; hide Decaying; hide Ticking;
    CloseAveragesAreNoCliff(l, c.readers, a.writeShort, a.writeLong, samples[i], lo, hi);
  }

  // ---- balanced ticks settle -----------------------------------------------

  function Settled(l: Limits): nat {
    Clamp(Base(l), Lowest(l), Highest(l))
  }

  /** `k` moves of at most one from `r` towards `goal`. */
  function Towards(r: nat, goal: nat, k: nat): nat {
    if r <= goal then (if r + k <= goal then r + k else goal)
    else if r - goal >= k then r - k else goal
  }

  lemma BalancedTick(l: Limits, readers: nat, s: Sample)
    requires l.workers > 0 && InBounds(l, readers)
    ensures Clamp(Target(l, Balanced, readers, s), Lowest(l), Highest(l)) == Towards(readers, Settled(l), 1)
  {
    ClampFits(l, Base(l));
    hide Base; hide Lowest; hide Highest;
  }

  /** Balanced ticks walk the reader count straight to its fixed point and leave it there. */
  lemma {:induction false} BalancedConverges(l: Limits, samples: seq<Sample>, m: nat, n: nat, exp: real -> real)
    requires l.workers > 0 && 0 < m <= n <= |samples|
    requires forall i :: m < i <= n ==> After(l, samples, i, exp).state == Balanced
    ensures After(l, samples, n, exp).readers == Towards(After(l, samples, m, exp).readers, Settled(l), n - m)
  {
    if m < n {
      BalancedConverges(l, samples, m, n - 1, exp);
      TickInBounds(l, samples, n - 1, exp);
      var c := After(l, samples, n - 1, exp);
      BalancedTick(l, c.readers, samples[n - 1]);
      var target := Target(l, Balanced, c.readers, samples[n - 1]);
      assert After(l, samples, n, exp).readers == Clamp(target, Lowest(l), Highest(l));
      hide After; hide Settled;
    }
  }

  lemma DivAtLeast(x: nat, d: nat, q: nat)
    requires d > 0 && q * d <= x
    ensures q <= x / d
  {
    assert x == d * (x / d) + x % d;
    Distribute(x / d, 1, d);
    if x / d + 1 <= q {
      MulMonotone(x / d + 1, q, d);
    }
  }

  lemma DivAtMost(x: nat, d: nat, q: nat)
    requires d > 0 && x < (q + 1) * d
    ensures x / d <= q
  {
    assert x == d * (x / d) + x % d;
    if q + 1 <= x / d {
      MulMonotone(q + 1, x / d, d);
    }
  }

  /**
   The fixed point: with enough depth on the two sides together it is the weighted split, already
   within the bounds; otherwise the bounds leave only the split that fills the destination's depth.
   */
  lemma FixedPoint(l: Limits)
    requires l.workers >= 2 && !l.sameSpindle && 1 <= l.maxReaders <= l.workers && 1 <= l.maxWriters <= l.workers
    ensures l.maxReaders + l.maxWriters >= l.workers ==>
              Settled(l) == Max(1, (l.workers * l.maxReaders) / (l.maxReaders + l.maxWriters))
                  && InBounds(l, Max(1, Base(l)))
    ensures l.maxReaders + l.maxWriters < l.workers ==>
              Lowest(l) == Highest(l) == Settled(l) == l.workers - l.maxWriters
  {
    var w, r, t := l.workers, l.maxReaders, l.maxWriters;
    if r + t >= w {
      WeightedSplitInBounds(w, r, t);
    }
  }

  lemma SplitLow(w: int, r: int, t: int)
    requires 0 <= t && w <= r + t
    ensures (w - t) * (r + t) <= w * r
  {
    var slack := r + t - w;
    assert (w - t) * (r + t) == w * r - t * slack;
    assert 0 <= t * slack;
  }

  lemma SplitHigh(w: int, r: int, t: int)
    requires 0 < r && 0 < t && 0 < w <= r + t
    ensures w * r < (r + 1) * (r + t) && w * r < w * (r + t)
  {
    assert (r + 1) * (r + t) == (r + t) * r + (r + t);
    assert w * r <= (r + t) * r;
    assert w * (r + t) == w * r + w * t;
    assert 0 < w * t;
  }

  lemma WeightedSplitInBounds(w: nat, r: nat, t: nat)
    requires 1 <= r <= w && 1 <= t <= w && r + t >= w
    ensures w - t <= (w * r) / (r + t) <= r && (w * r) / (r + t) <= w - 1
  {
    SplitLow(w, r, t);
    SplitHigh(w, r, t);
    DivAtLeast(w * r, r + t, w - t);
    DivAtMost(w * r, r + t, r);
    DivAtMost(w * r, r + t, w - 1);
  }
}
