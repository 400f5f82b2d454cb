/** The exponentially weighted averages that feed the scheduler. */
module Stats {

  /** What the proofs use of `x => exp(-x)`: between zero and one, and falling. */
  ghost predicate Decaying(exp: real -> real) {
    && (forall x: real :: x > 0.0 ==> 0.0 < exp(x) < 1.0)
    && (forall x: real, y: real :: 0.0 < x <= y ==> exp(y) <= exp(x))
  }

  datatype Average = Average(value: real, tau: real, primed: bool)

  function Updated(a: Average, sample: real, dt: real, exp: real -> real): Average
    requires a.tau > 0.0
  {
    if !a.primed then a.(value := sample, primed := true)
    else a.(value := a.value + (1.0 - exp(dt / a.tau)) * (sample - a.value))
  }

  class Ewma {
    var value: real
    const tau: real
    var primed: bool

    ghost function View(): Average
      reads this
    {
      Average(value, tau, primed)
    }

    constructor (tau: real)
      ensures View() == Average(0.0, tau, false)
    {
      this.tau := tau;
      value, primed := 0.0, false;
    }

    method Update(sample: real, dt: real, exp: real -> real)
      requires tau > 0.0
      modifies this
      ensures View() == Updated(old(View()), sample, dt, exp)
      ensures if old(primed) then value - sample == exp(dt / tau) * (old(value) - sample) else value == sample
    {
      Blend(value, sample, exp(dt / tau));
      if !primed {
        value := sample;
        primed := true;
        return;
      }
      var alpha := 1.0 - exp(dt / tau);
      value := value + alpha * (sample - value);
    }

    method Get() returns (v: real)
      ensures v == View().value
    {
      v := value;
    }
  }

  // ---- sequences of samples ------------------------------------------------

  datatype Reading = Reading(sample: real, dt: real)

  /** The average after the first `n` readings. */
  function Fold(a: Average, readings: seq<Reading>, n: nat, exp: real -> real): (r: Average)
    requires n <= |readings| && a.tau > 0.0
    ensures r.tau == a.tau && (r.primed <==> a.primed || n > 0)
  {
    if n == 0 then a
    else Updated(Fold(a, readings, n - 1, exp), readings[n - 1].sample, readings[n - 1].dt, exp)
  }

  ghost predicate Ticking(readings: seq<Reading>) {
    forall i :: 0 <= i < |readings| ==> readings[i].dt > 0.0
  }

  /** A factor between zero and one moves a number towards zero. */
  lemma Shrinks(f: real, x: real) returns (y: real)
    requires 0.0 <= f <= 1.0
    ensures y == f * x
    ensures 0.0 <= x ==> 0.0 <= y <= x
    ensures x <= 0.0 ==> x <= y <= 0.0
  {
    y := f * x;
  }

  lemma MulOrdered(f: real, g: real, x: real, y: real)
    requires 0.0 <= f <= g && 0.0 <= x <= y
    ensures f * x <= g * y
  {
    assert f * x <= g * x;
    assert g * x <= g * y;
  }

  /** The update written as the sample plus what is kept of the distance to it. */
  lemma Blend(value: real, sample: real, keep: real)
    ensures value + (1.0 - keep) * (sample - value) == sample + keep * (value - sample)
  {}

  lemma BlendBetween(value: real, sample: real, keep: real, lo: real, hi: real)
    requires 0.0 <= keep <= 1.0 && lo <= value <= hi && lo <= sample <= hi
    ensures lo <= value + (1.0 - keep) * (sample - value) <= hi
  {
    var kept := Shrinks(keep, value - sample);
    Blend(value, sample, keep);
    KeptBetween(value, sample, kept, lo, hi);
  }

  lemma KeptBetween(value: real, sample: real, kept: real, lo: real, hi: real)
    requires lo <= value <= hi && lo <= sample <= hi
    requires 0.0 <= value - sample ==> 0.0 <= kept <= value - sample
    requires value - sample <= 0.0 ==> value - sample <= kept <= 0.0
    ensures lo <= sample + kept <= hi
  {}

  /** One update lands between the old value and the sample. */
  lemma UpdateBetween(a: Average, sample: real, dt: real, exp: real -> real, lo: real, hi: real)
    requires Decaying(exp) && a.tau > 0.0 && dt > 0.0 && lo <= sample <= hi && (a.primed ==> lo <= a.value <= hi)
    ensures lo <= Updated(a, sample, dt, exp).value <= hi
  {
    if a.primed {
      var x := dt / a.tau;
      assert x > 0.0;
      var keep := exp(x);
      BlendBetween(a.value, sample, keep, lo, hi);
    }
  }

  /** An average never leaves the range of the samples it has seen. */
  lemma {:induction false} AverageInRange(tau: real, readings: seq<Reading>, n: nat, exp: real -> real, lo: real,
      hi: real)
    requires Decaying(exp) && tau > 0.0 && Ticking(readings) && 0 < n <= |readings|
    requires forall i :: 0 <= i < n ==> lo <= readings[i].sample <= hi
    ensures lo <= Fold(Average(0.0, tau, false), readings, n, exp).value <= hi
  {
    if n > 1 {
      AverageInRange(tau, readings, n - 1, exp, lo, hi);
    }
    var last := readings[n - 1];
    UpdateBetween(Fold(Average(0.0, tau, false), readings, n - 1, exp), last.sample, last.dt, exp, lo, hi);
  }

  lemma LargerDivisor(a: real, long: real, b: real, short: real)
    requires a * long == b * short && 0.0 < short <= long && b > 0.0
    ensures a <= b
  {
    assert b * short <= b * long;
    assert (a - b) * long <= 0.0;
  }

  lemma ShortDecaysFaster(dt: real, short: real, long: real, exp: real -> real)
    requires Decaying(exp) && dt > 0.0 && 0.0 < short <= long
    ensures 0.0 < exp(dt / short) <= exp(dt / long) < 1.0
  {
    assert (dt / long) * long == dt == (dt / short) * short;
    LargerDivisor(dt / long, long, dt / short, short);
    assert dt / long > 0.0;
  }

  lemma BlendOrdered(s: real, l: real, x: real, f: real, g: real)
    requires 0.0 <= f <= g <= 1.0 && x <= s <= l
    ensures x <= s + (1.0 - f) * (x - s) <= l + (1.0 - g) * (x - l)
  {
    Blend(s, x, f);
    Blend(l, x, g);
    MulOrdered(f, g, s - x, l - x);
    var kept := Shrinks(f, s - x);
  }

  /** A sample not above two ordered averages keeps their order and bounds them from below. */
  lemma UpdateOrdered(s: Average, l: Average, x: real, dt: real, exp: real -> real)
    requires Decaying(exp) && 0.0 < s.tau <= l.tau && dt > 0.0 && s.primed && l.primed && x <= s.value <= l.value
    ensures x <= Updated(s, x, dt, exp).value <= Updated(l, x, dt, exp).value
  {
    ShortDecaysFaster(dt, s.tau, l.tau, exp);
    BlendOrdered(s.value, l.value, x, exp(dt / s.tau), exp(dt / l.tau));
  }

  /** While the rate does not rise, the short window stays at or below the long one. */
  lemma {:induction false} ShortBelowLong(short: real, long: real, readings: seq<Reading>, n: nat, exp: real -> real)
    requires Decaying(exp) && 0.0 < short <= long && Ticking(readings) && 0 < n <= |readings|
    requires forall i :: 0 < i < n ==> readings[i].sample <= readings[i - 1].sample
    ensures readings[n - 1].sample <= Fold(Average(0.0, short, false), readings, n, exp).value
    ensures Fold(Average(0.0, short, false), readings, n, exp).value
         <= Fold(Average(0.0, long, false), readings, n, exp).value
  {
    if n > 1 {
      ShortBelowLong(short, long, readings, n - 1, exp);
      var s := Fold(Average(0.0, short, false), readings, n - 1, exp);
      var l := Fold(Average(0.0, long, false), readings, n - 1, exp);
      assert readings[n - 1].sample <= readings[n - 2].sample && readings[n - 1].dt > 0.0;
      hide Decaying; hide Updated;
      UpdateOrdered(s, l, readings[n - 1].sample, readings[n - 1].dt, exp);
    }
  }
}
