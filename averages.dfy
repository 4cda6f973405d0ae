/** The moving-delta accumulator of the delta rule (class DeltaRule::Deltas in
    include/delta.h): a running baseline updated by the incremental-average rule
    `delta += (value - delta) / divisor`, over real numbers. */
module Averages {

  /** DeltaRule::DeltaType: simple or exponential moving delta. */
  datatype DeltaType = SMA | EMA

  /** The MIN macro. */
  function Min(x: int, y: int): (m: int)
    ensures m <= x && m <= y
    ensures m == x || m == y
  {
    if x < y then x else y
  }

  /** The divisor addValue uses once the sample count has been incremented:
      the sample count for SMA, the sample count capped at the factor for EMA. */
  function Divisor(kind: DeltaType, samples: int, factor: int): (d: int)
    ensures kind == SMA ==> d == samples
    ensures kind == EMA ==> d <= factor && d <= samples && (d == factor || d == samples)
    ensures kind == EMA && samples >= factor ==> d == factor
    ensures samples >= 1 && (kind == SMA || factor >= 1) ==> d >= 1
  {
    if kind == SMA then samples else Min(samples, factor)
  }

  /** The state of one tracker as a value: baseline, sample count, type and factor. */
  datatype Tracker = Tracker(delta: real, samples: nat, kind: DeltaType, factor: int)

  /** A freshly constructed tracker: baseline 0 and no samples. */
  function Fresh(kind: DeltaType, factor: int): (t: Tracker)
    ensures t.delta == 0.0 && t.samples == 0
  {
    Tracker(0.0, 0, kind, factor)
  }

  /** The divisor the next addValue on `t` divides by. */
  function NextDivisor(t: Tracker): int
  {
    Divisor(t.kind, t.samples + 1, t.factor)
  }

  /** An averaging whose divisor is at least 1 whatever the count: SMA, and
      EMA with a factor of at least 1. Its baseline moves towards each reading. */
  predicate Converges(kind: DeltaType, factor: int)
  {
    kind == SMA || factor >= 1
  }

  /** The effect of addValue(v) on a tracker whose divisor is not zero. */
  function Step(t: Tracker, v: real): (u: Tracker)
    requires NextDivisor(t) != 0
    ensures u.samples == t.samples + 1 && u.kind == t.kind && u.factor == t.factor
    ensures (u.delta - t.delta) * (NextDivisor(t) as real) == v - t.delta
    ensures v == t.delta ==> u.delta == t.delta
    ensures NextDivisor(t) == 1 ==> u.delta == v
    ensures Converges(t.kind, t.factor) ==> Converges(u.kind, u.factor)
  {
    var d := NextDivisor(t);
    Tracker(t.delta + (v - t.delta) / (d as real), t.samples + 1, t.kind, t.factor)
  }

  /** The tracker after addValue has been called with each of `vs` in turn. */
  function Run(t: Tracker, vs: seq<real>): (u: Tracker)
    requires Converges(t.kind, t.factor)
    ensures Converges(u.kind, u.factor) && u.kind == t.kind && u.factor == t.factor
    ensures u.samples == t.samples + |vs|
  {
    if vs == [] then t
    else
      var p := Run(t, vs[..|vs| - 1]);
      Step(p, vs[|vs| - 1])
  }

  function Sum(vs: seq<real>): real
  {
    if vs == [] then 0.0 else Sum(vs[..|vs| - 1]) + vs[|vs| - 1]
  }

  /** The baseline times the sample count: in SMA mode, the total of the values added. */
  function Total(t: Tracker): real
  {
    t.delta * (t.samples as real)
  }

  /** One SMA step adds the new value to the total. */
  lemma SmaStepTotal(t: Tracker, v: real)
    requires t.kind == SMA
    ensures Total(Step(t, v)) == Total(t) + v
  {
    var m := t.samples as real;
    var n := m + 1.0;
    var a := t.delta;
    var b := Step(t, v).delta;
    assert NextDivisor(t) == t.samples + 1;
    assert (b - a) * n == v - a;
    assert b * n == a * n + v - a;
    assert a * n == a * m + a;
  }

  /** In SMA mode, the baseline times the sample count grows by exactly the sum
      of the values added. */
  lemma {:induction false} SmaRunTotal(t: Tracker, vs: seq<real>)
    requires t.kind == SMA
    ensures Total(Run(t, vs)) == Total(t) + Sum(vs)
  {
    if vs != [] {
      var init, v := vs[..|vs| - 1], vs[|vs| - 1];
      var p := Run(t, init);
      var u := Step(p, v);
      SmaRunTotal(t, init);
      SmaStepTotal(p, v);
      assert Run(t, vs) == u;
      assert Sum(vs) == Sum(init) + v;
    }
  }

  /** In SMA mode, after n >= 1 values the baseline of a fresh tracker is the
      arithmetic mean of those values. */
  lemma {:induction false} SmaIsMean(factor: int, vs: seq<real>)
    requires |vs| > 0
    ensures Run(Fresh(SMA, factor), vs).delta == Sum(vs) / (|vs| as real)
  {
    var t := Fresh(SMA, factor);
    var u := Run(t, vs);
    SmaRunTotal(t, vs);
    Unscale(u.delta, u.samples as real, t.delta * (t.samples as real), Sum(vs));
  }

  lemma Unscale(a: real, n: real, z: real, s: real)
    requires n > 0.0 && z == 0.0 && a * n == z + s
    ensures a == s / n
  {
  }

  /** A point `b` with `(b - a) * d == v - a` for some `d >= 1` lies between `a` and `v`. */
  lemma BetweenByScale(a: real, b: real, v: real, d: real)
    requires d >= 1.0 && (b - a) * d == v - a
    ensures a <= v ==> a <= b <= v
    ensures v <= a ==> v <= b <= a
  {
    var x := b - a;
    assert x * d == x + x * (d - 1.0);
    if x > 0.0 {
      assert x * (d - 1.0) >= 0.0;
    } else if x < 0.0 {
      assert x * (d - 1.0) <= 0.0;
    }
  }

  /** With a divisor of at least 1, one step moves the baseline towards the new
      value without overshooting it. */
  lemma StepBetween(t: Tracker, v: real)
    requires NextDivisor(t) >= 1
    ensures t.delta <= v ==> t.delta <= Step(t, v).delta <= v
    ensures v <= t.delta ==> v <= Step(t, v).delta <= t.delta
  {
    BetweenByScale(t.delta, Step(t, v).delta, v, NextDivisor(t) as real);
  }

  /** In both modes (EMA with factor >= 1), the baseline of a tracker that has
      seen a value stays within the range of every value it has been given:
      a fresh tracker's first value becomes its baseline. */
  lemma {:induction false} RunWithin(t: Tracker, vs: seq<real>, lo: real, hi: real)
    requires Converges(t.kind, t.factor)
    requires t.samples == 0 || lo <= t.delta <= hi
    requires forall i :: 0 <= i < |vs| ==> lo <= vs[i] <= hi
    ensures Run(t, vs).samples == 0 || lo <= Run(t, vs).delta <= hi
  {
    if vs != [] {
      var init := vs[..|vs| - 1];
      var v := vs[|vs| - 1];
      RunWithin(t, init, lo, hi);
      var p := Run(t, init);
      if p.samples == 0 {
        assert NextDivisor(p) == 1;
      } else {
        StepBetween(p, v);
      }
    }
  }

  /** A run of identical readings `v` leaves the baseline at `v`, once the
      tracker has seen a value or is fresh. */
  lemma {:induction false} RepeatedValueKeepsBaseline(t: Tracker, v: real, vs: seq<real>)
    requires Converges(t.kind, t.factor)
    requires t.samples == 0 || t.delta == v
    requires |vs| > 0 || t.samples > 0
    requires forall i :: 0 <= i < |vs| ==> vs[i] == v
    ensures Run(t, vs).delta == v
  {
    RunWithin(t, vs, v, v);
  }

  /** DeltaRule::Deltas: one accumulator, updated in place. The type and factor
      are not set by the constructor. */
  class Deltas {
    var delta: real
    var samples: nat
    var factor: int
    var kind: DeltaType

    /** The tracker's state as a value. */
    function State(): (t: Tracker)
      reads this
    {
      Tracker(delta, samples, kind, factor)
    }

    constructor ()
      ensures delta == 0.0 && samples == 0
    {
      delta := 0.0;
      samples := 0;
    }

    /** Counts one more sample and moves the baseline towards `value`. */
    method AddValue(value: real)
      requires NextDivisor(State()) != 0
      modifies this
      ensures State() == Step(old(State()), value)
    {
      samples := samples + 1;
      var divisor := if kind == SMA then samples else Min(samples, factor);
      delta := delta + (value - delta) / (divisor as real);
    }

    /** The current baseline; nothing changes. */
    method Delta() returns (d: real)
      ensures d == delta
    {
      d := delta;
    }

    /** Sets the averaging type and factor; baseline and count are untouched. */
    method SetDeltaType(kind: DeltaType, factor: int)
      modifies this
      ensures State() == old(State()).(kind := kind, factor := factor)
    {
      this.kind := kind;
      this.factor := factor;
    }
  }
}
