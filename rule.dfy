/** The delta notification rule (class DeltaRule in delta.cpp): configuration,
    numeric evaluation against a moving baseline per datapoint, and the
    structured-value evaluation that plugin_eval uses. */
module Rule {
  import opened Averages
  import opened Json

  /** The percentage deviation of a reading from the baseline read before the
      update. When the baseline is exactly zero the model gives the value that
      IEEE-754 division yields: an infinity of the reading's sign, or NaN for 0/0. */
  datatype Deviation = Percent(p: real) | PlusInfinity | MinusInfinity | NotANumber

  function DeviationOf(value: real, baseline: real): (d: Deviation)
    ensures d.Percent? <==> baseline != 0.0
    ensures d.Percent? ==> d.p * baseline == (value - baseline) * 100.0
    ensures baseline == 0.0 ==> (d.PlusInfinity? <==> value > 0.0) && (d.MinusInfinity? <==> value < 0.0)
    ensures baseline != 0.0 && value == baseline ==> d == Percent(0.0)
  {
    if baseline != 0.0 then Percent((value - baseline) * 100.0 / baseline)
    else if value > 0.0 then PlusInfinity
    else if value < 0.0 then MinusInfinity
    else NotANumber
  }

  function Abs(x: real): real
  {
    if x < 0.0 then -x else x
  }

  /** The trigger decision of the numeric evaluate for a direction string.
      Comparisons with NaN are false; the infinities compare as IEEE-754 says. */
  function Triggered(direction: string, d: Deviation, threshold: int): (r: bool)
    ensures r ==> direction == "Both" || direction == "Above Delta" || direction == "Below Delta"
    ensures d.NotANumber? ==> !r
    ensures d.Percent? && direction == "Both" ==> (r <==> Abs(d.p) > threshold as real)
    ensures d.Percent? && direction == "Above Delta" ==> (r <==> d.p > threshold as real)
    ensures d.Percent? && direction == "Below Delta" ==> (r <==> -d.p > threshold as real)
    ensures d.PlusInfinity? ==> (r <==> direction == "Both" || direction == "Above Delta")
    ensures d.MinusInfinity? ==> (r <==> direction == "Both" || direction == "Below Delta")
  {
    var t := threshold as real;
    if direction == "Both" then
      match d
      case Percent(p) => Abs(p) > t
      case NotANumber => false
      case _ => true
    else if direction == "Above Delta" then
      match d
      case Percent(p) => p > t
      case PlusInfinity => true
      case _ => false
    else if direction == "Below Delta" then
      match d
      case Percent(p) => -p > t
      case MinusInfinity => true
      case _ => false
    else
      false
  }

  /** "Both" triggers exactly when "Above Delta" or "Below Delta" would. */
  lemma BothIsAboveOrBelow(d: Deviation, threshold: int)
    ensures Triggered("Both", d, threshold)
        == (Triggered("Above Delta", d, threshold) || Triggered("Below Delta", d, threshold))
  {
  }

  /** For a non-zero baseline B and reading V, "Both" triggers iff
      |V - B| * 100 > T * |B|: the relative jump exceeds T percent. */
  lemma BothMeansRelativeJump(value: real, baseline: real, threshold: int)
    requires baseline != 0.0
    ensures Triggered("Both", DeviationOf(value, baseline), threshold)
        <==> Abs(value - baseline) * 100.0 > (threshold as real) * Abs(baseline)
  {
    var p := DeviationOf(value, baseline).p;
    var t := threshold as real;
    AbsOfProduct(p, baseline);
    AbsOfProduct(value - baseline, 100.0);
    assert Abs(p * baseline) == Abs((value - baseline) * 100.0);
    ScaleByPositive(Abs(p), t, Abs(baseline));
  }

  lemma AbsOfProduct(x: real, y: real)
    ensures Abs(x * y) == Abs(x) * Abs(y)
  {
    if x < 0.0 && y < 0.0 {
      assert x * y == (-x) * (-y);
    } else if x < 0.0 {
      assert -(x * y) == (-x) * y;
    } else if y < 0.0 {
      assert -(x * y) == x * (-y);
    }
  }

  lemma ScaleByPositive(a: real, t: real, b: real)
    requires b > 0.0
    ensures a > t <==> a * b > t * b
  {
    assert a * b - t * b == (a - t) * b;
    if a > t {
      assert (a - t) * b > 0.0;
    } else {
      assert (a - t) * b <= 0.0;
    }
  }

  /** With a positive baseline and a non-negative threshold, "Above Delta" fires
      only on a rise and "Below Delta" only on a fall. */
  lemma DirectionFollowsSign(value: real, baseline: real, threshold: int)
    requires baseline > 0.0 && threshold >= 0
    ensures Triggered("Above Delta", DeviationOf(value, baseline), threshold) ==> value > baseline
    ensures Triggered("Below Delta", DeviationOf(value, baseline), threshold) ==> value < baseline
  {
    var p := DeviationOf(value, baseline).p;
    assert p * baseline == (value - baseline) * 100.0;
    if p > 0.0 {
      assert p * baseline > 0.0;
    } else if p < 0.0 {
      assert p * baseline < 0.0;
    }
  }

  /** The rule's averaging configuration: threshold, direction, type and factor. */
  datatype Config = Config(deviation: int, direction: string, aveType: DeltaType, factor: int)

  /** The assumption under which the numeric evaluate is modelled: SMA, or EMA
      with a non-zero factor, so that addValue never divides by zero. */
  predicate AveragingSound(c: Config)
  {
    c.aveType == SMA || c.factor != 0
  }

  /** Every tracker carries the rule's averaging type and factor and has seen a value. */
  predicate TrackersAgree(c: Config, ts: map<string, Tracker>)
  {
    forall k :: k in ts ==> ts[k].kind == c.aveType && ts[k].factor == c.factor && ts[k].samples >= 1
  }

  /** deltaType selects SMA only when it is exactly "Simple Moving Delta". */
  function AveTypeOf(deltaType: string): (t: DeltaType)
    ensures t == SMA <==> deltaType == "Simple Moving Delta"
  {
    if deltaType == "Simple Moving Delta" then SMA else EMA
  }

  /** The trackers after configure has pushed a new type and factor into each. */
  function Retyped(ts: map<string, Tracker>, kind: DeltaType, factor: int): (r: map<string, Tracker>)
    ensures r.Keys == ts.Keys
    ensures forall k :: k in ts ==>
      r[k].delta == ts[k].delta && r[k].samples == ts[k].samples && r[k].kind == kind && r[k].factor == factor
  {
    map k | k in ts :: ts[k].(kind := kind, factor := factor)
  }

  /** The tracker created on the first reading of a datapoint. */
  function Seed(c: Config, value: real): (t: Tracker)
    requires AveragingSound(c)
    ensures t.samples == 1 && t.kind == c.aveType && t.factor == c.factor
    ensures Converges(c.aveType, c.factor) ==> t.delta == value
    ensures c.aveType == EMA && c.factor < 0 ==> t.delta * (c.factor as real) == value
  {
    Step(Fresh(c.aveType, c.factor), value)
  }

  /** The tracker created on the first reading in the order the source writes:
      addValue runs before setDeltaType, so the first divisor comes from the
      type and factor a new tracker happens to hold (`kind0`, `factor0`), which
      its constructor leaves unset. */
  function SeedAsWritten(c: Config, value: real, kind0: DeltaType, factor0: int): (t: Tracker)
    requires Divisor(kind0, 1, factor0) != 0
    ensures t.samples == 1 && t.kind == c.aveType && t.factor == c.factor
    ensures t.delta * (Divisor(kind0, 1, factor0) as real) == value
  {
    Step(Fresh(kind0, factor0), value).(kind := c.aveType, factor := c.factor)
  }

  /** Whenever the unset fields give a first divisor of 1 (SMA, or EMA with a
      factor of at least 1), the order does not matter. */
  lemma SeedAsWrittenAgrees(c: Config, value: real, kind0: DeltaType, factor0: int)
    requires Converges(c.aveType, c.factor) && Converges(kind0, factor0)
    ensures SeedAsWritten(c, value, kind0, factor0) == Seed(c, value)
  {
  }

  /** When the unset fields read as EMA with factor -2, the first reading 4 is
      stored as the baseline -2; the corrected order stores 4. */
  lemma SeedAsWrittenMissesReading()
    ensures SeedAsWritten(Config(10, "Both", SMA, 5), 4.0, EMA, -2).delta == -2.0
    ensures Seed(Config(10, "Both", SMA, 5), 4.0).delta == 4.0
  {
  }

  /** The numeric evaluate on the value of the tracker map: the decision and the new map. */
  function EvaluateNumber(c: Config, ts: map<string, Tracker>, datapoint: string, value: real)
    : (r: (bool, map<string, Tracker>))
    requires AveragingSound(c) && TrackersAgree(c, ts)
    ensures r.1.Keys == ts.Keys + {datapoint}
    ensures datapoint !in ts ==> !r.0 && r.1[datapoint].samples == 1
    ensures datapoint in ts ==> r.1[datapoint].samples == ts[datapoint].samples + 1
    ensures forall k :: k in ts && k != datapoint ==> r.1[k] == ts[k]
  {
    if datapoint !in ts then
      (false, ts[datapoint := Seed(c, value)])
    else
      var before := ts[datapoint];
      (Triggered(c.direction, DeviationOf(value, before.delta), c.deviation), ts[datapoint := Step(before, value)])
  }

  /** The first reading of a datapoint creates a tracker seeded with it and does
      not trigger; a later one adds the reading to the datapoint's tracker and
      decides on the deviation from the baseline held before. No other tracker
      changes, and every tracker still carries the rule's type and factor. */
  lemma EvaluateNumberSpec(c: Config, ts: map<string, Tracker>, datapoint: string, value: real)
    requires AveragingSound(c) && TrackersAgree(c, ts)
    ensures var r := EvaluateNumber(c, ts, datapoint, value);
      && TrackersAgree(c, r.1)
      && r.1.Keys == ts.Keys + {datapoint}
      && (forall k :: k in ts && k != datapoint ==> r.1[k] == ts[k])
      && (datapoint !in ts ==> !r.0 && r.1[datapoint] == Seed(c, value))
      && (datapoint in ts ==> r.1[datapoint] == Step(ts[datapoint], value))
      && (datapoint in ts ==> r.0 == Triggered(c.direction, DeviationOf(value, ts[datapoint].delta), c.deviation))
  {
  }

  /** A run of numeric readings of one datapoint: whether any of them triggered,
      and the trackers afterwards. */
  function EvaluateNumbers(c: Config, ts: map<string, Tracker>, datapoint: string, vs: seq<real>)
    : (r: (bool, map<string, Tracker>))
    requires AveragingSound(c) && TrackersAgree(c, ts)
    ensures TrackersAgree(c, r.1)
    ensures |vs| > 0 ==> datapoint in r.1
  {
    if vs == [] then (false, ts)
    else
      var p := EvaluateNumbers(c, ts, datapoint, vs[..|vs| - 1]);
      EvaluateNumberSpec(c, p.1, datapoint, vs[|vs| - 1]);
      var q := EvaluateNumber(c, p.1, datapoint, vs[|vs| - 1]);
      (p.0 || q.0, q.1)
  }

  /** Identical readings never trigger for a non-negative threshold, whatever
      the direction: the baseline stays at the reading, so the deviation is 0,
      or not a number when the reading is 0. */
  lemma {:induction false} RepeatedReadingsNeverTrigger(c: Config, ts: map<string, Tracker>, datapoint: string, v: real, vs: seq<real>)
    requires Converges(c.aveType, c.factor) && TrackersAgree(c, ts)
    requires c.deviation >= 0
    requires datapoint !in ts || ts[datapoint].delta == v
    requires forall i :: 0 <= i < |vs| ==> vs[i] == v
    ensures !EvaluateNumbers(c, ts, datapoint, vs).0
    ensures datapoint in EvaluateNumbers(c, ts, datapoint, vs).1 ==> EvaluateNumbers(c, ts, datapoint, vs).1[datapoint].delta == v
  {
    if vs != [] {
      var init := vs[..|vs| - 1];
      RepeatedReadingsNeverTrigger(c, ts, datapoint, v, init);
      var p := EvaluateNumbers(c, ts, datapoint, init);
      EvaluateNumberSpec(c, p.1, datapoint, v);
      assert vs[|vs| - 1] == v;
      if datapoint in p.1 {
        if v != 0.0 {
          assert DeviationOf(v, p.1[datapoint].delta) == Percent(0.0);
        } else {
          assert DeviationOf(v, p.1[datapoint].delta) == NotANumber;
        }
      }
    }
  }

  /** What the structured evaluate remembers: the last reading of each datapoint
      as a number, and the snapshot of its previous document. */
  datatype Observations = Observations(lastValue: map<string, real>, lastDocument: map<string, Value>)

  /** A snapshot is only ever taken of a datapoint already seen once. */
  predicate WellFormed(o: Observations)
  {
    o.lastDocument.Keys <= o.lastValue.Keys
  }

  /** How far a datapoint is through the three phases: 0 unseen, 1 seen once,
      2 snapshot held. */
  function Phase(o: Observations, datapoint: string): (n: nat)
    ensures n <= 2
  {
    if datapoint !in o.lastValue then 0
    else if datapoint !in o.lastDocument then 1
    else 2
  }

  /** The structured evaluate on the value of its two maps. The reading is
      always recorded, and the snapshot replaced once one exists. */
  function Observe(o: Observations, datapoint: string, value: Value): (r: (bool, Observations))
    requires value.Number?
    ensures r.1.lastValue == o.lastValue[datapoint := value.n]
    ensures r.1.lastDocument == if datapoint in o.lastValue then o.lastDocument[datapoint := value] else o.lastDocument
    ensures r.0 ==> datapoint in o.lastDocument
  {
    if datapoint !in o.lastValue then
      (false, o.(lastValue := o.lastValue[datapoint := value.n]))
    else if datapoint !in o.lastDocument then
      (false, Observations(o.lastValue[datapoint := value.n], o.lastDocument[datapoint := value]))
    else
      (true, Observations(o.lastValue[datapoint := value.n], o.lastDocument[datapoint := value]))
  }

  /** Each structured evaluate moves its datapoint one phase forward, up to the
      snapshot phase, leaves every other datapoint's phase alone, and triggers
      exactly in the snapshot phase: false on the first and second reading,
      true on every later one. */
  lemma ObservePhases(o: Observations, datapoint: string, value: Value)
    requires value.Number? && WellFormed(o)
    ensures WellFormed(Observe(o, datapoint, value).1)
    ensures Observe(o, datapoint, value).0 <==> Phase(o, datapoint) == 2
    ensures Phase(Observe(o, datapoint, value).1, datapoint) == Min(2, Phase(o, datapoint) + 1)
    ensures forall k :: k != datapoint ==> Phase(Observe(o, datapoint, value).1, k) == Phase(o, k)
  {
  }

  /** The loop of configure over the trackers: setDeltaType on each, so that
      every tracker takes the new type and factor and keeps its baseline and
      sample count. */
  method SetDeltaTypes(ds: map<string, Tracker>, kind: DeltaType, factor: int) returns (r: map<string, Tracker>)
    ensures r == Retyped(ds, kind, factor)
  {
    r := ds;
    var keys := ds.Keys;
    while keys != {}
      invariant keys <= ds.Keys && r.Keys == ds.Keys
      invariant forall k :: k in r ==> r[k] == if k in keys then ds[k] else ds[k].(kind := kind, factor := factor)
      decreases keys
    {
      var k :| k in keys;
      r := r[k := r[k].(kind := kind, factor := factor)];
      keys := keys - {k};
    }
    assert r == Retyped(ds, kind, factor);
  }

  /** DeltaRule together with the parts of its BuiltinRule base that the plugin
      uses: the trigger assets (the keys of the trigger map, in key order), the
      rule state and the evaluation timestamp. The trackers are held as values,
      one per datapoint; an update of a tracker in place is the effect its
      Deltas method is proved to have. */
  class DeltaRule {
    var deviation: int
    var direction: string
    var aveType: DeltaType
    var factor: int
    var deltas: map<string, Tracker>
    var lastValue: map<string, real>
    var lastDocument: map<string, Value>
    var triggers: seq<string>
    var state: bool
    var evalTimestamp: real

    function Cfg(): Config
      reads this
    {
      Config(deviation, direction, aveType, factor)
    }

    function Observed(): Observations
      reads this
    {
      Observations(lastValue, lastDocument)
    }

    /** Every tracker carries the rule's type and factor, and the snapshots
        are of datapoints that have a recorded reading. */
    ghost predicate Valid()
      reads this
    {
      TrackersAgree(Cfg(), deltas) && WellFormed(Observed())
    }

    /** A new rule: no trackers, nothing observed, no triggers. Its
        configuration fields are set by Configure. */
    constructor ()
      ensures Valid()
      ensures deltas == map[] && Observed() == Observations(map[], map[]) && triggers == []
    {
      deltas := map[];
      lastValue := map[];
      lastDocument := map[];
      triggers := [];
    }

    /** configure: replaces the triggers by the configured asset, sets the
        threshold, direction, type and factor, and pushes type and factor into
        every existing tracker without resetting it. */
    method Configure(asset: string, deviation: int, direction: string, deltaType: string, factor: int)
      requires Valid()
      modifies this
      ensures Valid()
      ensures triggers == [asset]
      ensures Cfg() == Config(deviation, direction, AveTypeOf(deltaType), factor)
      ensures deltas == Retyped(old(deltas), AveTypeOf(deltaType), factor)
      ensures Observed() == old(Observed()) && state == old(state) && evalTimestamp == old(evalTimestamp)
    {
      // removeTriggers, then addTrigger(asset): the trigger map holds only the asset
      triggers := [asset];
      this.deviation := deviation;
      this.direction := direction;
      aveType := AveTypeOf(deltaType);
      this.factor := factor;
      deltas := SetDeltaTypes(deltas, aveType, factor);
    }

    /** setState of the base rule: records the outcome of an evaluation. */
    method SetState(triggered: bool)
      requires Valid()
      modifies this
      ensures Valid() && state == triggered
      ensures deltas == old(deltas) && Cfg() == old(Cfg()) && triggers == old(triggers)
      ensures Observed() == old(Observed()) && evalTimestamp == old(evalTimestamp)
    {
      state := triggered;
    }

    /** setEvalTimestamp of the base rule. */
    method SetEvalTimestamp(timestamp: real)
      requires Valid()
      modifies this
      ensures Valid() && evalTimestamp == timestamp
      ensures deltas == old(deltas) && Cfg() == old(Cfg()) && triggers == old(triggers)
      ensures Observed() == old(Observed()) && state == old(state)
    {
      evalTimestamp := timestamp;
    }

    /** evaluate(asset, datapoint, double): the first reading of a datapoint
        creates its tracker and does not trigger; later readings compare the
        reading with the baseline held before adding it. The asset name is only
        logged. */
    method EvaluateReal(asset: string, datapoint: string, value: real) returns (r: bool)
      requires Valid() && AveragingSound(Cfg())
      modifies this
      ensures Valid()
      ensures (r, deltas) == EvaluateNumber(old(Cfg()), old(deltas), datapoint, value)
      ensures Cfg() == old(Cfg()) && Observed() == old(Observed()) && triggers == old(triggers)
      ensures state == old(state) && evalTimestamp == old(evalTimestamp)
    {
      EvaluateNumberSpec(Cfg(), deltas, datapoint, value);
      if datapoint !in deltas {
        // a new tracker, typed by the rule, holding the first reading
        deltas := deltas[datapoint := Seed(Cfg(), value)];
        return false;
      }
      var tracker := deltas[datapoint];
      var delta := tracker.delta;
      // addValue on the datapoint's tracker
      deltas := deltas[datapoint := Step(tracker, value)];
      r := Triggered(direction, DeviationOf(value, delta), deviation);
    }

    /** evaluate(asset, datapoint, long): the reading is converted and evaluated
        as a real. */
    method EvaluateLong(asset: string, datapoint: string, value: int) returns (r: bool)
      requires Valid() && AveragingSound(Cfg())
      modifies this
      ensures Valid()
      ensures (r, deltas) == EvaluateNumber(old(Cfg()), old(deltas), datapoint, value as real)
      ensures Cfg() == old(Cfg()) && Observed() == old(Observed()) && triggers == old(triggers)
      ensures state == old(state) && evalTimestamp == old(evalTimestamp)
    {
      r := EvaluateReal(asset, datapoint, value as real);
    }

    /** evaluate(asset, datapoint, value) for a document value: the first call
        records the reading, the second also snapshots it, every later call
        replaces the snapshot and triggers. Its comparisons with the previous
        reading and snapshot only log. */
    method EvaluateValue(asset: string, datapoint: string, value: Value) returns (r: bool)
      requires Valid() && value.Number?
      modifies this
      ensures Valid()
      ensures (r, Observed()) == Observe(old(Observed()), datapoint, value)
      ensures deltas == old(deltas) && Cfg() == old(Cfg()) && triggers == old(triggers)
      ensures state == old(state) && evalTimestamp == old(evalTimestamp)
    {
      if datapoint !in lastValue {
        lastValue := lastValue[datapoint := value.n];
        return false;
      }
      lastValue := lastValue[datapoint := value.n];
      if datapoint !in lastDocument {
        lastDocument := lastDocument[datapoint := value];
        return false;
      }
      lastDocument := lastDocument[datapoint := value];
      r := true;
    }
  }
}
