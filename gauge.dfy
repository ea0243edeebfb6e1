/**
 * nutalert/ui/components.py, create_dial_gauge: from a reading and the device's basic-alert
 * thresholds, the coloured bands of a dial gauge, the colour of its bar and the axis range.
 * The figure itself is not modelled; what is modelled is every number and colour it is given.
 */
module Gauge {
  import opened Common

  datatype Colour = Success | Warning | Error

  /** One coloured step of the dial, covering lo..hi. */
  datatype Band = Band(lo: real, hi: real, colour: Colour)

  /**
   * A threshold as read with `.get(key, default)`: absent (the default is used), a number,
   * or a value that Python arithmetic rejects (None, a string, ...), which raises TypeError
   * as soon as the gauge computes with it.
   */
  datatype Setting = Unset | Number(x: real) | NotNumber

  /** The thresholds create_dial_gauge reads from `basic_alerts`. */
  datatype Thresholds = Thresholds(loadMax: Setting, chargeMin: Setting, runtimeMin: Setting, voltageMin: Setting, voltageMax: Setting)

  /** What the figure is built from: the value shown, the axis range, the bar colour and the steps. */
  datatype Dial = Dial(value: real, axisMin: real, axisMax: real, bar: Colour, steps: seq<Band>)

  function Threshold(s: Setting, default: real): (r: Outcome<real>)
    ensures r.Raised? <==> s.NotNumber?
    ensures s.Unset? ==> r == Returned(default)
    ensures s.Number? ==> r == Returned(s.x)
  {
    match s
    case Unset => Returned(default)
    case Number(x) => Returned(x)
    case NotNumber => Raised("TypeError")
  }

  function Max(a: real, b: real): real {
    if a >= b then a else b
  }

  /* ---------- The four metrics ---------- */

  function LoadDial(value: real, rangeMin: real, rangeMax: real, maxLoad: real): Dial {
    var warn := maxLoad / 2.0;
    var steps := [Band(0.0, warn, Success), Band(warn, maxLoad, Warning), Band(maxLoad, 100.0, Error)];
    var bar := if value > maxLoad then Error else if value > warn then Warning else Success;
    Dial(value, rangeMin, rangeMax, bar, steps)
  }

  function ChargeDial(value: real, rangeMin: real, rangeMax: real, minCharge: real): Dial {
    var warnLow := minCharge - 5.0;
    var warnHigh := minCharge + 5.0;
    var steps := [Band(0.0, warnLow, Error), Band(warnLow, warnHigh, Warning), Band(warnHigh, 100.0, Success)];
    var bar := if value < warnLow then Error else if value < warnHigh then Warning else Success;
    Dial(value, rangeMin, rangeMax, bar, steps)
  }

  /** Runtime arrives in seconds and is shown in minutes, on an axis from 0 that grows with the reading. */
  function RuntimeDial(value: real, minRuntime: real): Dial {
    var minutes := value / 60.0;
    var axisMax := Max(30.0, minutes * 1.2);
    var warn := minRuntime + (axisMax - minRuntime) / 2.0;
    var steps := [Band(0.0, minRuntime, Error), Band(minRuntime, warn, Warning), Band(warn, axisMax, Success)];
    var bar := if minutes < minRuntime then Error else if minutes < warn then Warning else Success;
    Dial(minutes, 0.0, axisMax, bar, steps)
  }

  function VoltageDial(value: real, rangeMin: real, minVoltage: real, maxVoltage: real): Dial {
    var displayMax := maxVoltage + 20.0;
    var warnLow := minVoltage - 5.0;
    var warnHigh := maxVoltage + 5.0;
    var steps := [Band(0.0, warnLow, Error), Band(warnLow, minVoltage, Warning), Band(minVoltage, maxVoltage, Success),
                  Band(maxVoltage, warnHigh, Warning), Band(warnHigh, displayMax, Error)];
    var bar :=
      if minVoltage <= value <= maxVoltage then Success
      else if warnLow <= value < minVoltage || maxVoltage < value <= warnHigh then Warning
      else Error;
    Dial(value, rangeMin, displayMax, bar, steps)
  }

  /**
   * create_dial_gauge. A metric other than load, charge, runtime and voltage leaves `steps`
   * unassigned, so building the figure raises UnboundLocalError.
   */
  function DialGauge(value: real, metric: string, rangeMin: real, rangeMax: real, t: Thresholds): Outcome<Dial> {
    if metric == "load" then
      match Threshold(t.loadMax, 90.0)
      case Raised(e) => Raised(e)
      case Returned(m) => Returned(LoadDial(value, rangeMin, rangeMax, m))
    else if metric == "charge" then
      match Threshold(t.chargeMin, 20.0)
      case Raised(e) => Raised(e)
      case Returned(m) => Returned(ChargeDial(value, rangeMin, rangeMax, m))
    else if metric == "runtime" then
      match Threshold(t.runtimeMin, 5.0)
      case Raised(e) => Raised(e)
      case Returned(m) => Returned(RuntimeDial(value, m))
    else if metric == "voltage" then
      match Threshold(t.voltageMin, 110.0)
      case Raised(e) => Raised(e)
      case Returned(lo) =>
        match Threshold(t.voltageMax, 130.0)
        case Raised(e) => Raised(e)
        case Returned(hi) => Returned(VoltageDial(value, rangeMin, lo, hi))
    else Raised("UnboundLocalError")
  }

  /* ---------- Band structure ---------- */

  /** The steps start at 0 and each one begins where the previous one ends. */
  predicate Contiguous(steps: seq<Band>) {
    && |steps| > 0
    && steps[0].lo == 0.0
    && forall k :: 0 <= k < |steps| - 1 ==> steps[k].hi == steps[k + 1].lo
  }

  /** Every step runs upwards. */
  predicate Ordered(steps: seq<Band>) {
    forall k :: 0 <= k < |steps| ==> steps[k].lo <= steps[k].hi
  }

  function Top(steps: seq<Band>): real
    requires |steps| > 0
  {
    steps[|steps| - 1].hi
  }

  /** Some step whose range (ends included) holds v has colour c. */
  ghost predicate ShownBy(steps: seq<Band>, v: real, c: Colour) {
    exists k :: 0 <= k < |steps| && steps[k].lo <= v <= steps[k].hi && steps[k].colour == c
  }

  /* ---------- Properties ---------- */

  /** Whatever the metric and thresholds, the steps of a gauge are contiguous from 0. */
  lemma DialStepsContiguous(value: real, metric: string, rangeMin: real, rangeMax: real, t: Thresholds)
    ensures var r := DialGauge(value, metric, rangeMin, rangeMax, t);
      r.Returned? ==> Contiguous(r.value.steps)
  {
  }

  /** Only an unknown metric or a non-numeric threshold that the metric reads raises. */
  lemma DialRaises(value: real, metric: string, rangeMin: real, rangeMax: real, t: Thresholds)
    ensures DialGauge(value, metric, rangeMin, rangeMax, t).Raised? <==>
      || metric !in {"load", "charge", "runtime", "voltage"}
      || (metric == "load" && t.loadMax.NotNumber?)
      || (metric == "charge" && t.chargeMin.NotNumber?)
      || (metric == "runtime" && t.runtimeMin.NotNumber?)
      || (metric == "voltage" && (t.voltageMin.NotNumber? || t.voltageMax.NotNumber?))
  {
  }

  /**
   * Load: the threshold defaults to 90 and the warning point is half of it; the bar is red
   * above the threshold, amber above the warning point, green otherwise. The steps run
   * upwards exactly when the threshold lies in 0..100, and then a reading on the dial is
   * drawn in the colour of a step that holds it.
   */
  lemma LoadBands(value: real, rangeMin: real, rangeMax: real, t: Thresholds)
    requires !t.loadMax.NotNumber?
    ensures var r := DialGauge(value, "load", rangeMin, rangeMax, t);
      var m := if t.loadMax.Number? then t.loadMax.x else 90.0;
      && r.Returned?
      && r.value.steps[0].hi == m / 2.0 && r.value.steps[1].hi == m
      && (r.value.bar == Error <==> value > m)
      && (r.value.bar == Warning <==> m / 2.0 < value <= m)
      && (Ordered(r.value.steps) <==> 0.0 <= m <= 100.0)
      && (Ordered(r.value.steps) && 0.0 <= value <= Top(r.value.steps) ==> ShownBy(r.value.steps, value, r.value.bar))
  {
    var m := if t.loadMax.Number? then t.loadMax.x else 90.0;
    var d := LoadDial(value, rangeMin, rangeMax, m);
    if Ordered(d.steps) && 0.0 <= value <= Top(d.steps) {
      var k := if value > m then 2 else if value > m / 2.0 then 1 else 0;
      assert d.steps[k].lo <= value <= d.steps[k].hi && d.steps[k].colour == d.bar;
    }
  }

  /**
   * Charge: the threshold defaults to 20 with a warning zone 5 either side; red below the
   * zone, amber inside it. The steps run upwards exactly when the threshold lies in 5..95.
   */
  lemma ChargeBands(value: real, rangeMin: real, rangeMax: real, t: Thresholds)
    requires !t.chargeMin.NotNumber?
    ensures var r := DialGauge(value, "charge", rangeMin, rangeMax, t);
      var m := if t.chargeMin.Number? then t.chargeMin.x else 20.0;
      && r.Returned?
      && r.value.steps[0].hi == m - 5.0 && r.value.steps[1].hi == m + 5.0
      && (r.value.bar == Error <==> value < m - 5.0)
      && (r.value.bar == Warning <==> m - 5.0 <= value < m + 5.0)
      && (Ordered(r.value.steps) <==> 5.0 <= m <= 95.0)
      && (Ordered(r.value.steps) && 0.0 <= value <= Top(r.value.steps) ==> ShownBy(r.value.steps, value, r.value.bar))
  {
    var m := if t.chargeMin.Number? then t.chargeMin.x else 20.0;
    var d := ChargeDial(value, rangeMin, rangeMax, m);
    if Ordered(d.steps) && 0.0 <= value <= Top(d.steps) {
      var k := if value < m - 5.0 then 0 else if value < m + 5.0 then 1 else 2;
      assert d.steps[k].lo <= value <= d.steps[k].hi && d.steps[k].colour == d.bar;
    }
  }

  /**
   * Runtime: shown in minutes (seconds / 60) on an axis from 0 to the larger of 30 and 1.2
   * times the reading, with the warning point halfway between the threshold (default 5)
   * and the axis end; red below the threshold, amber from it up to the warning point. The
   * steps run upwards exactly when the threshold lies on the axis.
   */
  lemma RuntimeBands(value: real, rangeMin: real, rangeMax: real, t: Thresholds)
    requires !t.runtimeMin.NotNumber?
    ensures var r := DialGauge(value, "runtime", rangeMin, rangeMax, t);
      var m := if t.runtimeMin.Number? then t.runtimeMin.x else 5.0;
      var minutes := value / 60.0;
      && r.Returned?
      && r.value.value == minutes && r.value.axisMin == 0.0
      && r.value.axisMax >= 30.0 && r.value.axisMax >= minutes * 1.2
      && (r.value.axisMax == 30.0 || r.value.axisMax == minutes * 1.2)
      && r.value.steps[1].hi - m == r.value.axisMax - r.value.steps[1].hi
      && (r.value.bar == Error <==> minutes < m)
      && (r.value.bar == Warning <==> m <= minutes < r.value.steps[1].hi)
      && (Ordered(r.value.steps) <==> 0.0 <= m <= r.value.axisMax)
      && (Ordered(r.value.steps) && 0.0 <= minutes <= Top(r.value.steps) ==> ShownBy(r.value.steps, minutes, r.value.bar))
  {
    var m := if t.runtimeMin.Number? then t.runtimeMin.x else 5.0;
    var d := RuntimeDial(value, m);
    var minutes := value / 60.0;
    var warn := d.steps[1].hi;
    assert d.bar == Warning <==> m <= minutes < warn;
    if Ordered(d.steps) && 0.0 <= minutes <= Top(d.steps) {
      var k := if minutes < m then 0 else if minutes < warn then 1 else 2;
      assert d.steps[k].lo <= minutes <= d.steps[k].hi && d.steps[k].colour == d.bar;
    }
  }

  /**
   * Voltage: thresholds default to 110 and 130; green between them (ends included), amber
   * within 5 beyond either, red further out; the axis ends 20 above the upper threshold.
   * The steps run upwards exactly when 5 <= min <= max.
   */
  lemma VoltageBands(value: real, rangeMin: real, rangeMax: real, t: Thresholds)
    requires !t.voltageMin.NotNumber? && !t.voltageMax.NotNumber?
    ensures var r := DialGauge(value, "voltage", rangeMin, rangeMax, t);
      var lo := if t.voltageMin.Number? then t.voltageMin.x else 110.0;
      var hi := if t.voltageMax.Number? then t.voltageMax.x else 130.0;
      && r.Returned?
      && r.value.axisMax == hi + 20.0
      && (r.value.bar == Success <==> lo <= value <= hi)
      && (r.value.bar == Warning <==> (lo - 5.0 <= value < lo || hi < value <= hi + 5.0))
      && (Ordered(r.value.steps) <==> 5.0 <= lo <= hi)
      && (Ordered(r.value.steps) && 0.0 <= value <= Top(r.value.steps) ==> ShownBy(r.value.steps, value, r.value.bar))
  {
    var lo := if t.voltageMin.Number? then t.voltageMin.x else 110.0;
    var hi := if t.voltageMax.Number? then t.voltageMax.x else 130.0;
    var d := VoltageDial(value, rangeMin, lo, hi);
    if Ordered(d.steps) {
      assert d.steps[0].lo <= d.steps[0].hi && d.steps[2].lo <= d.steps[2].hi;
    }
    if Ordered(d.steps) && 0.0 <= value <= Top(d.steps) {
      if value < lo - 5.0 {
        assert d.bar == Error && d.steps[0].lo <= value <= d.steps[0].hi;
      } else if value < lo {
        assert d.bar == Warning && d.steps[1].lo <= value <= d.steps[1].hi;
      } else if value <= hi {
        assert d.bar == Success && d.steps[2].lo <= value <= d.steps[2].hi;
      } else if value <= hi + 5.0 {
        assert d.bar == Warning && d.steps[3].lo <= value <= d.steps[3].hi;
      } else {
        assert d.bar == Error && d.steps[4].lo <= value <= d.steps[4].hi;
      }
    }
  }
}
