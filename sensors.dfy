/**
 * modules/sensors.py: the sensor table, one pass of the monitoring loop and
 * the threshold policy that classifies each reading.
 *
 * GPIO.input, read_analog_sensor, trigger_alert and the clock are outside the
 * core. Their answers during one tick are the parameters `hw` and `clock`;
 * every call the class makes to them is appended to the ghost `trace`.
 */
module Sensors {
  import opened Wrappers
  import opened Traces
  import Dict
  import opened Gpio

  /** One row of the sensor table: the BCM pin and the kind ('digital' or anything else). */
  datatype SensorSpec = SensorSpec(pin: Pin, kind: string)

  /** The entry of alert_thresholds for one sensor; a missing 'min' or 'max' key is None. */
  datatype Threshold = Threshold(min: Option<real>, max: Option<real>)

  /** The two strings check_threshold returns: 'NORMAL' and 'ALERT'. */
  datatype Status = Normal | Alert

  /** The dict stored in sensor_data[name] by one tick. */
  datatype SensorRecord = SensorRecord(value: real, timestamp: string, status: Status)

  /** What get_sensor_status returns. */
  datatype StatusReport<H> = StatusReport(sensorData: map<string, SensorRecord>, systemStatus: H, lastUpdated: string)

  /** The hardware as it answers during one tick: GPIO.input and read_analog_sensor by pin. */
  datatype Hardware = Hardware(input: Pin -> Bit, readAnalog: Pin -> real)

  /** Calls into code outside the core. `Setup(p)` is GPIO.setup(p, GPIO.IN, pull_up_down=GPIO.PUD_UP). */
  datatype Event =
    | SetMode
    | Setup(pin: Pin)
    | GpioInput(pin: Pin)
    | ReadAnalog(pin: Pin)
    | TriggerAlert(sensor: string, value: real)

  /** The table initialize_sensors builds, in its insertion order. */
  const SensorTable: seq<(string, SensorSpec)> := [
    ("motion", SensorSpec(17, "digital")),
    ("door", SensorSpec(18, "digital")),
    ("window", SensorSpec(19, "digital")),
    ("temperature", SensorSpec(20, "analog")),
    ("humidity", SensorSpec(21, "analog")),
    ("smoke", SensorSpec(22, "digital")),
    ("water", SensorSpec(23, "digital"))
  ]

  /** The pins of a sensor table, in table order. */
  function Pins(sensors: seq<(string, SensorSpec)>): (ps: seq<Pin>)
    ensures |ps| == |sensors| && forall i :: 0 <= i < |sensors| ==> ps[i] == sensors[i].1.pin
  {
    seq(|sensors|, i requires 0 <= i < |sensors| => sensors[i].1.pin)
  }

  function SetupOf(p: Pin): Event { Setup(p) }

  /** The GPIO.setup calls of the loop over `sensors.values()`. */
  function SetupEvents(sensors: seq<(string, SensorSpec)>): seq<Event> {
    MapSeq(Pins(sensors), SetupOf)
  }

  /** ---- read_sensor ---- */

  /** The value read_sensor returns: GPIO.input for 'digital', read_analog_sensor otherwise. */
  function Reading(hw: Hardware, spec: SensorSpec): real {
    if spec.kind == "digital" then hw.input(spec.pin) as real else hw.readAnalog(spec.pin)
  }

  /** The hardware call read_sensor makes. */
  function ReadEvent(spec: SensorSpec): Event {
    if spec.kind == "digital" then GpioInput(spec.pin) else ReadAnalog(spec.pin)
  }

  /** ---- check_threshold ---- */

  /** `alert_thresholds.get(name, {})`: no entry means no bound on either side. */
  function ThresholdFor(thresholds: map<string, Threshold>, name: string): Threshold {
    if name in thresholds then thresholds[name] else Threshold(None, None)
  }

  /** The condition of check_threshold: above a present max or below a present min. */
  predicate OutOfRange(t: Threshold, v: real) {
    (t.max.Some? && v > t.max.value) || (t.min.Some? && v < t.min.value)
  }

  /** The status check_threshold returns. */
  function Classify(thresholds: map<string, Threshold>, name: string, value: real): Status {
    if OutOfRange(ThresholdFor(thresholds, name), value) then Alert else Normal
  }

  /** The trigger_alert call check_threshold makes, if any. */
  function CheckEvents(thresholds: map<string, Threshold>, name: string, value: real): seq<Event> {
    if Classify(thresholds, name, value) == Alert then [TriggerAlert(name, value)] else []
  }

  /** Reference definition of an acceptable reading: inside every bound that is present, ends included. */
  predicate WithinBounds(t: Threshold, v: real) {
    (t.min.None? || t.min.value <= v) && (t.max.None? || v <= t.max.value)
  }

  /** ---- one iteration of continuous_monitoring ---- */

  /** The record one tick stores for the sensor at position `i` (the i-th clock read of the tick). */
  function RecordAt(sensors: seq<(string, SensorSpec)>, thresholds: map<string, Threshold>,
                    hw: Hardware, clock: nat -> string, i: nat): SensorRecord
    requires i < |sensors|
  {
    var v := Reading(hw, sensors[i].1);
    SensorRecord(v, clock(i), Classify(thresholds, sensors[i].0, v))
  }

  /** The entries one tick writes into sensor_data, later writes overriding earlier ones. */
  function TickUpdates(sensors: seq<(string, SensorSpec)>, thresholds: map<string, Threshold>,
                       hw: Hardware, clock: nat -> string): map<string, SensorRecord>
  {
    if sensors == [] then map[]
    else
      var n := |sensors| - 1;
      TickUpdates(sensors[..n], thresholds, hw, clock)[sensors[n].0 := RecordAt(sensors, thresholds, hw, clock, n)]
  }

  /** The calls the tick makes for one sensor: the read, then trigger_alert when out of range. */
  function SensorEvents(thresholds: map<string, Threshold>, hw: Hardware, entry: (string, SensorSpec)): seq<Event> {
    [ReadEvent(entry.1)] + CheckEvents(thresholds, entry.0, Reading(hw, entry.1))
  }

  /** The calls one tick makes, sensor by sensor in table order. */
  function TickEvents(sensors: seq<(string, SensorSpec)>, thresholds: map<string, Threshold>, hw: Hardware): seq<Event>
  {
    if sensors == [] then []
    else
      var n := |sensors| - 1;
      TickEvents(sensors[..n], thresholds, hw) + SensorEvents(thresholds, hw, sensors[n])
  }

  /** Recognises the trigger_alert calls for sensor `name`. */
  function AlertFor(name: string): Event -> bool {
    (e: Event) => e.TriggerAlert? && e.sensor == name
  }

  class SensorSystem {
    var sensors: seq<(string, SensorSpec)>
    var sensorData: map<string, SensorRecord>
    var alertThresholds: map<string, Threshold>
    ghost var trace: seq<Event>

    /** The sensor table is a dict: each name once. */
    ghost predicate Valid()
      reads this
    {
      Dict.UniqueKeys(sensors)
    }

    /** __init__ without the monitoring thread; `thresholds` is what load_thresholds returns. */
    constructor (thresholds: map<string, Threshold>)
      ensures Valid()
      ensures sensors == SensorTable && sensorData == map[] && alertThresholds == thresholds
      ensures trace == [SetMode] + SetupEvents(SensorTable)
    {
      sensors := [];
      sensorData := map[];
      alertThresholds := thresholds;
      trace := [];
      new;
      var table := InitializeSensors();
      sensors := table;
      SensorTableShape();
    }

    method InitializeSensors() returns (table: seq<(string, SensorSpec)>)
      modifies this`trace
      ensures table == SensorTable
      ensures trace == old(trace) + [SetMode] + SetupEvents(SensorTable)
    {
      trace := trace + [SetMode];
      table := SensorTable;
      var i := 0;
      while i < |table|
        invariant 0 <= i <= |table|
        invariant trace == old(trace) + [SetMode] + SetupEvents(table[..i])
      {
        assert Pins(table[..i + 1])[..i] == Pins(table[..i]);
        trace := trace + [Setup(table[i].1.pin)];
        i := i + 1;
      }
      assert table[..i] == table;
    }

    method ReadSensor(hw: Hardware, spec: SensorSpec) returns (v: real)
      modifies this`trace
      ensures v == Reading(hw, spec)
      ensures trace == old(trace) + [ReadEvent(spec)]
    {
      if spec.kind == "digital" {
        trace := trace + [GpioInput(spec.pin)];
        v := hw.input(spec.pin) as real;
      } else {
        trace := trace + [ReadAnalog(spec.pin)];
        v := hw.readAnalog(spec.pin);
      }
    }

    method CheckThreshold(name: string, value: real) returns (status: Status)
      modifies this`trace
      ensures status == Classify(alertThresholds, name, value)
      ensures trace == old(trace) + CheckEvents(alertThresholds, name, value)
    {
      var threshold := ThresholdFor(alertThresholds, name);
      if OutOfRange(threshold, value) {
        trace := trace + [TriggerAlert(name, value)];
        return Alert;
      }
      return Normal;
    }

    /** One pass of the `for sensor_name, sensor in self.sensors.items()` loop. */
    method MonitorTick(hw: Hardware, clock: nat -> string)
      requires Valid()
      modifies this`sensorData, this`trace
      ensures Valid()
      ensures sensorData == old(sensorData) + TickUpdates(sensors, alertThresholds, hw, clock)
      ensures trace == old(trace) + TickEvents(sensors, alertThresholds, hw)
      ensures forall i :: 0 <= i < |sensors| ==>
                sensors[i].0 in sensorData && sensorData[sensors[i].0] == RecordAt(sensors, alertThresholds, hw, clock, i)
      ensures forall k :: k !in Dict.Keys(sensors) ==>
                (k in sensorData <==> k in old(sensorData)) && (k in sensorData ==> sensorData[k] == old(sensorData)[k])
    {
      var i := 0;
      while i < |sensors|
        invariant 0 <= i <= |sensors|
        invariant sensorData == old(sensorData) + TickUpdates(sensors[..i], alertThresholds, hw, clock)
        invariant trace == old(trace) + TickEvents(sensors[..i], alertThresholds, hw)
      {
        var name := sensors[i].0;
        var reading := ReadSensor(hw, sensors[i].1);
        var stamp := clock(i);
        var status := CheckThreshold(name, reading);
        sensorData := sensorData[name := SensorRecord(reading, stamp, status)];
        TickStep(sensors, alertThresholds, hw, clock, i);
        UnionUpdate(old(sensorData), TickUpdates(sensors[..i], alertThresholds, hw, clock), name, SensorRecord(reading, stamp, status));
        i := i + 1;
      }
      assert sensors[..i] == sensors;
      TickState(old(sensorData), sensors, alertThresholds, hw, clock);
    }

    function GetSensorStatus<H>(health: H, now: string): (r: StatusReport<H>)
      reads this
      ensures r.sensorData == sensorData && r.systemStatus == health && r.lastUpdated == now
    {
      StatusReport(sensorData, health, now)
    }
  }

  /** ---- lemmas ---- */

  lemma UnionUpdate<K, V>(m: map<K, V>, u: map<K, V>, k: K, v: V)
    ensures m + u[k := v] == (m + u)[k := v]
  {
  }

  /** check_threshold returns NORMAL exactly for readings inside every present bound, ends included. */
  lemma ClassifyNormalIffWithinBounds(thresholds: map<string, Threshold>, name: string, value: real)
    ensures Classify(thresholds, name, value) == Normal <==> WithinBounds(ThresholdFor(thresholds, name), value)
    ensures Classify(thresholds, name, value) == Alert <==> !WithinBounds(ThresholdFor(thresholds, name), value)
  {
  }

  /** A sensor without a threshold entry, or with an entry with neither key, is always NORMAL. */
  lemma UnboundedSensorIsNormal(thresholds: map<string, Threshold>, name: string, value: real)
    requires name !in thresholds || thresholds[name] == Threshold(None, None)
    ensures Classify(thresholds, name, value) == Normal
    ensures CheckEvents(thresholds, name, value) == []
  {
  }

  /**
   * A reading equal to one bound is NORMAL as long as the other bound, if present, admits it:
   * the comparisons are strict, so the bounds themselves are in range.
   */
  lemma BoundsAreInclusive(thresholds: map<string, Threshold>, name: string, value: real)
    ensures var t := ThresholdFor(thresholds, name);
            t.max == Some(value) && (t.min.None? || t.min.value <= value) ==> Classify(thresholds, name, value) == Normal
    ensures var t := ThresholdFor(thresholds, name);
            t.min == Some(value) && (t.max.None? || value <= t.max.value) ==> Classify(thresholds, name, value) == Normal
  {
  }

  /** trigger_alert(name, value) is called once exactly when the result is ALERT, never otherwise. */
  lemma TriggerExactlyOnAlert(thresholds: map<string, Threshold>, name: string, value: real)
    ensures Classify(thresholds, name, value) == Alert ==> CheckEvents(thresholds, name, value) == [TriggerAlert(name, value)]
    ensures Classify(thresholds, name, value) == Normal ==> CheckEvents(thresholds, name, value) == []
  {
  }

  /** read_sensor uses GPIO.input on 'digital' sensors and read_analog_sensor on every other kind. */
  lemma ReadSensorDispatch(hw: Hardware, spec: SensorSpec)
    ensures spec.kind == "digital" ==> Reading(hw, spec) == hw.input(spec.pin) as real && ReadEvent(spec) == GpioInput(spec.pin)
    ensures spec.kind != "digital" ==> Reading(hw, spec) == hw.readAnalog(spec.pin) && ReadEvent(spec) == ReadAnalog(spec.pin)
  {
  }

  /** The table: seven sensors on distinct pins 17..23; temperature and humidity analog, the rest digital. */
  lemma SensorTableShape()
    ensures |SensorTable| == 7 && Dict.UniqueKeys(SensorTable) && Distinct(Pins(SensorTable))
    ensures forall i :: 0 <= i < 7 ==> SensorTable[i].1.pin == 17 + i
    ensures forall i :: 0 <= i < 7 ==>
              SensorTable[i].1.kind == (if SensorTable[i].0 in {"temperature", "humidity"} then "analog" else "digital")
  {
  }

  /** initialize_sensors calls GPIO.setup exactly once on each pin of the table. */
  lemma SetupOncePerSensor(i: nat)
    requires i < |SensorTable|
    ensures |SetupEvents(SensorTable)| == 7
    ensures multiset(SetupEvents(SensorTable))[Setup(SensorTable[i].1.pin)] == 1
  {
    SensorTableShape();
    MapSeqOnce(Pins(SensorTable), SetupOf, i);
  }

  /** After a tick, every sensor of the table has the record of its reading; no other key is written. */
  lemma {:induction false} TickUpdatesSpec(sensors: seq<(string, SensorSpec)>, thresholds: map<string, Threshold>,
                                           hw: Hardware, clock: nat -> string)
    requires Dict.UniqueKeys(sensors)
    ensures forall k :: k in TickUpdates(sensors, thresholds, hw, clock) <==> k in Dict.Keys(sensors)
    ensures forall i :: 0 <= i < |sensors| ==>
              TickUpdates(sensors, thresholds, hw, clock)[sensors[i].0] == RecordAt(sensors, thresholds, hw, clock, i)
  {
    if sensors != [] {
      var n := |sensors| - 1;
      var front := sensors[..n];
      var keys := Dict.Keys(sensors);
      assert Dict.Keys(front) == keys[..n];
      assert keys == Dict.Keys(front) + [sensors[n].0];
      TickUpdatesSpec(front, thresholds, hw, clock);
      var u := TickUpdates(front, thresholds, hw, clock);
      assert TickUpdates(sensors, thresholds, hw, clock) == u[sensors[n].0 := RecordAt(sensors, thresholds, hw, clock, n)];
      forall i | 0 <= i < n
        ensures TickUpdates(sensors, thresholds, hw, clock)[sensors[i].0] == RecordAt(sensors, thresholds, hw, clock, i)
      {
        assert keys[i] != keys[n];
        assert front[i] == sensors[i];
        assert u[front[i].0] == RecordAt(front, thresholds, hw, clock, i);
      }
    }
  }

  /** The tick over the first i + 1 sensors is the tick over the first i followed by sensor i. */
  lemma TickStep(sensors: seq<(string, SensorSpec)>, thresholds: map<string, Threshold>,
                 hw: Hardware, clock: nat -> string, i: nat)
    requires i < |sensors|
    ensures TickUpdates(sensors[..i + 1], thresholds, hw, clock)
         == TickUpdates(sensors[..i], thresholds, hw, clock)[sensors[i].0 := RecordAt(sensors, thresholds, hw, clock, i)]
    ensures TickEvents(sensors[..i + 1], thresholds, hw)
         == TickEvents(sensors[..i], thresholds, hw) + SensorEvents(thresholds, hw, sensors[i])
  {
    var p := sensors[..i + 1];
    assert p[..i] == sensors[..i];
    assert RecordAt(p, thresholds, hw, clock, i) == RecordAt(sensors, thresholds, hw, clock, i);
  }

  /** What a tick leaves in sensor_data, starting from any previous contents `before`. */
  lemma TickState(before: map<string, SensorRecord>, sensors: seq<(string, SensorSpec)>,
                  thresholds: map<string, Threshold>, hw: Hardware, clock: nat -> string)
    requires Dict.UniqueKeys(sensors)
    ensures var after := before + TickUpdates(sensors, thresholds, hw, clock);
            && (forall i :: 0 <= i < |sensors| ==>
                  sensors[i].0 in after && after[sensors[i].0] == RecordAt(sensors, thresholds, hw, clock, i))
            && (forall k :: k !in Dict.Keys(sensors) ==>
                  (k in after <==> k in before) && (k in after ==> after[k] == before[k]))
  {
    TickUpdatesSpec(sensors, thresholds, hw, clock);
    assert forall i :: 0 <= i < |sensors| ==> sensors[i].0 in Dict.Keys(sensors) by {
      forall i | 0 <= i < |sensors| ensures sensors[i].0 in Dict.Keys(sensors) {
        assert Dict.Keys(sensors)[i] == sensors[i].0;
      }
    }
  }

  /** The calls the tick makes for one sensor include one trigger_alert for it exactly when it is out of range. */
  lemma SensorAlertCount(thresholds: map<string, Threshold>, hw: Hardware, entry: (string, SensorSpec), name: string)
    ensures Count(SensorEvents(thresholds, hw, entry), AlertFor(name))
         == if entry.0 == name && Classify(thresholds, entry.0, Reading(hw, entry.1)) == Alert then 1 else 0
  {
    var s := SensorEvents(thresholds, hw, entry);
    var v := Reading(hw, entry.1);
    assert !AlertFor(name)(ReadEvent(entry.1));
    if Classify(thresholds, entry.0, v) == Alert {
      assert s == [ReadEvent(entry.1), TriggerAlert(entry.0, v)];
      assert s[..1] == [ReadEvent(entry.1)];
      assert s[..1][..0] == [];
    } else {
      assert s == [ReadEvent(entry.1)];
      assert s[..0] == [];
    }
  }

  /** A name that is not in the table gets no trigger_alert call in a tick. */
  lemma {:induction false} NoAlertsForOtherNames(sensors: seq<(string, SensorSpec)>, thresholds: map<string, Threshold>,
                                                 hw: Hardware, name: string)
    requires forall i :: 0 <= i < |sensors| ==> sensors[i].0 != name
    ensures Count(TickEvents(sensors, thresholds, hw), AlertFor(name)) == 0
  {
    if sensors != [] {
      var n := |sensors| - 1;
      NoAlertsForOtherNames(sensors[..n], thresholds, hw, name);
      CountAppend(TickEvents(sensors[..n], thresholds, hw), SensorEvents(thresholds, hw, sensors[n]), AlertFor(name));
      SensorAlertCount(thresholds, hw, sensors[n], name);
    }
  }

  /** In one tick each sensor of the table gets one trigger_alert call if it reads out of range, else none. */
  lemma {:induction false} TickAlertCount(sensors: seq<(string, SensorSpec)>, thresholds: map<string, Threshold>,
                                          hw: Hardware, i: nat)
    requires Dict.UniqueKeys(sensors) && i < |sensors|
    ensures Count(TickEvents(sensors, thresholds, hw), AlertFor(sensors[i].0))
         == if Classify(thresholds, sensors[i].0, Reading(hw, sensors[i].1)) == Alert then 1 else 0
  {
    var n := |sensors| - 1;
    var front := sensors[..n];
    var name := sensors[i].0;
    var keys := Dict.Keys(sensors);
    assert Dict.Keys(front) == keys[..n];
    CountAppend(TickEvents(front, thresholds, hw), SensorEvents(thresholds, hw, sensors[n]), AlertFor(name));
    SensorAlertCount(thresholds, hw, sensors[n], name);
    if i == n {
      forall j | 0 <= j < n ensures front[j].0 != name {
        assert keys[j] != keys[n];
      }
      NoAlertsForOtherNames(front, thresholds, hw, name);
    } else {
      assert keys[i] != keys[n];
      assert front[i] == sensors[i];
      TickAlertCount(front, thresholds, hw, i);
    }
  }

  /** Every trigger_alert call of a tick names a sensor of the table and carries its out-of-range reading. */
  lemma {:induction false} TickAlertsAreOutOfRange(sensors: seq<(string, SensorSpec)>, thresholds: map<string, Threshold>,
                                                   hw: Hardware, e: Event)
    requires e in TickEvents(sensors, thresholds, hw) && e.TriggerAlert?
    ensures exists i :: 0 <= i < |sensors| && sensors[i].0 == e.sensor && Reading(hw, sensors[i].1) == e.value
                        && Classify(thresholds, e.sensor, e.value) == Alert
  {
    var n := |sensors| - 1;
    var front := sensors[..n];
    if e in TickEvents(front, thresholds, hw) {
      TickAlertsAreOutOfRange(front, thresholds, hw, e);
      var i :| 0 <= i < |front| && front[i].0 == e.sensor && Reading(hw, front[i].1) == e.value
               && Classify(thresholds, e.sensor, e.value) == Alert;
      assert sensors[i] == front[i];
    } else {
      assert sensors[n].0 == e.sensor;
    }
  }

  /**
   * Alerting is level-triggered: no previous status is consulted, so a sensor that reads
   * out of range on two ticks in a row gets a trigger_alert call on each of them.
   */
  lemma LevelTriggered(sensors: seq<(string, SensorSpec)>, thresholds: map<string, Threshold>,
                       hw1: Hardware, hw2: Hardware, i: nat)
    requires Dict.UniqueKeys(sensors) && i < |sensors|
    requires Classify(thresholds, sensors[i].0, Reading(hw1, sensors[i].1)) == Alert
    requires Classify(thresholds, sensors[i].0, Reading(hw2, sensors[i].1)) == Alert
    ensures Count(TickEvents(sensors, thresholds, hw1) + TickEvents(sensors, thresholds, hw2), AlertFor(sensors[i].0)) == 2
  {
    CountAppend(TickEvents(sensors, thresholds, hw1), TickEvents(sensors, thresholds, hw2), AlertFor(sensors[i].0));
    TickAlertCount(sensors, thresholds, hw1, i);
    TickAlertCount(sensors, thresholds, hw2, i);
  }
}
