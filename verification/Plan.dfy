/** The part of a test plan the boundary search reads, and the rates it allows. */
module Plan {

  datatype Option<+T> = None | Some(value: T)

  datatype Preset = Quick | Soak | Resilience | Capacity

  datatype Stream = Http | Mqtt

  datatype Plan = Plan(
    preset: Preset,
    initial: real,            // load.initialMessagesPerSecond
    httpShare: real,          // load.ingressShare
    mqttShare: real,
    perDeviceMax: real,       // load.perDeviceMaxPerSecond
    mqttConnections: int,
    deviceCount: int,         // fixtures.deviceCount
    rates: seq<real>,         // search.rates
    rampFactor: real,
    width: real,              // search.boundaryRelativeWidth
    repeats: int,
    maxSteps: int,
    measure: real,            // seconds
    candidateHold: real,
    budget: real              // budget.maximumMessagesPerSecond
  )

  const STREAMS: seq<Stream> := [Http, Mqtt]

  function Share(p: Plan, s: Stream): real {
    if s.Http? then p.httpShare else p.mqttShare
  }

  /** The population whose allowance limits a stream; each MQTT connection is a device that HTTP cannot use. */
  function StreamDevices(p: Plan, s: Stream): int {
    if s.Mqtt? then p.mqttConnections
    else if p.mqttShare > 0.0 then p.deviceCount - p.mqttConnections
    else p.deviceCount
  }

  /** What plan validation guarantees about these fields, the explicit rates apart. */
  predicate Sound(p: Plan) {
    && p.httpShare >= 0.0 && p.mqttShare >= 0.0 && p.perDeviceMax > 0.0 && p.budget > 0.0
    && p.deviceCount >= 1
    && (p.mqttShare > 0.0 ==> 1 <= p.mqttConnections <= p.deviceCount)
    && (p.httpShare > 0.0 && p.mqttShare > 0.0 ==> p.deviceCount - p.mqttConnections >= 1)
    && 1.0 < p.rampFactor <= 4.0 && 0.0 < p.width <= 1.0
    && 1 <= p.repeats <= 10 && 1 <= p.maxSteps <= 200
    && (forall r :: r in p.rates ==> r > 0.0)
    && (p.rates == [] ==> p.initial > 0.0)
  }

  function PlanRates(p: Plan): (rates: seq<real>)
    ensures rates != []
  {
    if p.rates != [] then p.rates else [p.initial]
  }

  /** A validated plan. */
  predicate Valid(p: Plan) {
    Sound(p) && forall r :: r in PlanRates(p) ==> r <= p.budget && !Violates(p, r)
  }

  // ---------------------------------------------------------------- the per-device allowance

  /** What each of `devices` devices sends when a stream has this share of the rate. */
  function Load(rate: real, share: real, devices: real): real
    requires devices > 0.0
  {
    rate * share / devices
  }

  /** The rate at which each device sends as much as it may. */
  function Ceiling(allowed: real, share: real, devices: real): real
    requires share > 0.0
  {
    allowed * devices / share
  }

  /** Some device of the stream would have to send faster than the platform lets it. */
  predicate Overloads(p: Plan, rate: real, s: Stream) {
    Share(p, s) != 0.0 && StreamDevices(p, s) > 0
    && Load(rate, Share(p, s), StreamDevices(p, s) as real) > p.perDeviceMax
  }

  predicate Violates(p: Plan, rate: real) { Overloads(p, rate, Http) || Overloads(p, rate, Mqtt) }

  method PerDeviceViolation(p: Plan, rate: real) returns (violates: bool)
    ensures violates == Violates(p, rate)
  {
    for i := 0 to |STREAMS|
      invariant forall k :: 0 <= k < i ==> !Overloads(p, rate, STREAMS[k])
    {
      var share := Share(p, STREAMS[i]);
      if share != 0.0 {
        var devices := StreamDevices(p, STREAMS[i]);
        if devices > 0 && Load(rate, share, devices as real) > p.perDeviceMax {
          assert Overloads(p, rate, STREAMS[i]);
          return true;
        }
      }
    }
    assert STREAMS[0] == Http && STREAMS[1] == Mqtt;
    return false;
  }

  /** The smaller of two limits; None is no limit. */
  function Tighter(limit: Option<real>, x: real): Option<real> {
    if limit.None? || x < limit.value then Some(x) else limit
  }

  function StreamLimit(p: Plan, limit: Option<real>, s: Stream): Option<real> {
    if Share(p, s) > 0.0 then
      Tighter(limit, Ceiling(p.perDeviceMax, Share(p, s), StreamDevices(p, s) as real))
    else limit
  }

  /** The highest total rate the allowance permits. */
  function DeviceLimit(p: Plan): Option<real> { StreamLimit(p, StreamLimit(p, None, Http), Mqtt) }

  method MaxRateForDevices(p: Plan) returns (limit: Option<real>)
    ensures limit == DeviceLimit(p)
  {
    limit := None;
    for i := 0 to |STREAMS|
      invariant limit == if i == 0 then None else if i == 1 then StreamLimit(p, None, Http) else DeviceLimit(p)
    {
      ghost var before := limit;
      var share := Share(p, STREAMS[i]);
      if share > 0.0 {
        limit := Tighter(limit, Ceiling(p.perDeviceMax, share, StreamDevices(p, STREAMS[i]) as real));
      }
      assert limit == StreamLimit(p, before, STREAMS[i]);
    }
  }

  lemma CrossMultiply(rate: real, share: real, devices: real, allowed: real)
    requires share > 0.0 && devices > 0.0
    ensures Load(rate, share, devices) > allowed <==> rate > Ceiling(allowed, share, devices)
  {
    var x, y := rate * share / devices, allowed * devices / share;
    assert x * devices == rate * share;
    assert y * share == allowed * devices;
    if x > allowed {
      assert rate * share > allowed * devices by { Scale(x, allowed, devices); }
      if rate <= y { Scale(y, rate, share); }
    }
    if rate > y {
      assert rate * share > allowed * devices by { Scale(rate, y, share); }
      if x <= allowed { Scale(allowed, x, devices); }
    }
  }

  lemma Scale(a: real, b: real, k: real)
    requires k > 0.0
    ensures a > b ==> a * k > b * k
    ensures a >= b ==> a * k >= b * k
  {
  }

  /** A rate respects every device's allowance exactly when it is within the device limit. */
  lemma LimitIsExact(p: Plan, rate: real)
    requires Sound(p)
    ensures Violates(p, rate) <==> DeviceLimit(p).Some? && rate > DeviceLimit(p).value
  {
    StreamLimitIsExact(p, None, Http, rate);
    StreamLimitIsExact(p, StreamLimit(p, None, Http), Mqtt, rate);
  }

  predicate Exceeds(rate: real, limit: Option<real>) { limit.Some? && rate > limit.value }

  lemma StreamLimitIsExact(p: Plan, limit: Option<real>, s: Stream, rate: real)
    requires Sound(p)
    ensures Exceeds(rate, StreamLimit(p, limit, s)) <==> Exceeds(rate, limit) || Overloads(p, rate, s)
  {
    hide Load, Ceiling;
    if Share(p, s) > 0.0 { CrossMultiply(rate, Share(p, s), StreamDevices(p, s) as real, p.perDeviceMax); }
  }

  /** The ceiling of the search: the message budget and the device limit. */
  function MaxRate(p: Plan): real {
    match DeviceLimit(p)
    case None => p.budget
    case Some(limit) => if limit < p.budget then limit else p.budget
  }

  lemma WithinMaxRate(p: Plan, rate: real)
    requires Sound(p)
    ensures rate <= MaxRate(p) <==> rate <= p.budget && !Violates(p, rate)
  {
    LimitIsExact(p, rate);
  }

  lemma CeilingPositive(allowed: real, share: real, devices: real)
    requires allowed > 0.0 && share > 0.0 && devices > 0.0
    ensures Ceiling(allowed, share, devices) > 0.0
  {
  }

  lemma MaxRatePositive(p: Plan)
    requires Sound(p)
    ensures MaxRate(p) > 0.0
  {
    StreamLimitPositive(p, None, Http);
    StreamLimitPositive(p, StreamLimit(p, None, Http), Mqtt);
  }

  lemma StreamLimitPositive(p: Plan, limit: Option<real>, s: Stream)
    requires Sound(p) && (limit.Some? ==> limit.value > 0.0)
    ensures StreamLimit(p, limit, s).Some? ==> StreamLimit(p, limit, s).value > 0.0
  {
    hide Ceiling;
    if Share(p, s) > 0.0 { CeilingPositive(p.perDeviceMax, Share(p, s), StreamDevices(p, s) as real); }
  }

  // ---------------------------------------------------------------- the grid of rates

  /** Rounding half away from zero. */
  function Round(x: real): real {
    if x >= 0.0 then (x + 0.5).Floor as real else -((-x + 0.5).Floor as real)
  }

  /** Whole numbers from 10 up, one decimal below, never under 0.1. */
  function RoundRate(r: real): real {
    if r >= 10.0 then Round(r)
    else if Round(r * 10.0) / 10.0 > 0.1 then Round(r * 10.0) / 10.0
    else 0.1
  }

  /** Half a grid step at r. */
  function HalfStep(r: real): real { if r >= 10.0 then 0.5 else 0.05 }

  lemma RoundRateIsNear(r: real)
    ensures RoundRate(r) >= 0.1
    ensures r >= 0.1 ==> r - HalfStep(r) < RoundRate(r) <= r + HalfStep(r)
  {
  }

  predicate OnGrid(r: real) {
    if r >= 10.0 then r.Floor as real == r else r >= 0.1 && (r * 10.0).Floor as real == r * 10.0
  }

  lemma RoundRateOnGrid(r: real)
    ensures OnGrid(RoundRate(r))
  {
  }
}
