/** Runs of the engine: the rest of the car sets the throttle, the nitrous
    boost and the out-of-gas flag, then calls Integrate; a run is a sequence
    of such ticks. The lemmas state what holds across any run. */
module EngineRun {
  import opened EngineInfo
  import opened Engine

  /** The inputs of one tick: what the car sets on the engine, and the
      arguments of the Integrate call that follows. */
  datatype Tick = Tick(
    throttle: real,
    nosBoostFactor: real,
    outOfGas: bool,
    clutchDrag: real,
    clutchAngVel: real,
    dt: real)

  /** The engine once the car has set its inputs for tick t. */
  function Controlled(e: EngineState, t: Tick): (c: EngineState)
    ensures c.info == e.info && c.shaft == e.shaft && c.nosMass == e.nosMass
    ensures c.revLimitExceeded == e.revLimitExceeded
  {
    e.(throttlePosition := t.throttle, nosBoostFactor := t.nosBoostFactor, outOfGas := t.outOfGas)
  }

  /** Tick t can be integrated from e. */
  predicate CanTick(e: EngineState, t: Tick)
  {
    CanIntegrate(Controlled(e, t), t.dt)
  }

  /** The engine after tick t. */
  function StepWith(e: EngineState, t: Tick): EngineState
    requires CanTick(e, t)
  {
    Step(Controlled(e, t), t.clutchDrag, t.clutchAngVel, t.dt)
  }

  /** Every tick of the run can be integrated from the state it meets. */
  predicate Runnable(e: EngineState, ticks: seq<Tick>)
    decreases |ticks|
  {
    |ticks| == 0 || (CanTick(e, ticks[0]) && Runnable(StepWith(e, ticks[0]), ticks[1..]))
  }

  /** The engine after all of `ticks`, in order. */
  function Run(e: EngineState, ticks: seq<Tick>): EngineState
    requires Runnable(e, ticks)
    decreases |ticks|
  {
    if |ticks| == 0 then e else Run(StepWith(e, ticks[0]), ticks[1..])
  }

  /** A run never changes the configuration or the shaft's inertia. */
  lemma {:induction false} RunKeepsConfiguration(e: EngineState, ticks: seq<Tick>)
    requires Runnable(e, ticks)
    ensures Run(e, ticks).info == e.info
    ensures Run(e, ticks).shaft.invInertia == e.shaft.invInertia
    decreases |ticks|
  {
    if |ticks| > 0 {
      RunKeepsConfiguration(StepWith(e, ticks[0]), ticks[1..]);
    }
  }

  /** After any tick the throttle is at least the idle throttle. */
  lemma {:induction false} RunThrottleAtLeastIdle(e: EngineState, ticks: seq<Tick>)
    requires Runnable(e, ticks) && |ticks| > 0
    ensures Run(e, ticks).throttlePosition >= e.info.idle
    decreases |ticks|
  {
    var n := StepWith(e, ticks[0]);
    if |ticks| > 1 {
      RunThrottleAtLeastIdle(n, ticks[1..]);
    }
  }

  /** Nitrous mass never goes below zero once it is non-negative, and never
      grows when the nitrous parameters are non-negative. */
  lemma {:induction false} NosMassNonIncreasing(e: EngineState, ticks: seq<Tick>)
    requires Runnable(e, ticks)
    ensures e.nosMass >= 0.0 ==> Run(e, ticks).nosMass >= 0.0
    ensures NosParamsNonNegative(e.info) ==> Run(e, ticks).nosMass <= e.nosMass
    decreases |ticks|
  {
    if |ticks| > 0 {
      var n := StepWith(e, ticks[0]);
      assert n.nosMass == NosMassAfter(e.info, e.nosMass, ticks[0].nosBoostFactor, ticks[0].dt);
      NosMassNonIncreasing(n, ticks[1..]);
    }
  }

  /** An empty (or negative) tank is never touched. */
  lemma {:induction false} EmptyTankUntouched(e: EngineState, ticks: seq<Tick>)
    requires Runnable(e, ticks)
    requires e.nosMass <= 0.0
    ensures Run(e, ticks).nosMass == e.nosMass
    decreases |ticks|
  {
    if |ticks| > 0 {
      EmptyTankUntouched(StepWith(e, ticks[0]), ticks[1..]);
    }
  }

  /** Without a positive boost request the tank is never touched. */
  lemma {:induction false} NoBoostTankUntouched(e: EngineState, ticks: seq<Tick>)
    requires Runnable(e, ticks)
    requires forall i :: 0 <= i < |ticks| ==> ticks[i].nosBoostFactor <= 0.0
    ensures Run(e, ticks).nosMass == e.nosMass
    decreases |ticks|
  {
    if |ticks| > 0 {
      NoBoostTankUntouched(StepWith(e, ticks[0]), ticks[1..]);
    }
  }

  /** From Init, the tank stays between empty and its configured mass. */
  lemma RunFromInitNosBounded(angVelocity: real, info: CarEngineInfo, ticks: seq<Tick>)
    requires info.inertia != 0.0 && info.nosMass >= 0.0 && NosParamsNonNegative(info)
    requires Runnable(InitState(angVelocity, info), ticks)
    ensures 0.0 <= Run(InitState(angVelocity, info), ticks).nosMass <= info.nosMass
  {
    NosMassNonIncreasing(InitState(angVelocity, info), ticks);
  }

  /** The rpm met at the start of every tick of the run is above `bound`. */
  predicate RpmAbove(e: EngineState, ticks: seq<Tick>, bound: real)
    requires Runnable(e, ticks)
    decreases |ticks|
  {
    |ticks| == 0 || (e.GetRPM() > bound && RpmAbove(StepWith(e, ticks[0]), ticks[1..], bound))
  }

  /** The rpm met at the start of every tick of the run is at most `bound`. */
  predicate RpmAtMost(e: EngineState, ticks: seq<Tick>, bound: real)
    requires Runnable(e, ticks)
    decreases |ticks|
  {
    |ticks| == 0 || (e.GetRPM() <= bound && RpmAtMost(StepWith(e, ticks[0]), ticks[1..], bound))
  }

  /** Once tripped, the limiter stays tripped for as long as the rpm stays
      above the limit less the hysteresis. */
  lemma {:induction false} LimiterStaysTripped(e: EngineState, ticks: seq<Tick>)
    requires Runnable(e, ticks)
    requires e.revLimitExceeded
    requires RpmAbove(e, ticks, e.info.rpmLimit - RevLimitHysteresis)
    ensures Run(e, ticks).revLimitExceeded
    decreases |ticks|
  {
    if |ticks| > 0 {
      var n := StepWith(e, ticks[0]);
      assert n.revLimitExceeded;
      LimiterStaysTripped(n, ticks[1..]);
    }
  }

  /** A clear limiter stays clear for as long as the rpm does not exceed
      the limit. */
  lemma {:induction false} LimiterStaysClear(e: EngineState, ticks: seq<Tick>)
    requires Runnable(e, ticks)
    requires !e.revLimitExceeded
    requires RpmAtMost(e, ticks, e.info.rpmLimit)
    ensures !Run(e, ticks).revLimitExceeded
    decreases |ticks|
  {
    if |ticks| > 0 {
      var n := StepWith(e, ticks[0]);
      assert !n.revLimitExceeded;
      LimiterStaysClear(n, ticks[1..]);
    }
  }
}
