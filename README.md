# VDrift engine model in Dafny

This project models the engine of the VDrift car simulation
(`src/physics/carengine.cpp`). It has two parts.

**`CarEngineInfo`** is the engine's configuration. The model writes it as a value (`EngineInfo.CarEngineInfo`), because `CarEngine::Init` copies it.
- `Load` reads an engine section of the car file. The section is modelled as a map from key to the list of numbers written for it.
- The loader reads torque-curve samples under the zero-padded keys `torque-curve-00`, `torque-curve-01`, … and stops at the first missing key.
- `SetTorqueCurve` builds the interpolation table from those samples and then searches upward for the idle throttle.
- `GetTorque` and `GetFrictionTorque` give the combustion torque and the friction torque at a throttle and rpm.

**`CarEngine`** is the engine's per-tick state machine. It is a class (`Engine.CarEngine`) whose methods update its fields in place.
- `Init` clears the engine's state.
- `Integrate` advances the engine by one time step against the clutch:
  - clutch clamp;
  - stall check;
  - idle floor on the throttle;
  - rev limiter with 100 rpm of hysteresis;
  - nitrous burn;
  - fuel and limiter cut-off;
  - stalled friction;
  - shaft impulse.
- `Serialize` persists five fields.

Each method is proved against a pure function on the engine's state taken as a value (`Engine.EngineState`):
- `Integrate` agrees with `Engine.Step`.
- `Init` agrees with `Engine.InitState`.
- The reading half of `Serialize` agrees with `Engine.WithSavedFields`.

`EngineRun` strings ticks together. Before each tick the rest of the car sets the throttle, the nitrous boost request and the out-of-gas flag. The lemmas state what holds across any run: the nitrous tank and the rev limiter's hysteresis.

Numbers are Dafny `real`, so rounding is not modelled.

Some facts the model makes precise:
- `GetFrictionTorque` is odd in rpm only away from 0. At rpm 0 the sign convention counts the shaft as turning forward.
- `Init` leaves the shaft's angular velocity as it was.
- `Serialize` does not save the remaining nitrous mass. `Engine.SaveOmitsNosMass` exhibits two engines with the same saved fields and configuration whose next tick differs.
- The `redline` argument of `SetTorqueCurve` is unused.
- A non-negative nitrous tank never goes below zero, because each nitrous tick floors it at 0. While nitrous is injected, a tick leaves the tank no fuller exactly when nos-ratio · nos-boost · fuel rate ≥ 0 (`Engine.NosDrainsIff`); `Engine.NosParamsNonNegative` is one way to guarantee that. A single negative factor, with the others positive, makes each nitrous tick grow the tank. A negative `nos-mass` is never touched.
- The default `fuel_rate` of 4E7 differs from the 1/(0.35 · 4.5E7) that `Load` computes when the fuel keys are absent.

## Model

| member | source | states |
|---|---|---|
| PTreeConfig.ReadOr | src/physics/carengine.cpp:62-71 | an optional key that is absent leaves the default or previous value |
| PTreeConfig.TorqueKeyInjective | src/physics/carengine.cpp:82-88 | different sample numbers give different zero-padded `torque-curve-NN` keys, so the loop never reads one key twice and ends |
| PTreeConfig.TorqueKey | src/physics/carengine.cpp:82-88 | the key of sample n is `torque-curve-` followed by n in decimal, zero-filled to width 2; its properties are TorqueKeyInjective and PadLeftShape |
| EngineInfo.DefaultInfo | src/physics/carengine.cpp:24-41 | the constructor's defaults have stall rpm < start rpm < redline < rpm limit, an empty nitrous tank and an empty torque table |
| EngineInfo.HeywoodFriction | src/physics/carengine.cpp:56-59 | the friction coefficients are non-negative for a non-negative displacement, and all zero for zero displacement |
| EngineInfo.FuelRate | src/physics/carengine.cpp:61-66 | the fuel rate is the reciprocal of efficiency times heating value, and positive when both are |
| EngineInfo.TorqueSamples | src/physics/carengine.cpp:73-89 | the samples from key 00 upward up to the first missing key, each the first two numbers of its key; characterised by TorqueSamplesConsecutive and TorqueSamplesUnique |
| EngineInfo.ReadTorqueSamples | src/physics/carengine.cpp:73-89 | the sample loop returns exactly TorqueSamples: samples from key 00 upward, up to the first missing key |
| EngineInfo.TorqueSamplesConsecutive | src/physics/carengine.cpp:74-89 | sample k is the one stored under `torque-curve-k` for every k read, and the key after the last sample is missing |
| EngineInfo.TorqueSamplesUnique | src/physics/carengine.cpp:74-89 | any sequence read from consecutive keys and stopped at the first missing key equals TorqueSamples |
| EngineInfo.LoadRequired | src/physics/carengine.cpp:45-54 | succeeds iff all nine required keys are present; each required field (and the position list) holds its key's value exactly when that key and every key before it are present, and its old value otherwise; the curve, idle, position, friction, fuel rate and nitrous fields are untouched |
| EngineInfo.RequiredValue | src/physics/carengine.cpp:46-54 | a required field whose key is missing keeps its value; otherwise it holds its key's value iff every earlier key is present |
| EngineInfo.RequiredKeysInOrder | src/physics/carengine.cpp:46-54 | all required keys present is the same as Load getting past every one of them in order |
| EngineInfo.Load | src/physics/carengine.cpp:43-99 | succeeds iff every required key is present and at least two samples are read. On every path each required field is as far as the reads got (RequiredValue); once the required keys are all present, friction follows Heywood, the fuel rate is 1/(efficiency · heating value) and each nitrous field is read or left as it was, even when too few samples then make Load fail; before that they are untouched. On success the position comes from the section, the table is the padded curve of the samples and idle is the idle-search result; on failure the curve, idle and position are untouched |
| EngineInfo.PaddedCurve | src/physics/carengine.cpp:109-119 | the table is (0,0) only when the first sample is not at rpm 0, then every sample in order, then (last rpm + 10000, 0); so it starts at rpm 0 and ends at torque 0 |
| EngineInfo.PaddedCurveIncreasing | src/physics/carengine.cpp:109-119 | samples in strictly increasing, non-negative rpm give a table in strictly increasing rpm |
| EngineInfo.PaddingKeepsOrder | src/physics/carengine.cpp:109-119 | a point below the first sample in front and one above the last sample behind keep the table strictly increasing |
| EngineInfo.SetTorqueCurve | src/physics/carengine.cpp:101-130 | the new record has the padded table and otherwise only a new idle, and that idle is the search's result: on the grid k/100 in [0, 1], idling if below 1, and no smaller grid throttle idles |
| EngineInfo.IdleThrottleUnique | src/physics/carengine.cpp:121-129 | the idle search's result is uniquely determined by the table, friction and start rpm |
| EngineInfo.CarEngineInfo.GetTorque | src/physics/carengine.cpp:132-136 | combustion torque: 0 below 1 rpm, else the table's value at the rpm times the throttle; its properties are TorqueScalesWithThrottle |
| EngineInfo.CarEngineInfo.GetFrictionTorque | src/physics/carengine.cpp:138-144 | friction torque: c0 + c1·|rpm| + c2·rpm² with the sign opposite to rpm's (rpm 0 counts as forward), times 1 − throttle; its properties are FrictionOdd, FrictionAtRest, FrictionVanishesAtFullThrottle and FrictionOpposesRotation |
| EngineInfo.TorqueScalesWithThrottle | src/physics/carengine.cpp:132-136 | torque is 0 below 1 rpm and at throttle 0, and linear in the throttle |
| EngineInfo.FrictionOdd | src/physics/carengine.cpp:138-144 | reversing a non-zero rpm reverses the friction torque |
| EngineInfo.FrictionAtRest | src/physics/carengine.cpp:138-144 | at rpm 0 friction is the constant term acting backward, scaled by 1 − throttle |
| EngineInfo.FrictionVanishesAtFullThrottle | src/physics/carengine.cpp:138-144 | friction is 0 at throttle 1 |
| EngineInfo.FrictionOpposesRotation | src/physics/carengine.cpp:138-144 | with non-negative coefficients and throttle ≤ 1, friction never has the sign of the rpm (rpm 0 counts as forward) |
| EngineInfo.LoadedFrictionOpposesRotation | src/physics/carengine.cpp:56-59 | with Heywood coefficients from a non-negative displacement, friction opposes rotation |
| Engine.ClampClutchTorque | src/physics/carengine.cpp:171-178 | a positive drag becomes min(drag, bound), a negative drag becomes max(drag, bound), and a zero drag is kept |
| Engine.ClutchImpulseWithinMomentum | src/physics/carengine.cpp:173-178 | the clamped clutch impulse over dt never exceeds the shafts' relative momentum in the direction of the drag |
| Engine.RevLimiter | src/physics/carengine.cpp:186-190 | an untripped limiter trips iff rpm > limit; a tripped one stays tripped iff rpm > limit − 100; above the limit it is always tripped and at or below limit − 100 always clear |
| Engine.NosMassAfter | src/physics/carengine.cpp:194-203 | the tank is unchanged unless nitrous is active; when active it never goes below 0, and it never grows when the nitrous parameters are non-negative |
| Engine.NosDrainsIff | src/physics/carengine.cpp:195-203 | while nitrous is injected over a positive dt, the tick leaves the tank no fuller exactly when nos-ratio · nos-boost · fuel rate is non-negative, and grows it otherwise |
| Engine.InitState | src/physics/carengine.cpp:151-165 | the state Init leaves, as a value; CarEngine.Init is proved to produce it and RunFromInitNosBounded starts from it |
| Engine.IdleFloor | src/physics/carengine.cpp:182-184 | the throttle after the floor is at least idle and at least the old throttle, and is one of the two |
| Engine.TickControls | src/physics/carengine.cpp:169-190 | the control part of a tick as a value: clutch clamp, stall flag, idle floor and limiter flag; UpdateControls is proved to compute it and StepControls states its effect |
| Engine.CombustionTorque | src/physics/carengine.cpp:192-206 | curve torque plus nitrous boost over shaft speed while nitrous is injected, 0 under a cut-off; StepCombustion states it on a tick |
| Engine.FrictionTorque | src/physics/carengine.cpp:208-212 | GetFrictionTorque, doubled while stalled; StepCombustion states it on a tick |
| Engine.TickCombustion | src/physics/carengine.cpp:192-212 | the combustion part of a tick as a value; UpdateCombustion is proved to compute it and StepCombustion states its effect |
| Engine.NetImpulse | src/physics/carengine.cpp:214-215 | the shaft after the impulse of combustion + friction + clutch torque over dt; StepShaft states it on a tick |
| Engine.Step | src/physics/carengine.cpp:167-218 | one Integrate call on the state as a value; CarEngine.Integrate is proved to compute it, and StepControls, StepCombustion, StepShaft and StepReadsInputs state what it does |
| Engine.StepControls | src/physics/carengine.cpp:169-190 | after a tick: the clutch torque is the drag clamped against the relative momentum over dt; stalled iff the pre-step rpm < stall rpm; the throttle is the old one raised to at least idle; the limiter flag follows the hysteresis rule on the pre-step rpm |
| Engine.StepCombustion | src/physics/carengine.cpp:192-212 | after a tick: combustion torque is 0 whenever out of gas, rev-limited or stalled, and otherwise the curve torque at the new throttle plus the nitrous boost divided by the shaft speed while nitrous is injected; friction is exactly twice GetFrictionTorque when stalled and GetFrictionTorque otherwise; the tank follows NosMassAfter |
| Engine.StepShaft | src/physics/carengine.cpp:214-217 | a tick keeps the configuration, the out-of-gas flag, the boost request and the inertia, and applies to the shaft the impulse over dt of the new combustion + friction + clutch torque |
| Engine.CarEngine.constructor | src/physics/carengine.cpp:146-149 | a new engine holds the default configuration, initialised |
| Engine.CarEngine.Init | src/physics/carengine.cpp:151-165 | takes the configuration, sets the inverse inertia, zeroes the three torques, throttle and boost, fills the tank from the configuration, clears the three flags, and keeps the shaft's angular velocity |
| Engine.CarEngine.Integrate | src/physics/carengine.cpp:167-218 | the new state is Step of the old one, so StepControls, StepCombustion and StepShaft hold of it; the returned clutch torque is the stored one |
| Engine.CarEngine.UpdateControls | src/physics/carengine.cpp:169-190 | the first lines of Integrate change in place only the clutch torque, stall flag, throttle and limiter flag, to the values TickControls gives |
| Engine.CarEngine.UpdateCombustion | src/physics/carengine.cpp:192-212 | the lines between the limiter and the shaft update change in place only the combustion torque, nitrous mass and friction torque, to the values TickCombustion gives |
| Engine.CarEngine.UpdateDriveTorque | src/physics/carengine.cpp:192-206 | sets the combustion torque to the cut-off, boosted curve torque and the tank to NosMassAfter, and changes nothing else |
| Engine.CarEngine.UpdateFriction | src/physics/carengine.cpp:208-212 | sets the friction torque, doubled while stalled, and changes nothing else |
| Engine.CarEngine.ApplyNetTorque | src/physics/carengine.cpp:214-215 | applies the net torque's impulse over dt to the shaft and changes nothing else |
| Engine.SavedFields | src/physics/carengine.cpp:233-241 | the five fields Serialize writes: angular velocity, throttle, clutch torque, out-of-gas and limiter flags; RestoreWhatWasSaved and WithSavedFields are its inverse and SaveOmitsNosMass shows what it misses |
| Engine.WithSavedFields | src/physics/carengine.cpp:233-241 | reading a save back sets exactly the five persisted fields and keeps all others |
| Engine.RestoreWhatWasSaved | src/physics/carengine.cpp:233-241 | reading back what was just written changes nothing |
| Engine.CarEngine.Restore | src/physics/carengine.cpp:233-241 | deserialising into the object changes exactly the five persisted fields |
| Engine.StepReadsInputs | src/physics/carengine.cpp:169-218 | a tick does not read the torques or the stall flag the previous tick left |
| Engine.ResumeFromSave | src/physics/carengine.cpp:233-241 | an engine restored from a save steps exactly like the original, given the same configuration, inertia, boost request and nitrous mass |
| Engine.SaveOmitsNosMass | src/physics/carengine.cpp:233-241 | the five saved fields do not determine the next tick: the remaining nitrous mass changes the shaft speed |
| EngineRun.RunKeepsConfiguration | src/physics/carengine.cpp:167-218 | no run of ticks changes the configuration or the shaft's inertia |
| EngineRun.RunThrottleAtLeastIdle | src/physics/carengine.cpp:182-184 | after any tick the throttle is at least the idle throttle |
| EngineRun.NosMassNonIncreasing | src/physics/carengine.cpp:194-203 | across any run a non-negative tank stays non-negative, and with non-negative nitrous parameters it never grows |
| EngineRun.EmptyTankUntouched | src/physics/carengine.cpp:194-203 | a tank at or below 0 is never changed by any run |
| EngineRun.NoBoostTankUntouched | src/physics/carengine.cpp:194-203 | a run without a positive boost request never changes the tank |
| EngineRun.RunFromInitNosBounded | src/physics/carengine.cpp:194-203 | from Init with a non-negative configured tank and parameters, the tank stays between 0 and its configured mass across any run |
| EngineRun.LimiterStaysTripped | src/physics/carengine.cpp:186-190 | a tripped limiter stays tripped while the rpm at each tick stays above limit − 100 |
| EngineRun.LimiterStaysClear | src/physics/carengine.cpp:186-190 | a clear limiter stays clear while the rpm at each tick stays at or below the limit |

## Left out

- The configuration tree's parser and its `get` are not part of this model. A section is a map from key to numbers: a read succeeds exactly when the key is present, and a missing number in a list reads as 0.
- `error_output` messages and `DebugPrint` are output only. Failure is the `false` result.
- The piecewise interpolation of `linearinterp.h` is not part of this model. `LinearInterp.Interpolate` is a stand-in, and no property relies on its body.
- The shaft's helpers (`getMomentum`, `applyMomentum`, `GetRPM`) are declared in a header that is not part of this model. `ShaftHelpers.Shaft` gives them rigid-shaft definitions. The constructor assumes a new shaft is at rest.
- Engine.SaveOmitsNosMass: its concrete example computes with those definitions, relying on the rpm conversion and on `applyMomentum` adding the inverse inertia times the impulse to the angular velocity. Every other property is stated through the helpers' names only.
- Setters such as `SetThrottle` are declared in headers that are not part of this model. A run's `EngineRun.Tick` stands for what they set between calls of Integrate.
- Floating-point rounding is not modelled.
  - In the source the idle search accumulates 0.01 and ends just above 1.0 when no throttle idles. The model's grid is exact.
  - Divisions get preconditions instead of infinities: `dt > 0`, a non-zero inverse inertia, and a turning shaft when nitrous is injected, even on a tick whose combustion is then cut off and whose boost term the source discards (`Engine.CanIntegrate`); a non-zero efficiency times heating value in Load once every required key is present; a non-zero inertia in Init.
- The serializer's byte format and I/O are not modelled. Serialize's writing half is `Engine.SavedFields` and its reading half is `Engine.CarEngine.Restore`.
- `include/cardynamics.h`, `src/track.h` and `src/graphics/model_joe03.h` are not part of this model. They hold the car orchestrator, track loading and mesh loading.
