/** CarEngine: the per-tick engine state machine. EngineState is the engine's
    state as a value; Step specifies one call of CarEngine.Integrate on it, and
    the class below updates its fields in place and is proved to agree with
    Step. */
module Engine {
  import opened ShaftHelpers
  import opened EngineInfo

  function Max(a: real, b: real): (m: real)
    ensures m >= a && m >= b && (m == a || m == b)
  {
    if a > b then a else b
  }

  function Min(a: real, b: real): (m: real)
    ensures m <= a && m <= b && (m == a || m == b)
  {
    if a < b then a else b
  }

  /** How far below the rpm limit the engine must fall to clear the limiter. */
  const RevLimitHysteresis: real := 100.0

  /** Everything a CarEngine holds. */
  datatype EngineState = EngineState(
    info: CarEngineInfo,
    shaft: Shaft,
    combustionTorque: real,
    frictionTorque: real,
    clutchTorque: real,
    throttlePosition: real,
    nosBoostFactor: real,
    nosMass: real,
    outOfGas: bool,
    revLimitExceeded: bool,
    stalled: bool)
  {
    function GetRPM(): real
    {
      shaft.Rpm()
    }

    /** Nitrous is injected on this tick. */
    predicate NosActive()
    {
      nosMass > 0.0 && nosBoostFactor > 0.0
    }
  }

  /** The engine's state after Init: every torque and flag cleared, the throttle
      closed, the tank full; the shaft keeps its angular velocity. */
  function InitState(angVelocity: real, info: CarEngineInfo): EngineState
    requires info.inertia != 0.0
  {
    EngineState(
      info := info,
      shaft := Shaft(angVelocity, 1.0 / info.inertia),
      combustionTorque := 0.0,
      frictionTorque := 0.0,
      clutchTorque := 0.0,
      throttlePosition := 0.0,
      nosBoostFactor := 0.0,
      nosMass := info.nosMass,
      outOfGas := false,
      revLimitExceeded := false,
      stalled := false)
  }

  // ---------------------------------------------------------------------------
  // The parts of one tick

  /** The clutch torque after the momentum clamp: a drag is cut back to the
      bound when it exceeds it in its own direction, and kept otherwise. */
  function ClampClutchTorque(drag: real, limit: real): (r: real)
    ensures drag > 0.0 ==> r == Min(drag, limit)
    ensures drag < 0.0 ==> r == Max(drag, limit)
    ensures drag == 0.0 ==> r == 0.0
  {
    if (drag > 0.0 && drag > limit) || (drag < 0.0 && drag < limit) then limit else drag
  }

  /** The clutch never delivers more impulse in one tick than the momentum of
      the engine shaft relative to the clutch, in the direction of the drag. */
  lemma ClutchImpulseWithinMomentum(s: Shaft, clutchDrag: real, clutchAngVel: real, dt: real)
    requires dt > 0.0 && s.invInertia != 0.0
    ensures var c := ClampClutchTorque(clutchDrag, s.GetMomentum(clutchAngVel) / dt);
      (clutchDrag > 0.0 ==> c * dt <= s.GetMomentum(clutchAngVel)) &&
      (clutchDrag < 0.0 ==> c * dt >= s.GetMomentum(clutchAngVel))
  {
    var m := s.GetMomentum(clutchAngVel);
    var limit := m / dt;
    var c := ClampClutchTorque(clutchDrag, limit);
    assert limit * dt == m;
    if clutchDrag > 0.0 {
      assert c <= limit;
      assert c * dt <= limit * dt;
    } else if clutchDrag < 0.0 {
      assert c >= limit;
      assert c * dt >= limit * dt;
    }
  }

  /** The rev limiter with hysteresis: once tripped it stays tripped until the
      rpm falls to RevLimitHysteresis below the limit. */
  function RevLimiter(wasExceeded: bool, rpm: real, rpmLimit: real): (exceeded: bool)
    ensures !wasExceeded ==> (exceeded <==> rpm > rpmLimit)
    ensures wasExceeded ==> (exceeded <==> rpm > rpmLimit - RevLimitHysteresis)
    ensures rpm > rpmLimit ==> exceeded
    ensures rpm <= rpmLimit - RevLimitHysteresis ==> !exceeded
  {
    var revLimit := if wasExceeded then rpmLimit - RevLimitHysteresis else rpmLimit;
    rpm > revLimit
  }

  /** Every nitrous-related parameter is non-negative. */
  predicate NosParamsNonNegative(info: CarEngineInfo)
  {
    info.nosBoost >= 0.0 && info.fuelRate >= 0.0 && info.nosFuelRatio >= 0.0
  }

  /** Nitrous mass left after one tick of length dt. */
  function NosMassAfter(info: CarEngineInfo, nosMass: real, nosBoostFactor: real, dt: real): (r: real)
    ensures !(nosMass > 0.0 && nosBoostFactor > 0.0) ==> r == nosMass
    ensures nosMass > 0.0 && nosBoostFactor > 0.0 ==> r >= 0.0
    ensures NosParamsNonNegative(info) && dt >= 0.0 ==> r <= nosMass
  {
    if nosMass > 0.0 && nosBoostFactor > 0.0 then
      var boost := nosBoostFactor * info.nosBoost;
      var fuelConsumed := boost * info.fuelRate * dt;
      var nosConsumed := info.nosFuelRatio * fuelConsumed;
      NosBurnNonNegative(info, nosBoostFactor, dt);
      Max(0.0, nosMass - nosConsumed)
    else
      nosMass
  }

  /** While nitrous is injected over a positive dt, the tank does not grow
      exactly when nos-ratio · nos-boost · fuel rate is non-negative; a
      negative product makes the tick add to it. */
  lemma NosDrainsIff(info: CarEngineInfo, nosMass: real, nosBoostFactor: real, dt: real)
    requires nosMass > 0.0 && nosBoostFactor > 0.0 && dt > 0.0
    ensures NosMassAfter(info, nosMass, nosBoostFactor, dt) <= nosMass
      <==> info.nosFuelRatio * info.nosBoost * info.fuelRate >= 0.0
  {
    var p := info.nosFuelRatio * info.nosBoost * info.fuelRate;
    var q := nosBoostFactor * dt;
    var consumed := info.nosFuelRatio * (nosBoostFactor * info.nosBoost * info.fuelRate * dt);
    assert consumed == p * q;
    assert q > 0.0;
    if p >= 0.0 {
      assert consumed >= 0.0;
    } else {
      assert consumed < 0.0;
    }
  }

  lemma NosBurnNonNegative(info: CarEngineInfo, nosBoostFactor: real, dt: real)
    requires nosBoostFactor > 0.0
    ensures NosParamsNonNegative(info) && dt >= 0.0 ==>
      info.nosFuelRatio * (nosBoostFactor * info.nosBoost * info.fuelRate * dt) >= 0.0
  {
    if NosParamsNonNegative(info) && dt >= 0.0 {
      var boost := nosBoostFactor * info.nosBoost;
      assert boost >= 0.0;
      assert boost * info.fuelRate >= 0.0;
      var fuel := boost * info.fuelRate * dt;
      assert fuel >= 0.0;
      assert info.nosFuelRatio * fuel >= 0.0;
    }
  }

  // ---------------------------------------------------------------------------
  // One tick

  /** What Integrate needs for its divisions: a positive time step, a shaft
      with finite inertia, and a turning shaft whenever nitrous is injected. */
  predicate CanIntegrate(e: EngineState, dt: real)
  {
    dt > 0.0 && e.shaft.invInertia != 0.0 && (e.NosActive() ==> e.shaft.angVelocity != 0.0)
  }

  /** The throttle raised to the idle throttle when it is below it. */
  function IdleFloor(throttle: real, idle: real): (r: real)
    ensures r >= idle && r >= throttle && (r == idle || r == throttle)
  {
    if throttle < idle then idle else throttle
  }

  /** The control part of a tick: the clutch torque clamped to what the
      shafts' relative momentum allows over dt, the stall check, the idle
      throttle floor and the rev limiter. */
  function TickControls(e: EngineState, clutchDrag: real, clutchAngVel: real, dt: real): EngineState
    requires dt > 0.0 && e.shaft.invInertia != 0.0
  {
    e.(
      clutchTorque := ClampClutchTorque(clutchDrag, e.shaft.GetMomentum(clutchAngVel) / dt),
      stalled := e.shaft.Rpm() < e.info.stallRpm,
      throttlePosition := IdleFloor(e.throttlePosition, e.info.idle),
      revLimitExceeded := RevLimiter(e.revLimitExceeded, e.shaft.Rpm(), e.info.rpmLimit))
  }

  /** The combustion torque at this throttle and shaft speed: the curve's
      torque, plus the nitrous boost divided by the shaft speed while nitrous
      is injected, or 0 when combustion is cut off. */
  function CombustionTorque(info: CarEngineInfo, shaft: Shaft, throttle: real,
                            nosBoostFactor: real, nosMass: real, cutOff: bool): real
    requires nosMass > 0.0 && nosBoostFactor > 0.0 ==> shaft.angVelocity != 0.0
  {
    var torque := info.GetTorque(throttle, shaft.Rpm());
    var boosted := if nosMass > 0.0 && nosBoostFactor > 0.0
      then torque + nosBoostFactor * info.nosBoost / shaft.angVelocity else torque;
    if cutOff then 0.0 else boosted
  }

  /** The friction torque at this throttle and shaft speed, doubled while
      the engine is stalled. */
  function FrictionTorque(info: CarEngineInfo, shaft: Shaft, throttle: real, stalled: bool): real
  {
    var friction := info.GetFrictionTorque(throttle, shaft.Rpm());
    if stalled then friction * 2.0 else friction
  }

  /** The combustion part of a tick, on the flags and throttle TickControls
      has just set: the combustion torque, cut off when out of gas,
      rev-limited or stalled; the nitrous burnt; and the friction torque. */
  function TickCombustion(e: EngineState, dt: real): EngineState
    requires CanIntegrate(e, dt)
  {
    e.(
      combustionTorque := CombustionTorque(e.info, e.shaft, e.throttlePosition, e.nosBoostFactor, e.nosMass,
                                           e.outOfGas || e.revLimitExceeded || e.stalled),
      nosMass := NosMassAfter(e.info, e.nosMass, e.nosBoostFactor, dt),
      frictionTorque := FrictionTorque(e.info, e.shaft, e.throttlePosition, e.stalled))
  }

  /** The shaft after the impulse over dt of the net torque: combustion,
      friction and clutch together. */
  function NetImpulse(shaft: Shaft, combustion: real, friction: real, clutch: real, dt: real): Shaft
  {
    shaft.ApplyMomentum((combustion + friction + clutch) * dt)
  }

  /** One call of Integrate(clutchDrag, clutchAngVel, dt) on state e: the
      controls, then combustion, then the net torque's impulse over dt on
      the shaft. */
  function Step(e: EngineState, clutchDrag: real, clutchAngVel: real, dt: real): EngineState
    requires CanIntegrate(e, dt)
  {
    var c := TickControls(e, clutchDrag, clutchAngVel, dt);
    var t := TickCombustion(c, dt);
    t.(shaft := NetImpulse(e.shaft, t.combustionTorque, t.frictionTorque, t.clutchTorque, dt))
  }

  /** A tick keeps the configuration, the out-of-gas flag, the boost request
      and the shaft's inertia, and applies to the shaft the impulse over dt of
      the new net torque (combustion, friction and clutch together). */
  lemma StepShaft(e: EngineState, clutchDrag: real, clutchAngVel: real, dt: real)
    requires CanIntegrate(e, dt)
    ensures var n := Step(e, clutchDrag, clutchAngVel, dt);
      n.info == e.info && n.outOfGas == e.outOfGas && n.nosBoostFactor == e.nosBoostFactor
    ensures var n := Step(e, clutchDrag, clutchAngVel, dt);
      n.shaft == NetImpulse(e.shaft, n.combustionTorque, n.frictionTorque, n.clutchTorque, dt)
    ensures Step(e, clutchDrag, clutchAngVel, dt).shaft.invInertia == e.shaft.invInertia
  {
  }

  /** After a tick: the clutch torque is the clamped drag; the engine is
      stalled iff the rpm it started from is below the stall rpm; the
      throttle is the old throttle raised to at least idle; and the limiter
      flag follows the hysteresis rule on the starting rpm. */
  lemma StepControls(e: EngineState, clutchDrag: real, clutchAngVel: real, dt: real)
    requires CanIntegrate(e, dt)
    ensures var n := Step(e, clutchDrag, clutchAngVel, dt);
      n.clutchTorque == ClampClutchTorque(clutchDrag, e.shaft.GetMomentum(clutchAngVel) / dt) &&
      (n.stalled <==> e.GetRPM() < e.info.stallRpm) &&
      n.throttlePosition >= e.info.idle && n.throttlePosition >= e.throttlePosition &&
      (n.throttlePosition == e.info.idle || n.throttlePosition == e.throttlePosition) &&
      n.revLimitExceeded == RevLimiter(e.revLimitExceeded, e.GetRPM(), e.info.rpmLimit)
  {
  }

  /** After a tick: combustion torque is 0 whenever the engine is out of gas,
      rev-limited or stalled, and otherwise the curve's torque at the new
      throttle plus the nitrous boost; friction is exactly twice
      GetFrictionTorque when stalled and GetFrictionTorque otherwise; the
      tank follows NosMassAfter. */
  lemma StepCombustion(e: EngineState, clutchDrag: real, clutchAngVel: real, dt: real)
    requires CanIntegrate(e, dt)
    ensures var n := Step(e, clutchDrag, clutchAngVel, dt);
      n.nosMass == NosMassAfter(e.info, e.nosMass, e.nosBoostFactor, dt) &&
      (n.outOfGas || n.revLimitExceeded || n.stalled ==> n.combustionTorque == 0.0) &&
      (!(n.outOfGas || n.revLimitExceeded || n.stalled) ==>
        n.combustionTorque == e.info.GetTorque(n.throttlePosition, e.GetRPM()) +
          (if e.NosActive() then e.nosBoostFactor * e.info.nosBoost / e.shaft.angVelocity else 0.0)) &&
      (n.stalled ==> n.frictionTorque == 2.0 * e.info.GetFrictionTorque(n.throttlePosition, e.GetRPM())) &&
      (!n.stalled ==> n.frictionTorque == e.info.GetFrictionTorque(n.throttlePosition, e.GetRPM()))
  {
    var c := TickControls(e, clutchDrag, clutchAngVel, dt);
    assert c.GetRPM() == e.GetRPM() && c.NosActive() == e.NosActive();
  }

  // ---------------------------------------------------------------------------
  // Persisted state

  /** The five fields Serialize writes and reads back. */
  datatype SavedEngine = SavedEngine(
    angVelocity: real,
    throttlePosition: real,
    clutchTorque: real,
    outOfGas: bool,
    revLimitExceeded: bool)

  /** What Serialize writes from state e. */
  function SavedFields(e: EngineState): SavedEngine
  {
    SavedEngine(e.shaft.angVelocity, e.throttlePosition, e.clutchTorque, e.outOfGas, e.revLimitExceeded)
  }

  /** State e after Serialize has read `saved` back into it. */
  function WithSavedFields(e: EngineState, saved: SavedEngine): (r: EngineState)
    ensures SavedFields(r) == saved
    ensures r.info == e.info && r.shaft.invInertia == e.shaft.invInertia
    ensures r.combustionTorque == e.combustionTorque && r.frictionTorque == e.frictionTorque
    ensures r.nosBoostFactor == e.nosBoostFactor && r.nosMass == e.nosMass && r.stalled == e.stalled
  {
    e.(
      shaft := e.shaft.(angVelocity := saved.angVelocity),
      throttlePosition := saved.throttlePosition,
      clutchTorque := saved.clutchTorque,
      outOfGas := saved.outOfGas,
      revLimitExceeded := saved.revLimitExceeded)
  }

  /** Reading back what was just written changes nothing. */
  lemma RestoreWhatWasSaved(e: EngineState)
    ensures WithSavedFields(e, SavedFields(e)) == e
  {
  }

  /** A tick reads only the shaft, the configuration, the throttle, the
      nitrous state and the two sticky flags; the torques and the stall flag
      left by the previous tick are overwritten unread. */
  lemma StepReadsInputs(a: EngineState, b: EngineState, clutchDrag: real, clutchAngVel: real, dt: real)
    requires CanIntegrate(a, dt)
    requires a == b.(combustionTorque := a.combustionTorque, frictionTorque := a.frictionTorque,
                     clutchTorque := a.clutchTorque, stalled := a.stalled)
    ensures CanIntegrate(b, dt)
    ensures Step(a, clutchDrag, clutchAngVel, dt) == Step(b, clutchDrag, clutchAngVel, dt)
  {
  }

  /** An engine restored from a save resumes exactly like the original, as
      long as it shares the original's configuration, inertia, nitrous boost
      setting and remaining nitrous mass (which the save does not hold). */
  lemma ResumeFromSave(s: EngineState, t: EngineState, clutchDrag: real, clutchAngVel: real, dt: real)
    requires CanIntegrate(s, dt)
    requires t.info == s.info && t.shaft.invInertia == s.shaft.invInertia
    requires t.nosBoostFactor == s.nosBoostFactor && t.nosMass == s.nosMass
    ensures CanIntegrate(WithSavedFields(t, SavedFields(s)), dt)
    ensures Step(WithSavedFields(t, SavedFields(s)), clutchDrag, clutchAngVel, dt) == Step(s, clutchDrag, clutchAngVel, dt)
  {
    var r := WithSavedFields(t, SavedFields(s));
    assert r.shaft == s.shaft;
    StepReadsInputs(r, s, clutchDrag, clutchAngVel, dt);
  }

  /** The remaining nitrous mass is not saved: two engines with the same saved
      fields and configuration, one with nitrous left and one without, leave
      the next tick with different shaft speeds. */
  lemma SaveOmitsNosMass()
    ensures
      var info := DefaultInfo().(nosBoost := 1.0, fuelRate := 1.0);
      var s := EngineState(info, Shaft(100.0, 4.0), 0.0, 0.0, 0.0, 0.5, 1.0, 2.0, false, false, false);
      var t := s.(nosMass := 0.0);
      SavedFields(s) == SavedFields(t) && CanIntegrate(s, 0.01) && CanIntegrate(t, 0.01) &&
      Step(s, 0.0, 0.0, 0.01).shaft != Step(t, 0.0, 0.0, 0.01).shaft
  {
    var info := DefaultInfo().(nosBoost := 1.0, fuelRate := 1.0);
    var s := EngineState(info, Shaft(100.0, 4.0), 0.0, 0.0, 0.0, 0.5, 1.0, 2.0, false, false, false);
    var t := s.(nosMass := 0.0);
    assert s.GetRPM() == t.GetRPM() == 3000.0 / Pi;
    assert 3000.0 / Pi > 350.0;
    assert 3000.0 / Pi < 9000.0;
    var ns, nt := Step(s, 0.0, 0.0, 0.01), Step(t, 0.0, 0.0, 0.01);
    assert ns.combustionTorque == nt.combustionTorque + 0.01;
    assert ns.frictionTorque == nt.frictionTorque && ns.clutchTorque == nt.clutchTorque;
  }

  // ---------------------------------------------------------------------------
  // The engine object

  class CarEngine {
    var info: CarEngineInfo
    var shaft: Shaft
    var combustionTorque: real
    var frictionTorque: real
    var clutchTorque: real
    var throttlePosition: real
    var nosBoostFactor: real
    var nosMass: real
    var outOfGas: bool
    var revLimitExceeded: bool
    var stalled: bool

    function State(): EngineState
      reads this
    {
      EngineState(info, shaft, combustionTorque, frictionTorque, clutchTorque,
        throttlePosition, nosBoostFactor, nosMass, outOfGas, revLimitExceeded, stalled)
    }

    /** A default-configured engine, initialised (its shaft starts at rest). */
    constructor ()
      ensures State() == InitState(0.0, DefaultInfo())
    {
      info := DefaultInfo();
      shaft := Shaft(0.0, 1.0);
      new;
      Init(info);
    }

    /** Takes a copy of the configuration and clears all per-tick state; the
        shaft's angular velocity is left as it was. */
    method Init(info: CarEngineInfo)
      requires info.inertia != 0.0
      modifies this
      ensures State() == InitState(old(shaft.angVelocity), info)
      ensures this.info == info && shaft.invInertia == 1.0 / info.inertia
      ensures combustionTorque == 0.0 && frictionTorque == 0.0 && clutchTorque == 0.0
      ensures throttlePosition == 0.0 && nosBoostFactor == 0.0 && nosMass == info.nosMass
      ensures !outOfGas && !revLimitExceeded && !stalled
    {
      this.info := info;
      shaft := shaft.(invInertia := 1.0 / info.inertia);
      combustionTorque := 0.0;
      frictionTorque := 0.0;
      clutchTorque := 0.0;

      throttlePosition := 0.0;
      nosBoostFactor := 0.0;
      nosMass := info.nosMass;
      outOfGas := false;
      revLimitExceeded := false;
      stalled := false;
    }

    /** Advances the engine by dt against the clutch, returning the clutch
        torque actually applied. */
    method Integrate(clutchDrag: real, clutchAngVel: real, dt: real) returns (applied: real)
      requires CanIntegrate(State(), dt)
      modifies this
      ensures State() == Step(old(State()), clutchDrag, clutchAngVel, dt)
      ensures applied == clutchTorque
    {
      ghost var e := State();
      UpdateControls(clutchDrag, clutchAngVel, dt);
      ghost var c := State();
      assert c.GetRPM() == e.GetRPM() && c.NosActive() == e.NosActive();
      UpdateCombustion(dt);
      ApplyNetTorque(dt);

      applied := clutchTorque;
    }

    /** The first lines of Integrate: clutch clamp, stall check, idle
        throttle and rev limiter. */
    method UpdateControls(clutchDrag: real, clutchAngVel: real, dt: real)
      requires dt > 0.0 && shaft.invInertia != 0.0
      modifies this
      ensures State() == TickControls(old(State()), clutchDrag, clutchAngVel, dt)
    {
      var rpm := shaft.Rpm();

      clutchTorque := clutchDrag;

      var torqueLimit := shaft.GetMomentum(clutchAngVel) / dt;
      if (clutchTorque > 0.0 && clutchTorque > torqueLimit) ||
         (clutchTorque < 0.0 && clutchTorque < torqueLimit)
      {
        clutchTorque := torqueLimit;
      }

      stalled := rpm < info.stallRpm;

      // make sure the throttle is at least idling
      if throttlePosition < info.idle {
        throttlePosition := info.idle;
      }

      // engine drive torque
      var revLimit := info.rpmLimit;
      if revLimitExceeded {
        revLimit := revLimit - RevLimitHysteresis;
      }
      revLimitExceeded := rpm > revLimit;
    }

    /** The rest of Integrate before the shaft update: combustion torque,
        nitrous injection, the cut-off and friction. */
    method UpdateCombustion(dt: real)
      requires CanIntegrate(State(), dt)
      modifies this
      ensures State() == TickCombustion(old(State()), dt)
    {
      UpdateDriveTorque(dt);
      UpdateFriction();
    }

    /** Combustion torque from the curve, the nitrous boost and burn, and the
        cut-off. */
    method UpdateDriveTorque(dt: real)
      requires CanIntegrate(State(), dt)
      modifies this
      ensures var e := old(State());
        State() == e.(
          combustionTorque := CombustionTorque(e.info, e.shaft, e.throttlePosition, e.nosBoostFactor, e.nosMass,
                                               e.outOfGas || e.revLimitExceeded || e.stalled),
          nosMass := NosMassAfter(e.info, e.nosMass, e.nosBoostFactor, dt))
    {
      var rpm := shaft.Rpm();
      combustionTorque := info.GetTorque(throttlePosition, rpm);

      // nitrous injection
      if nosMass > 0.0 && nosBoostFactor > 0.0 {
        var boost := nosBoostFactor * info.nosBoost;
        combustionTorque := combustionTorque + boost / shaft.angVelocity;

        var fuelConsumed := boost * info.fuelRate * dt;
        var nosConsumed := info.nosFuelRatio * fuelConsumed;
        nosMass := Max(0.0, nosMass - nosConsumed);
      }

      if outOfGas || revLimitExceeded || stalled {
        combustionTorque := 0.0;
      }
    }

    /** Friction torque, doubled while stalled. */
    method UpdateFriction()
      modifies this
      ensures var e := old(State());
        State() == e.(frictionTorque := FrictionTorque(e.info, e.shaft, e.throttlePosition, e.stalled))
    {
      frictionTorque := info.GetFrictionTorque(throttlePosition, shaft.Rpm());

      // static friction of a stalled engine
      if stalled {
        frictionTorque := frictionTorque * 2.0;
      }
    }

    /** The last lines of Integrate: the net torque's impulse over dt goes
        to the shaft. */
    method ApplyNetTorque(dt: real)
      modifies this
      ensures var e := old(State());
        State() == e.(shaft := NetImpulse(e.shaft, e.combustionTorque, e.frictionTorque, e.clutchTorque, dt))
    {
      var totalTorque := combustionTorque + frictionTorque + clutchTorque;
      shaft := shaft.ApplyMomentum(totalTorque * dt);
    }

    /** The reading half of Serialize: the five saved fields are overwritten,
        everything else is kept. */
    method Restore(saved: SavedEngine)
      modifies this
      ensures State() == WithSavedFields(old(State()), saved)
    {
      shaft := shaft.(angVelocity := saved.angVelocity);
      throttlePosition := saved.throttlePosition;
      clutchTorque := saved.clutchTorque;
      outOfGas := saved.outOfGas;
      revLimitExceeded := saved.revLimitExceeded;
    }
  }
}
