/** CarEngineInfo: the engine's configuration, its torque curve and the two
    closed-form torque functions, together with the loader that fills it from
    a configuration section. The record is copied by value into every engine
    (CarEngine::Init), so it is a datatype here; Load and SetTorqueCurve return
    the updated record. */
module EngineInfo {
  import opened PTreeConfig
  import opened LinearInterp
  import opened ShaftHelpers

  datatype Vec3 = Vec3(x: real, y: real, z: real)

  /** Coefficients of the friction torque, constant, linear and quadratic in rpm. */
  datatype Friction = Friction(c0: real, c1: real, c2: real)

  datatype CarEngineInfo = CarEngineInfo(
    displacement: real,
    maxPower: real,
    redline: real,
    rpmLimit: real,
    idle: real,
    startRpm: real,
    stallRpm: real,
    fuelRate: real,
    friction: Friction,
    inertia: real,
    mass: real,
    position: Vec3,
    nosMass: real,
    nosBoost: real,
    nosFuelRatio: real,
    torqueCurve: seq<Point>)
  {
    /** Combustion torque at the given throttle and rpm: the torque curve
        scaled by the throttle, and nothing below 1 rpm. */
    function GetTorque(throttle: real, rpm: real): real
    {
      if rpm < 1.0 then 0.0 else Interpolate(torqueCurve, rpm) * throttle
    }

    /** Friction torque: a quadratic in |rpm| with the sign opposite to rpm's
        (rpm 0 counts as positive), fading out as the throttle opens. */
    function GetFrictionTorque(throttle: real, rpm: real): real
    {
      var s := if rpm < 0.0 then -1.0 else 1.0;
      var r := s * rpm;
      var f := friction.c0 + friction.c1 * r + friction.c2 * r * r;
      -s * f * (1.0 - throttle)
    }
  }

  /** The record as its constructor leaves it (an unset position reads as zero). */
  function DefaultInfo(): (info: CarEngineInfo)
    ensures info.stallRpm < info.startRpm < info.redline < info.rpmLimit
    ensures info.nosMass == 0.0 && info.torqueCurve == []
  {
    CarEngineInfo(
      displacement := 0.002,
      maxPower := 184000.0,
      redline := 7800.0,
      rpmLimit := 9000.0,
      idle := 0.02,
      startRpm := 1000.0,
      stallRpm := 350.0,
      fuelRate := 40000000.0,
      friction := Friction(15.438, 0.002387, 0.0000007958),
      inertia := 0.25,
      mass := 200.0,
      position := Vec3(0.0, 0.0, 0.0),
      nosMass := 0.0,
      nosBoost := 0.0,
      nosFuelRatio := 5.0,
      torqueCurve := [])
  }

  /** Friction coefficients from the displacement (Heywood 1988, total friction
      mean effective pressure). */
  function HeywoodFriction(displacement: real): (f: Friction)
    ensures displacement >= 0.0 ==> f.c0 >= 0.0 && f.c1 >= 0.0 && f.c2 >= 0.0
    ensures displacement == 0.0 ==> f == Friction(0.0, 0.0, 0.0)
  {
    Friction(
      97000.0 / (4.0 * Pi) * displacement,
      15.0 / (4.0 * Pi) * displacement,
      0.005 / (4.0 * Pi) * displacement)
  }

  /** Fuel mass burnt per unit of energy delivered. */
  function FuelRate(efficiency: real, heatingValue: real): (r: real)
    requires efficiency * heatingValue != 0.0
    ensures efficiency > 0.0 && heatingValue > 0.0 ==> r > 0.0
    ensures r * (efficiency * heatingValue) == 1.0
  {
    1.0 / (efficiency * heatingValue)
  }

  /** The engine efficiency Load uses: the section's, or 0.35. */
  function Efficiency(cfg: Config): real { ReadOr(cfg, "efficiency", 0.35) }

  /** The fuel heating value Load uses: the section's, or 4.5E7 Ws/kg. */
  function HeatingValue(cfg: Config): real { ReadOr(cfg, "fuel-heating-value", 45000000.0) }

  /** The keys whose absence makes Load fail are all present. */
  predicate HasRequiredKeys(cfg: Config)
  {
    "displacement" in cfg && "max-power" in cfg && "peak-engine-rpm" in cfg &&
    "rpm-limit" in cfg && "inertia" in cfg && "start-rpm" in cfg &&
    "stall-rpm" in cfg && "position" in cfg && "mass" in cfg
  }

  /** The required keys in the order Load reads them. */
  const RequiredKeys: seq<string> :=
    ["displacement", "max-power", "peak-engine-rpm", "rpm-limit", "inertia",
     "start-rpm", "stall-rpm", "position", "mass"]

  /** The first n required keys are all present, so Load gets past them. */
  predicate FirstKeysPresent(cfg: Config, n: nat)
  {
    forall i :: 0 <= i < n && i < |RequiredKeys| ==> RequiredKeys[i] in cfg
  }

  /** The field stored under the n-th required key once Load has stopped:
      the key's value when it and every key before it are present, and the
      field's current value otherwise. */
  function RequiredValue(cfg: Config, n: nat, current: real): (v: real)
    requires n < |RequiredKeys|
    ensures RequiredKeys[n] !in cfg ==> v == current
  {
    if FirstKeysPresent(cfg, n + 1) then Number(cfg[RequiredKeys[n]], 0) else current
  }

  /** All required keys present is the same as getting past all of them. */
  lemma RequiredKeysInOrder(cfg: Config)
    ensures HasRequiredKeys(cfg) <==> FirstKeysPresent(cfg, |RequiredKeys|)
  {
    if !HasRequiredKeys(cfg) {
      var k := if "displacement" !in cfg then 0 else if "max-power" !in cfg then 1
        else if "peak-engine-rpm" !in cfg then 2 else if "rpm-limit" !in cfg then 3
        else if "inertia" !in cfg then 4 else if "start-rpm" !in cfg then 5
        else if "stall-rpm" !in cfg then 6 else if "position" !in cfg then 7 else 8;
      assert RequiredKeys[k] !in cfg;
    }
  }

  // ---------------------------------------------------------------------------
  // Torque-curve samples in the configuration

  /** The n-th sample: the first two numbers under its key. */
  function SampleAt(cfg: Config, n: nat): Point
    requires TorqueKey(n) in cfg
  {
    var v := cfg[TorqueKey(n)];
    Point(Number(v, 0), Number(v, 1))
  }

  /** Samples n, n+1, ... up to the first missing key. */
  function SamplesFrom(cfg: Config, n: nat): seq<Point>
    requires KeysBelow(n) <= cfg.Keys
    decreases |cfg.Keys| - n
  {
    if TorqueKey(n) !in cfg then []
    else
      KeysBelowBound(cfg, n + 1);
      [SampleAt(cfg, n)] + SamplesFrom(cfg, n + 1)
  }

  /** All samples, from torque-curve-00 up to the first missing key. */
  function TorqueSamples(cfg: Config): seq<Point>
  {
    SamplesFrom(cfg, 0)
  }

  /** p is the sample stored under key k. */
  predicate SampleRead(cfg: Config, k: nat, p: Point)
  {
    TorqueKey(k) in cfg && p == SampleAt(cfg, k)
  }

  /** s holds the samples stored under consecutive keys from n. */
  predicate ReadFrom(cfg: Config, n: nat, s: seq<Point>)
  {
    forall i :: 0 <= i < |s| ==> SampleRead(cfg, n + i, s[i])
  }

  /** Sample n in front of samples read from n+1 gives samples read from n. */
  lemma ReadFromCons(cfg: Config, n: nat, t: seq<Point>)
    requires TorqueKey(n) in cfg && ReadFrom(cfg, n + 1, t)
    ensures ReadFrom(cfg, n, [SampleAt(cfg, n)] + t)
  {
    var s := [SampleAt(cfg, n)] + t;
    forall i | 0 <= i < |s|
      ensures SampleRead(cfg, n + i, s[i])
    {
      if i > 0 {
        var j := i - 1;
        assert s[i] == t[j] && n + i == (n + 1) + j;
        assert SampleRead(cfg, (n + 1) + j, t[j]);
      }
    }
  }

  lemma {:induction false} SamplesFromConsecutive(cfg: Config, n: nat)
    requires KeysBelow(n) <= cfg.Keys
    ensures ReadFrom(cfg, n, SamplesFrom(cfg, n))
    ensures TorqueKey(n + |SamplesFrom(cfg, n)|) !in cfg
    decreases |cfg.Keys| - n
  {
    if TorqueKey(n) in cfg {
      KeysBelowBound(cfg, n + 1);
      SamplesFromConsecutive(cfg, n + 1);
      var t := SamplesFrom(cfg, n + 1);
      assert SamplesFrom(cfg, n) == [SampleAt(cfg, n)] + t;
      ReadFromCons(cfg, n, t);
      assert n + |SamplesFrom(cfg, n)| == (n + 1) + |t|;
    }
  }

  lemma TorqueSamplesConsecutive(cfg: Config)
    ensures var s := TorqueSamples(cfg);
      (forall k :: 0 <= k < |s| ==> TorqueKey(k) in cfg && s[k] == SampleAt(cfg, k)) &&
      TorqueKey(|s|) !in cfg
  {
    SamplesFromConsecutive(cfg, 0);
    var s := TorqueSamples(cfg);
    forall k | 0 <= k < |s| ensures TorqueKey(k) in cfg && s[k] == SampleAt(cfg, k) {
      assert SampleRead(cfg, 0 + k, s[k]);
    }
  }

  /** Conversely, that description fixes the samples: any sequence read from
      consecutive keys and stopped at the first missing one is TorqueSamples. */
  lemma {:induction false} TorqueSamplesUnique(cfg: Config, s: seq<Point>)
    requires forall i :: 0 <= i < |s| ==> TorqueKey(i) in cfg && s[i] == SampleAt(cfg, i)
    requires TorqueKey(|s|) !in cfg
    ensures s == TorqueSamples(cfg)
  {
    var t := TorqueSamples(cfg);
    TorqueSamplesConsecutive(cfg);
    var lt: nat, ls: nat := |t|, |s|;
    assert lt < ls ==> TorqueKey(lt) in cfg;
    assert ls < lt ==> TorqueKey(ls) in cfg;
    assert forall i :: 0 <= i < |s| ==> s[i] == t[i];
  }

  // ---------------------------------------------------------------------------
  // The interpolation table

  /** The table built from the samples: (0,0) in front when the first sample
      is not at rpm 0, every sample in order, and a zero-torque point 10000 rpm
      past the last sample. */
  function PaddedCurve(torque: seq<Point>): (curve: seq<Point>)
    requires |torque| > 1
    ensures var off := if torque[0].x != 0.0 then 1 else 0;
      |curve| == off + |torque| + 1 &&
      curve[off..off + |torque|] == torque &&
      (off == 1 ==> curve[0] == Point(0.0, 0.0))
    ensures curve[0].x == 0.0
    ensures curve[|curve| - 1] == Point(torque[|torque| - 1].x + 10000.0, 0.0)
  {
    (if torque[0].x != 0.0 then [Point(0.0, 0.0)] else []) + torque +
      [Point(torque[|torque| - 1].x + 10000.0, 0.0)]
  }

  /** Every point lies at a higher rpm than every point before it. */
  predicate StrictlyIncreasing(curve: seq<Point>)
  {
    forall i, j :: 0 <= i < j < |curve| ==> curve[i].x < curve[j].x
  }

  /** Samples in strictly increasing, non-negative rpm give a table in strictly
      increasing rpm. */
  lemma PaddedCurveIncreasing(torque: seq<Point>)
    requires |torque| > 1 && StrictlyIncreasing(torque) && torque[0].x >= 0.0
    ensures StrictlyIncreasing(PaddedCurve(torque))
  {
    var front := if torque[0].x != 0.0 then [Point(0.0, 0.0)] else [];
    var last := Point(torque[|torque| - 1].x + 10000.0, 0.0);
    PaddingKeepsOrder(front, torque, last);
    assert PaddedCurve(torque) == front + torque + [last];
  }

  /** A point below every sample in front and one above every sample behind
      keep the samples in strictly increasing order. */
  lemma PaddingKeepsOrder(front: seq<Point>, torque: seq<Point>, last: Point)
    requires |torque| > 0 && StrictlyIncreasing(torque)
    requires |front| <= 1 && (|front| == 1 ==> front[0].x < torque[0].x)
    requires last.x > torque[|torque| - 1].x
    ensures StrictlyIncreasing(front + torque + [last])
  {
    var n := |torque|;
    var curve := front + torque + [last];
    var off := |front|;
    forall i, j | 0 <= i < j < |curve|
      ensures curve[i].x < curve[j].x
    {
      if i >= off && i - off < n - 1 {
        assert curve[i] == torque[i - off];
        assert torque[i - off].x < torque[n - 1].x;
      }
      if j == off + n {
        assert curve[j] == last;
      } else {
        assert curve[j] == torque[j - off];
        if i < off && j - off > 0 {
          assert torque[0].x < torque[j - off].x;
        }
      }
    }
  }

  // ---------------------------------------------------------------------------
  // Idle throttle

  /** The k-th throttle of the idle search grid, k/100. */
  function GridThrottle(k: nat): real
  {
    k as real / 100.0
  }

  /** At this throttle the engine's torque at start rpm beats its friction. */
  predicate IdleHolds(info: CarEngineInfo, throttle: real)
  {
    info.GetTorque(throttle, info.startRpm) > -info.GetFrictionTorque(throttle, info.startRpm)
  }

  /** x is what the upward idle search finds: a grid throttle in [0, 1], the
      smallest one at which the engine idles, or 1 when none below 1 does. */
  ghost predicate IsIdleThrottle(info: CarEngineInfo, x: real)
  {
    (exists k: nat :: k <= 100 && x == GridThrottle(k)) &&
    (x < 1.0 ==> IdleHolds(info, x)) &&
    (forall k: nat :: k < 100 && GridThrottle(k) < x ==> !IdleHolds(info, GridThrottle(k)))
  }

  /** The search has exactly one possible outcome. */
  lemma IdleThrottleUnique(info: CarEngineInfo, x: real, y: real)
    requires IsIdleThrottle(info, x) && IsIdleThrottle(info, y)
    ensures x == y
  {
    var a: nat :| a <= 100 && x == GridThrottle(a);
    var b: nat :| b <= 100 && y == GridThrottle(b);
    assert a < b ==> !IdleHolds(info, GridThrottle(a));
    assert b < a ==> !IdleHolds(info, GridThrottle(b));
  }

  /** Whether the engine idles at a throttle depends only on its torque
      curve, friction and start rpm. */
  lemma IdleHoldsFrame(a: CarEngineInfo, b: CarEngineInfo, throttle: real)
    requires a.torqueCurve == b.torqueCurve && a.friction == b.friction && a.startRpm == b.startRpm
    ensures IdleHolds(a, throttle) == IdleHolds(b, throttle)
  {
  }

  lemma IsIdleThrottleFrame(a: CarEngineInfo, b: CarEngineInfo, x: real)
    requires a.torqueCurve == b.torqueCurve && a.friction == b.friction && a.startRpm == b.startRpm
    ensures IsIdleThrottle(a, x) == IsIdleThrottle(b, x)
  {
    forall t ensures IdleHolds(a, t) == IdleHolds(b, t) {
      IdleHoldsFrame(a, b, t);
    }
  }

  /** Builds the interpolation table from the samples, then searches the idle
      throttle upward from 0 in steps of 0.01. The redline argument is unused. */
  method SetTorqueCurve(info: CarEngineInfo, redline: real, torque: seq<Point>)
    returns (r: CarEngineInfo)
    requires |torque| > 1
    ensures r == info.(torqueCurve := PaddedCurve(torque), idle := r.idle)
    ensures IsIdleThrottle(r, r.idle)
  {
    var curve: seq<Point> := [];
    if torque[0].x != 0.0 {
      curve := curve + [Point(0.0, 0.0)];
    }
    ghost var front := curve;
    for i := 0 to |torque|
      invariant curve == front + torque[..i]
    {
      curve := curve + [torque[i]];
    }
    assert torque[..|torque|] == torque;
    curve := curve + [Point(torque[|torque| - 1].x + 10000.0, 0.0)];
    var built := info.(torqueCurve := curve);

    var idle := 0.0;
    ghost var k: nat := 0;
    while idle < 1.0
      invariant k <= 100 && idle == GridThrottle(k)
      invariant forall j: nat :: j < k ==> !IdleHolds(built, GridThrottle(j))
      decreases 100 - k
    {
      if built.GetTorque(idle, built.startRpm) > -built.GetFrictionTorque(idle, built.startRpm) {
        break;
      }
      idle := idle + 0.01;
      k := k + 1;
    }
    r := built.(idle := idle);
    IsIdleThrottleFrame(r, built, idle);
  }

  // ---------------------------------------------------------------------------
  // Loading

  /** The loader's sample loop: reads torque-curve-00, -01, ... and stops at
      the first key that is missing. */
  method ReadTorqueSamples(cfg: Config) returns (torque: seq<Point>)
    ensures torque == TorqueSamples(cfg)
  {
    var curveNum: nat := 0;
    torque := [];
    var torqueStr := "torque-curve-00";
    assert torqueStr == TorqueKey(0);
    while torqueStr in cfg
      invariant torqueStr == TorqueKey(curveNum)
      invariant KeysBelow(curveNum) <= cfg.Keys
      invariant torque + SamplesFrom(cfg, curveNum) == TorqueSamples(cfg)
      decreases |cfg.Keys| - curveNum
    {
      var point := cfg[torqueStr];
      KeysBelowBound(cfg, curveNum + 1);
      assert SamplesFrom(cfg, curveNum) == [SampleAt(cfg, curveNum)] + SamplesFrom(cfg, curveNum + 1);
      torque := torque + [Point(Number(point, 0), Number(point, 1))];
      curveNum := curveNum + 1;
      torqueStr := TorqueKey(curveNum);
    }
  }

  /** The first part of Load: reads the required keys in order and stops at the
      first missing one. Exactly the keys read so far have been stored then. */
  method LoadRequired(cfg: Config, info: CarEngineInfo) returns (ok: bool, r: CarEngineInfo, pos: seq<real>)
    ensures ok <==> HasRequiredKeys(cfg)
    ensures r.displacement == RequiredValue(cfg, 0, info.displacement)
    ensures r.maxPower == RequiredValue(cfg, 1, info.maxPower)
    ensures r.redline == RequiredValue(cfg, 2, info.redline)
    ensures r.rpmLimit == RequiredValue(cfg, 3, info.rpmLimit)
    ensures r.inertia == RequiredValue(cfg, 4, info.inertia)
    ensures r.startRpm == RequiredValue(cfg, 5, info.startRpm)
    ensures r.stallRpm == RequiredValue(cfg, 6, info.stallRpm)
    ensures pos == if FirstKeysPresent(cfg, 7) && "position" in cfg then cfg["position"] else [0.0, 0.0, 0.0]
    ensures r.mass == RequiredValue(cfg, 8, info.mass)
    ensures r.torqueCurve == info.torqueCurve && r.idle == info.idle && r.position == info.position
    ensures r.friction == info.friction && r.fuelRate == info.fuelRate
    ensures r.nosMass == info.nosMass && r.nosBoost == info.nosBoost && r.nosFuelRatio == info.nosFuelRatio
  {
    r := info;
    ok := false;
    pos := [0.0, 0.0, 0.0];
    if "displacement" !in cfg { return; }
    r := r.(displacement := Number(cfg["displacement"], 0));
    if "max-power" !in cfg { return; }
    r := r.(maxPower := Number(cfg["max-power"], 0));
    if "peak-engine-rpm" !in cfg { return; }
    r := r.(redline := Number(cfg["peak-engine-rpm"], 0));
    if "rpm-limit" !in cfg { return; }
    r := r.(rpmLimit := Number(cfg["rpm-limit"], 0));
    if "inertia" !in cfg { return; }
    r := r.(inertia := Number(cfg["inertia"], 0));
    if "start-rpm" !in cfg { return; }
    r := r.(startRpm := Number(cfg["start-rpm"], 0));
    if "stall-rpm" !in cfg { return; }
    r := r.(stallRpm := Number(cfg["stall-rpm"], 0));
    if "position" !in cfg {
      assert RequiredKeys[7] == "position";
      return;
    }
    pos := cfg["position"];
    if "mass" !in cfg { return; }
    r := r.(mass := Number(cfg["mass"], 0));
    ok := true;
  }

  /** Reads the engine section: every required key, the optional fuel and
      nitrous keys, and the torque-curve samples; fails when a required key is
      missing or fewer than two samples are found. Every field is stated on
      every path: a failure leaves whatever was written before it. */
  method Load(cfg: Config, info: CarEngineInfo) returns (ok: bool, r: CarEngineInfo)
    requires HasRequiredKeys(cfg) ==> Efficiency(cfg) * HeatingValue(cfg) != 0.0
    ensures ok <==> HasRequiredKeys(cfg) && |TorqueSamples(cfg)| > 1
    ensures r.displacement == RequiredValue(cfg, 0, info.displacement)
    ensures r.maxPower == RequiredValue(cfg, 1, info.maxPower)
    ensures r.redline == RequiredValue(cfg, 2, info.redline)
    ensures r.rpmLimit == RequiredValue(cfg, 3, info.rpmLimit)
    ensures r.inertia == RequiredValue(cfg, 4, info.inertia)
    ensures r.startRpm == RequiredValue(cfg, 5, info.startRpm)
    ensures r.stallRpm == RequiredValue(cfg, 6, info.stallRpm)
    ensures r.mass == RequiredValue(cfg, 8, info.mass)
    ensures HasRequiredKeys(cfg) ==>
      r.friction == HeywoodFriction(r.displacement) &&
      r.fuelRate == FuelRate(Efficiency(cfg), HeatingValue(cfg)) &&
      r.nosMass == ReadOr(cfg, "nos-mass", info.nosMass) &&
      r.nosBoost == ReadOr(cfg, "nos-boost", info.nosBoost) &&
      r.nosFuelRatio == ReadOr(cfg, "nos-ratio", info.nosFuelRatio)
    ensures !HasRequiredKeys(cfg) ==>
      r.friction == info.friction && r.fuelRate == info.fuelRate &&
      r.nosMass == info.nosMass && r.nosBoost == info.nosBoost && r.nosFuelRatio == info.nosFuelRatio
    ensures ok ==>
      r.position == Vec3(Number(cfg["position"], 0), Number(cfg["position"], 1), Number(cfg["position"], 2))
    ensures ok ==> r.torqueCurve == PaddedCurve(TorqueSamples(cfg)) && IsIdleThrottle(r, r.idle)
    ensures !ok ==> r.torqueCurve == info.torqueCurve && r.idle == info.idle && r.position == info.position
  {
    var pos;
    ok, r, pos := LoadRequired(cfg, info);
    if !ok { return; }
    ok := false;

    r := r.(friction := HeywoodFriction(r.displacement));

    // optional keys: a missing one leaves the default or previous value
    r := r.(fuelRate := FuelRate(Efficiency(cfg), HeatingValue(cfg)));

    r := r.(nosMass := ReadOr(cfg, "nos-mass", r.nosMass));
    r := r.(nosBoost := ReadOr(cfg, "nos-boost", r.nosBoost));
    r := r.(nosFuelRatio := ReadOr(cfg, "nos-ratio", r.nosFuelRatio));

    var torque := ReadTorqueSamples(cfg);
    if |torque| <= 1 {
      return;
    }
    r := SetTorqueCurve(r, r.redline, torque);
    ghost var curved := r;
    RequiredKeysInOrder(cfg);
    assert RequiredKeys[7] == "position";
    r := r.(position := Vec3(Number(pos, 0), Number(pos, 1), Number(pos, 2)));
    IsIdleThrottleFrame(r, curved, r.idle);
    ok := true;
  }

  // ---------------------------------------------------------------------------
  // Properties of the torque functions

  /** No combustion torque below 1 rpm, and linear in the throttle above it. */
  lemma TorqueScalesWithThrottle(info: CarEngineInfo, throttle: real, rpm: real)
    ensures rpm < 1.0 ==> info.GetTorque(throttle, rpm) == 0.0
    ensures info.GetTorque(throttle, rpm) == throttle * info.GetTorque(1.0, rpm)
    ensures info.GetTorque(0.0, rpm) == 0.0
  {
  }

  /** Friction is odd in rpm away from 0: reversing the shaft reverses it. */
  lemma FrictionOdd(info: CarEngineInfo, throttle: real, rpm: real)
    requires rpm != 0.0
    ensures info.GetFrictionTorque(throttle, -rpm) == -info.GetFrictionTorque(throttle, rpm)
  {
  }

  /** At rpm 0 the sign convention counts the shaft as turning forward, so
      friction there is the constant term pushing backward. */
  lemma FrictionAtRest(info: CarEngineInfo, throttle: real)
    ensures info.GetFrictionTorque(throttle, 0.0) == -info.friction.c0 * (1.0 - throttle)
  {
  }

  /** Full throttle cancels friction. */
  lemma FrictionVanishesAtFullThrottle(info: CarEngineInfo, rpm: real)
    ensures info.GetFrictionTorque(1.0, rpm) == 0.0
  {
  }

  /** With non-negative coefficients and throttle at most 1, friction never
      helps the shaft turn. */
  lemma FrictionOpposesRotation(info: CarEngineInfo, throttle: real, rpm: real)
    requires info.friction.c0 >= 0.0 && info.friction.c1 >= 0.0 && info.friction.c2 >= 0.0
    requires throttle <= 1.0
    ensures rpm >= 0.0 ==> info.GetFrictionTorque(throttle, rpm) <= 0.0
    ensures rpm < 0.0 ==> info.GetFrictionTorque(throttle, rpm) >= 0.0
  {
    var s := if rpm < 0.0 then -1.0 else 1.0;
    var r := s * rpm;
    assert r >= 0.0;
    var c := info.friction;
    assert c.c1 * r >= 0.0;
    assert c.c2 * r * r >= 0.0 by {
      assert r * r >= 0.0;
      assert c.c2 * (r * r) >= 0.0;
    }
    var f := c.c0 + c.c1 * r + c.c2 * r * r;
    assert f >= 0.0;
    assert f * (1.0 - throttle) >= 0.0;
  }

  /** An engine loaded with a non-negative displacement has friction that
      never helps the shaft turn. */
  lemma LoadedFrictionOpposesRotation(info: CarEngineInfo, throttle: real, rpm: real)
    requires info.friction == HeywoodFriction(info.displacement) && info.displacement >= 0.0
    requires throttle <= 1.0
    ensures rpm >= 0.0 ==> info.GetFrictionTorque(throttle, rpm) <= 0.0
    ensures rpm < 0.0 ==> info.GetFrictionTorque(throttle, rpm) >= 0.0
  {
    FrictionOpposesRotation(info, throttle, rpm);
  }
}
