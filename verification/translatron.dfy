/**
 * The Translatron's abort ("PANIC") sequence and its bookkeeping of the thrust
 * and attitude controllers' user pools (MechJebModuleTranslatron.cs).
 *
 * The game is not part of this model: what the module reads from it (the
 * universal time, the vertical speed, the angle between the up and forward
 * vectors, whether the vessel is landed or splashed, the part list, the last stage
 * and whether the vessel is the active one) is passed in, and every call the
 * module makes into the game, the landing autopilot or the controllers that is
 * not a change of a modelled field is appended to an effect log.
 */
module Translatron {

  /** The stages of the abort sequence, in the order the sequence runs through them. */
  datatype AbortStage = OFF | THRUSTOFF | DECOUPLE | BURNUP | LAND | LANDING

  /** The thrust controller's modes that this module uses. */
  datatype TMode = OFF | KEEP_ORBITAL | KEEP_SURFACE | KEEP_VERTICAL | DIRECT

  /** What the module reads of a part of the vessel. */
  datatype Part = Part(inverseStage: int, hasEngine: bool, hasDecouple: bool, hasAnchoredDecoupler: bool)

  /** Calls the module makes outside its own fields, in the order it makes them. */
  datatype Effect =
    | ThrustOff                 // thrust controller ThrustOff()
    | AttitudeDeactivate        // attitude controller attitudeDeactivate()
    | StopLanding               // landing autopilot StopLanding()
    | LandUntargeted            // landing autopilot LandUntargeted(this)
    | SetNeutralControls        // flight input handler SetNeutralControls()
    | AttitudeToUp              // attitude controller attitudeTo(up, SURFACE_NORTH, this)
    | ForceActivate(part: nat)  // force_activate() of the part at this index
    | ActivateStage(stage: int) // stage manager ActivateStage(stage)

  /** What one Drive call reads from the game about the vessel. */
  datatype Env = Env(now: real, speedVertical: real, landedOrSplashed: bool)

  /** The abort sequence's own state. */
  datatype Abort = Abort(stage: AbortStage, burnUpTime: real)

  /** The stage the abort sequence moves to from s, when it moves. */
  function Next(s: AbortStage): AbortStage
  {
    match s
    case OFF => AbortStage.OFF
    case THRUSTOFF => DECOUPLE
    case DECOUPLE => BURNUP
    case BURNUP => LAND
    case LAND => LANDING
    case LANDING => AbortStage.OFF
  }

  /** The number of Drive calls, at the least, from s until the sequence is OFF. */
  function StagesLeft(s: AbortStage): nat
  {
    match s
    case OFF => 0
    case THRUSTOFF => 5
    case DECOUPLE => 4
    case BURNUP => 3
    case LAND => 2
    case LANDING => 1
  }

  /** BURNUP keeps climbing until two seconds have passed and the vertical speed is 10 m/s. */
  predicate BurnUpContinues(burnUpTime: real, env: Env)
  {
    env.now - burnUpTime < 2.0 || env.speedVertical < 10.0
  }

  /** The abort sequence's state after one Drive call. */
  function AbortStep(a: Abort, env: Env): Abort
  {
    match a.stage
    case OFF => a
    case THRUSTOFF => a.(stage := DECOUPLE)
    case DECOUPLE => Abort(BURNUP, env.now)
    case BURNUP => if BurnUpContinues(a.burnUpTime, env) then a else a.(stage := LAND)
    case LAND => a.(stage := LANDING)
    case LANDING => if env.landedOrSplashed then a.(stage := AbortStage.OFF) else a
  }

  /**
   * One Drive call leaves OFF alone and otherwise moves at most one stage on;
   * THRUSTOFF, DECOUPLE and LAND always move on, BURNUP only once the burn-up is
   * over and LANDING only on the ground; only DECOUPLE sets burnUpTime.
   */
  lemma AbortStepMoves(a: Abort, env: Env)
    ensures var r := AbortStep(a, env);
      && (a.stage == AbortStage.OFF ==> r == a)
      && (r.stage == a.stage || r.stage == Next(a.stage))
      && (a.stage in {THRUSTOFF, DECOUPLE, LAND} ==> r.stage == Next(a.stage))
      && (r.burnUpTime != a.burnUpTime ==> a.stage == DECOUPLE)
      && (a.stage == DECOUPLE ==> r.burnUpTime == env.now)
      && (a.stage == BURNUP && r.stage != BURNUP ==> env.now - a.burnUpTime >= 2.0 && env.speedVertical >= 10.0)
      && (a.stage == LANDING && r.stage != LANDING ==> env.landedOrSplashed)
  {
  }

  /** The abort sequence's state after one Drive call per entry of envs. */
  function Run(a: Abort, envs: seq<Env>): Abort
    decreases |envs|
  {
    if envs == [] then a else Run(AbortStep(a, envs[0]), envs[1..])
  }

  /**
   * The sequence never skips a stage: from a stage s it takes at least
   * StagesLeft(s) Drive calls to get back to OFF, five from THRUSTOFF.
   */
  lemma {:induction false} RunNeedsAllStages(a: Abort, envs: seq<Env>)
    requires Run(a, envs).stage == AbortStage.OFF
    ensures |envs| >= StagesLeft(a.stage)
    decreases |envs|
  {
    if envs != [] {
      var a' := AbortStep(a, envs[0]);
      RunNeedsAllStages(a', envs[1..]);
      AbortStepMoves(a, envs[0]);
      assert StagesLeft(a'.stage) + 1 >= StagesLeft(a.stage);
    }
  }

  /**
   * Five Drive calls suffice from THRUSTOFF when, two seconds after DECOUPLE, the
   * vessel climbs at 10 m/s, and it is landed at the fifth call.
   */
  lemma AbortCanFinishInFiveDrives(t: real, burn: real)
    ensures var envs := [Env(t, 0.0, false), Env(t, 0.0, false), Env(t + 2.0, 10.0, false),
                         Env(t + 2.0, 10.0, false), Env(t + 2.0, 10.0, true)];
      Run(Abort(THRUSTOFF, burn), envs) == Abort(AbortStage.OFF, t)
  {
    var envs := [Env(t, 0.0, false), Env(t, 0.0, false), Env(t + 2.0, 10.0, false),
                 Env(t + 2.0, 10.0, false), Env(t + 2.0, 10.0, true)];
    var a0 := Abort(THRUSTOFF, burn);
    var a1 := Abort(DECOUPLE, burn);
    var a2 := Abort(BURNUP, t);
    var a3 := Abort(LAND, t);
    var a4 := Abort(LANDING, t);
    assert Run(a0, envs) == Run(a1, envs[1..]);
    assert Run(a1, envs[1..]) == Run(a2, envs[2..]);
    assert Run(a2, envs[2..]) == Run(a3, envs[3..]);
    assert Run(a3, envs[3..]) == Run(a4, envs[4..]);
    assert Run(a4, envs[4..]) == Run(Abort(AbortStage.OFF, t), envs[5..]);
  }

  /**
   * The lowest inverse stage among LastStage and the engine parts: the stage
   * recursiveDecouple activates.
   */
  function MinStage(parts: seq<Part>, lastStage: int): int
    decreases |parts|
  {
    if parts == [] then lastStage
    else
      var m := MinStage(parts[..|parts| - 1], lastStage);
      var p := parts[|parts| - 1];
      if p.hasEngine && p.inverseStage < m then p.inverseStage else m
  }

  /** MinStage is the minimum of LastStage and the engines' inverse stages. */
  lemma {:induction false} MinStageIsMinimum(parts: seq<Part>, lastStage: int)
    ensures MinStage(parts, lastStage) <= lastStage
    ensures forall k :: 0 <= k < |parts| && parts[k].hasEngine ==> MinStage(parts, lastStage) <= parts[k].inverseStage
    ensures || MinStage(parts, lastStage) == lastStage
            || exists k :: 0 <= k < |parts| && parts[k].hasEngine && MinStage(parts, lastStage) == parts[k].inverseStage
    decreases |parts|
  {
    if parts != [] {
      var n := |parts| - 1;
      MinStageIsMinimum(parts[..n], lastStage);
      assert forall k :: 0 <= k < n ==> parts[..n][k] == parts[k];
    }
  }

  /** A part recursiveDecouple fires: a decoupler above the stage it will activate. */
  predicate Fires(p: Part, minStage: int)
  {
    p.inverseStage > minStage && (p.hasDecouple || p.hasAnchoredDecoupler)
  }

  /** The indices of the parts that fire, in part order. */
  function Decouplers(parts: seq<Part>, minStage: int): seq<nat>
    decreases |parts|
  {
    if parts == [] then []
    else
      var n := |parts| - 1;
      Decouplers(parts[..n], minStage) + (if Fires(parts[n], minStage) then [n] else [])
  }

  /** Decouplers selects exactly the parts that fire, each once, in part order. */
  lemma {:induction false} DecouplersSelect(parts: seq<Part>, minStage: int)
    ensures forall k: nat :: k in Decouplers(parts, minStage) <==> k < |parts| && Fires(parts[k], minStage)
    ensures var ds := Decouplers(parts, minStage); forall i, j :: 0 <= i < j < |ds| ==> ds[i] < ds[j]
    decreases |parts|
  {
    if parts != [] {
      var n := |parts| - 1;
      var ds := Decouplers(parts[..n], minStage);
      DecouplersSelect(parts[..n], minStage);
      assert forall k :: 0 <= k < n ==> parts[..n][k] == parts[k];
      forall i | 0 <= i < |ds|
        ensures ds[i] < n
      {
        var k: nat := ds[i];
        assert k in Decouplers(parts[..n], minStage);
      }
      var r := ds + (if Fires(parts[n], minStage) then [n] else []);
      assert Decouplers(parts, minStage) == r;
      forall i, j | 0 <= i < j < |r|
        ensures r[i] < r[j]
      {
        assert r[i] == ds[i];
      }
    }
  }

  /** One ForceActivate effect per index, in order. */
  function ForceActivations(ds: seq<nat>): (es: seq<Effect>)
    ensures |es| == |ds|
    ensures forall k :: 0 <= k < |ds| ==> es[k] == ForceActivate(ds[k])
    decreases |ds|
  {
    if ds == [] then [] else ForceActivations(ds[..|ds| - 1]) + [ForceActivate(ds[|ds| - 1])]
  }

  /** MinStage over one more part. */
  lemma MinStageStep(parts: seq<Part>, i: nat, lastStage: int)
    requires i < |parts|
    ensures MinStage(parts[..i + 1], lastStage)
         == var m := MinStage(parts[..i], lastStage);
            if parts[i].hasEngine && parts[i].inverseStage < m then parts[i].inverseStage else m
  {
    assert parts[..i + 1][..i] == parts[..i];
  }

  /** Decouplers over one more part. */
  lemma DecouplersStep(parts: seq<Part>, i: nat, minStage: int)
    requires i < |parts|
    ensures Decouplers(parts[..i + 1], minStage)
         == Decouplers(parts[..i], minStage) + (if Fires(parts[i], minStage) then [i] else [])
  {
    assert parts[..i + 1][..i] == parts[..i];
  }

  /** ForceActivations over one more index. */
  lemma ForceActivationsStep(ds: seq<nat>, i: nat)
    requires i < |ds|
    ensures ForceActivations(ds[..i + 1]) == ForceActivations(ds[..i]) + [ForceActivate(ds[i])]
  {
    assert ds[..i + 1][..i] == ds[..i];
  }

  /** What recursiveDecouple logs. */
  function DecoupleEffects(parts: seq<Part>, lastStage: int, isActiveVessel: bool): seq<Effect>
  {
    var minStage := MinStage(parts, lastStage);
    ForceActivations(Decouplers(parts, minStage)) + (if isActiveVessel then [ActivateStage(minStage)] else [])
  }

  /**
   * What recursiveDecouple logs, stated by what it means: a part is
   * force-activated exactly when it fires, and a stage is activated only on the
   * active vessel and only the minimum stage.
   */
  lemma DecoupleEffectsSelect(parts: seq<Part>, lastStage: int, isActiveVessel: bool)
    ensures var es := DecoupleEffects(parts, lastStage, isActiveVessel);
      var m := MinStage(parts, lastStage);
      && (forall k: nat :: ForceActivate(k) in es <==> k < |parts| && Fires(parts[k], m))
      && (isActiveVessel <==> ActivateStage(m) in es)
      && (forall st :: ActivateStage(st) in es ==> st == m)
  {
    var m := MinStage(parts, lastStage);
    var ds := Decouplers(parts, m);
    var fs := ForceActivations(ds);
    var tail: seq<Effect> := if isActiveVessel then [ActivateStage(m)] else [];
    var es := fs + tail;
    assert es == DecoupleEffects(parts, lastStage, isActiveVessel);
    DecouplersSelect(parts, m);
    forall k: nat
      ensures ForceActivate(k) in es <==> k in ds
    {
      if ForceActivate(k) in es {
        var i :| 0 <= i < |es| && es[i] == ForceActivate(k);
        assert i < |fs|;
        assert ds[i] == k;
      }
      if k in ds {
        var i :| 0 <= i < |ds| && ds[i] == k;
        assert es[i] == ForceActivate(k);
      }
    }
    forall st | ActivateStage(st) in es
      ensures st == m
    {
      var i :| 0 <= i < |es| && es[i] == ActivateStage(st);
      assert i >= |fs|;
    }
    if isActiveVessel {
      assert es[|fs|] == ActivateStage(m);
    }
  }

  /** What the abort switch of one Drive call logs. */
  function DriveEffects(a: Abort, env: Env, parts: seq<Part>, lastStage: int, isActiveVessel: bool): seq<Effect>
  {
    match a.stage
    case THRUSTOFF => [SetNeutralControls]
    case DECOUPLE => DecoupleEffects(parts, lastStage, isActiveVessel)
    case BURNUP => if BurnUpContinues(a.burnUpTime, env) then [AttitudeToUp] else []
    case LAND => [LandUntargeted]
    case _ => []
  }

  /** The thrust controller's fields that this module reads or writes. */
  class ThrustController {
    var tmode: TMode
    var transSpdAct: real
    var transKillH: bool
    var users: set<object>

    constructor (tmode: TMode, transSpdAct: real, transKillH: bool, users: set<object>)
      ensures this.tmode == tmode && this.transSpdAct == transSpdAct
      ensures this.transKillH == transKillH && this.users == users
    {
      this.tmode, this.transSpdAct, this.transKillH, this.users := tmode, transSpdAct, transKillH, users;
    }
  }

  /** The attitude controller's user pool. */
  class AttitudeController {
    var users: set<object>

    constructor (users: set<object>)
      ensures this.users == users
    {
      this.users := users;
    }
  }

  /** The flight control state Drive is handed each frame. */
  class FlightCtrlState {
    var mainThrottle: real

    constructor (mainThrottle: real)
      ensures this.mainThrottle == mainThrottle
    {
      this.mainThrottle := mainThrottle;
    }
  }

  class ModuleTranslatron {
    var abort: AbortStage
    var burnUpTime: real
    var transSpd: real
    var effects: seq<Effect>
    const thrust: ThrustController
    const attitude: AttitudeController

    constructor (thrust: ThrustController, attitude: AttitudeController)
      ensures abort == AbortStage.OFF && burnUpTime == 0.0 && transSpd == 0.0 && effects == []
      ensures this.thrust == thrust && this.attitude == attitude
    {
      abort := AbortStage.OFF;
      burnUpTime := 0.0;
      transSpd := 0.0;
      effects := [];
      this.thrust := thrust;
      this.attitude := attitude;
    }

    /**
     * Stores the new thrust mode. Only on a change of mode does it reset the
     * commanded speed (toInt16 is .NET's Convert.ToInt16) and join or leave the
     * thrust controller's users.
     */
    method SetMode(newMode: TMode, toInt16: real -> int)
      modifies thrust
      ensures thrust.tmode == newMode
      ensures thrust.transKillH == old(thrust.transKillH)
      ensures old(thrust.tmode) == newMode ==>
        thrust.transSpdAct == old(thrust.transSpdAct) && thrust.users == old(thrust.users)
      ensures old(thrust.tmode) != newMode ==> thrust.transSpdAct == toInt16(transSpd) as real
      ensures old(thrust.tmode) != newMode && newMode == TMode.OFF ==> thrust.users == old(thrust.users) - {this}
      ensures old(thrust.tmode) != newMode && newMode != TMode.OFF ==> thrust.users == old(thrust.users) + {this}
    {
      var oldMode := thrust.tmode;
      thrust.tmode := newMode;
      if thrust.tmode != oldMode {
        thrust.transSpdAct := toInt16(transSpd) as real;
        if thrust.tmode == TMode.OFF {
          thrust.users := thrust.users - {this};
        } else {
          thrust.users := thrust.users + {this};
        }
      }
    }

    /**
     * The PANIC button. From OFF it starts the sequence and takes over thrust;
     * from any other stage it stops the sequence, handing over to nothing when
     * landing and otherwise cutting thrust and releasing both controllers.
     */
    method PanicSwitch()
      modifies this, thrust
      ensures burnUpTime == old(burnUpTime) && transSpd == old(transSpd)
      ensures thrust.tmode == old(thrust.tmode) && thrust.transSpdAct == old(thrust.transSpdAct)
      ensures thrust.transKillH == old(thrust.transKillH)
      ensures old(abort) == AbortStage.OFF ==>
        abort == THRUSTOFF && thrust.users == old(thrust.users) + {this} && effects == old(effects)
      ensures old(abort) in {LAND, LANDING} ==>
        abort == AbortStage.OFF && thrust.users == old(thrust.users) && effects == old(effects) + [StopLanding]
      ensures old(abort) in {THRUSTOFF, DECOUPLE, BURNUP} ==>
        && abort == AbortStage.OFF && thrust.users == old(thrust.users) - {this}
        && effects == old(effects) + [ThrustOff, AttitudeDeactivate]
    {
      if abort != AbortStage.OFF {
        if abort == LAND || abort == LANDING {
          effects := effects + [StopLanding];
        } else {
          effects := effects + [ThrustOff];
          thrust.users := thrust.users - {this};
          effects := effects + [AttitudeDeactivate];
        }
        abort := AbortStage.OFF;
      } else {
        abort := THRUSTOFF;
        thrust.users := thrust.users + {this};
      }
    }

    /**
     * Fires every decoupler above the lowest engine stage (or LastStage), then
     * activates that stage if this is the active vessel.
     */
    method RecursiveDecouple(parts: seq<Part>, lastStage: int, isActiveVessel: bool)
      modifies this`effects
      ensures effects == old(effects) + DecoupleEffects(parts, lastStage, isActiveVessel)
    {
      var minStage := lastStage;
      for i := 0 to |parts|
        invariant minStage == MinStage(parts[..i], lastStage)
        invariant effects == old(effects)
      {
        MinStageStep(parts, i, lastStage);
        if parts[i].hasEngine {
          if parts[i].inverseStage < minStage {
            minStage := parts[i].inverseStage;
          }
        }
      }
      assert parts[..|parts|] == parts;
      var decouplers: seq<nat> := [];
      for i := 0 to |parts|
        invariant decouplers == Decouplers(parts[..i], minStage)
        invariant effects == old(effects)
      {
        DecouplersStep(parts, i, minStage);
        if parts[i].inverseStage > minStage && (parts[i].hasDecouple || parts[i].hasAnchoredDecoupler) {
          decouplers := decouplers + [i];
        }
      }
      assert parts[..|parts|] == parts;
      assert decouplers[..0] == [] && old(effects) + [] == old(effects);
      for i := 0 to |decouplers|
        invariant effects == old(effects) + ForceActivations(decouplers[..i])
      {
        ForceActivationsStep(decouplers, i);
        effects := effects + [ForceActivate(decouplers[i])];
      }
      assert decouplers[..|decouplers|] == decouplers;
      if isActiveVessel {
        effects := effects + [ActivateStage(minStage)];
      }
    }

    /**
     * One frame: first bring the attitude users in line with the horizontal-speed
     * killer, then advance the abort sequence by at most one stage.
     */
    method Drive(s: FlightCtrlState, env: Env, upForwardAngle: real,
                 parts: seq<Part>, lastStage: int, isActiveVessel: bool)
      modifies this, thrust, attitude, s
      ensures this in attitude.users <==> old(thrust.transKillH) && old(thrust.tmode) != TMode.OFF
      ensures attitude.users - {this} == old(attitude.users) - {this}
      ensures Abort(abort, burnUpTime) == AbortStep(Abort(old(abort), old(burnUpTime)), env)
      ensures transSpd == old(transSpd) && thrust.transKillH == old(thrust.transKillH)
      ensures s.mainThrottle == if old(abort) == THRUSTOFF then 0.0 else old(s.mainThrottle)
      ensures thrust.users == if old(abort) == LAND then old(thrust.users) - {this} else old(thrust.users)
      ensures old(abort) == BURNUP && BurnUpContinues(old(burnUpTime), env) ==>
        && thrust.tmode == DIRECT
        && thrust.transSpdAct == (if (if upForwardAngle < 0.0 then -upForwardAngle else upForwardAngle) < 90.0 then 100.0 else 0.0)
      ensures !(old(abort) == BURNUP && BurnUpContinues(old(burnUpTime), env)) ==>
        thrust.tmode == old(thrust.tmode) && thrust.transSpdAct == old(thrust.transSpdAct)
      ensures effects == old(effects) + DriveEffects(Abort(old(abort), old(burnUpTime)), env, parts, lastStage, isActiveVessel)
    {
      if this !in attitude.users && (thrust.transKillH && thrust.tmode != TMode.OFF) {
        attitude.users := attitude.users + {this};
      }
      if this in attitude.users && (!thrust.transKillH || thrust.tmode == TMode.OFF) {
        attitude.users := attitude.users - {this};
      }
      assert this in attitude.users <==> thrust.transKillH && thrust.tmode != TMode.OFF;
      assert attitude.users - {this} == old(attitude.users) - {this};

      if abort != AbortStage.OFF {
        match abort {
          case THRUSTOFF =>
            effects := effects + [SetNeutralControls];
            s.mainThrottle := 0.0;
            abort := DECOUPLE;
          case DECOUPLE =>
            RecursiveDecouple(parts, lastStage, isActiveVessel);
            abort := BURNUP;
            burnUpTime := env.now;
          case BURNUP =>
            if env.now - burnUpTime < 2.0 || env.speedVertical < 10.0 {
              thrust.tmode := DIRECT;
              effects := effects + [AttitudeToUp];
              var intError := if upForwardAngle < 0.0 then -upForwardAngle else upForwardAngle;
              thrust.transSpdAct := if intError < 90.0 then 100.0 else 0.0;
            } else {
              abort := LAND;
            }
          case LAND =>
            thrust.users := thrust.users - {this};
            effects := effects + [LandUntargeted];
            abort := LANDING;
          case LANDING =>
            if env.landedOrSplashed {
              abort := AbortStage.OFF;
            }
          case OFF =>
        }
      }
    }
  }
}
