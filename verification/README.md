# Vacuum coast and Translatron abort sequence (MechJeb2)

This project models two small pieces of the MechJeb2 flight computer and proves
properties of them.

**The vacuum-coast step of the PVG guidance integrator** (`VacuumCoastAnalytic`).
- One coast calls the two-body solver with μ = 1 over `tf - t0`. The solver returns the final position, the final velocity and the four 3x3 blocks of the state-transition matrix.
- The coast then overwrites the slots of the output state buffer in order: R, V, PV, PR, Pm, DV.
- The recording overload coasts from `t0` to each of 20 evenly spaced times, re-filling the output buffer each time.
- It stores the input and the 20 results in an interpolant and appends one segment `(t0, tf, interpolant, phase)` to the solution.

**The Translatron's abort ("PANIC") state machine** (`MechJebModuleTranslatron`).
- `PanicSwitch` starts or stops the sequence.
- Each `Drive` call moves it on by at most one stage: THRUSTOFF → DECOUPLE → BURNUP → LAND → LANDING → OFF.
- `recursiveDecouple` fires every decoupler above the lowest engine stage, then activates that stage when the vessel is the active one.
- `SetMode` and the head of `Drive` keep the module's membership of the thrust and attitude controllers' user pools in line with the thrust mode.

Files:
- `linalg.dfy` (module `LinAlg`): exact 3-vectors and 3x3 matrices over `real`, and the algebra lemmas the proofs use.
- `vacuum_coast.dfy` (module `VacuumCoast`): the state buffer, interpolant and solution classes and both `Integrate` overloads. It also holds the specification functions `CoastStep`, `SampleTime`, `Chain` and `Recorded`, and the lemmas about them.
- `coast_findings.dfy` (module `CoastFindings`): the two findings below, each with an as-written counterexample and a corrected coast with its property proved.
- `translatron.dfy` (module `Translatron`): the abort stages, the abort step as a function, the decoupler selection functions, the controller classes and the `ModuleTranslatron` class.

Modelling choices:
- `Shepperd.Solve2` is not part of this model. It is a function-valued parameter `solve` of every coast member. Its results are exact reals.
- `ArrayWrapper.Rent` is read as a view of the buffer it wraps. The input and output buffers may therefore be one object. The recording overload's specification carries an `aliased` flag for that case.
- The adjoint update is meant to map the old costate pair (PV, PR) at the same time, with the solver started from the input's position and velocity. The code starts the solver from the output buffer's velocity, reads PV and PR from the output buffer, and computes PR from the already-updated PV. The model follows the code. The "## Findings" section states the difference.
- Calls the Translatron makes into the game, the landing autopilot or the controllers are appended to an `effects` log on the module. These include neutral controls, `attitudeTo`, `ThrustOff`, `attitudeDeactivate`, `StopLanding`, `LandUntargeted`, `force_activate` and `ActivateStage`.
- What `Drive` reads from the game is passed in as parameters: the universal time, the vertical speed, the up/forward angle, the landed flag, the part list, the last stage and whether the vessel is the active one.
- `Convert.ToInt16` is a parameter `toInt16`.

## Model

| member | source | states |
|---|---|---|
| `VacuumCoast.Integrate` | MechJeb2/MechJebLib/PVG/Integrators/VacuumCoastAnalytic.cs:16-32 | R and V are the solver's rf and vf for μ = 1 and elapsed time tf - t0, started from the input's R and the output buffer's V. PV becomes stm00·PV + stm01·PR from the output buffer's old costates. PR becomes stm10·(new PV) + stm11·(old PR). Pm and DV are the input's. The input buffer is untouched unless it is the output buffer, and `phase` plays no part. |
| `VacuumCoast.CoastIgnoresOutputPositionMassDv` | MechJeb2/MechJebLib/PVG/Integrators/VacuumCoastAnalytic.cs:21-31 | The output buffer's previous R, Pm and DV have no influence on the coast's result. |
| `VacuumCoast.CoastIgnoresInputVelocityCostates` | MechJeb2/MechJebLib/PVG/Integrators/VacuumCoastAnalytic.cs:21-31 | The input buffer's V, PV and PR have no influence on the coast's result; only its R, Pm and DV are read. |
| `VacuumCoast.CoastCostateEffectiveBlocks` | MechJeb2/MechJebLib/PVG/Integrators/VacuumCoastAnalytic.cs:26-27 | Because PR is computed after PV, the old costate pair is mapped to PR by the blocks (stm10·stm00, stm10·stm01 + stm11), not by (stm10, stm11). |
| `VacuumCoast.CoastIdentityStmKeepsCostates` | MechJeb2/MechJebLib/PVG/Integrators/VacuumCoastAnalytic.cs:26-27 | With identity diagonal blocks and zero off-diagonal blocks, PV and PR come out as the output buffer held them. |
| `VacuumCoast.Interpolant.Add` | MechJeb2/MechJebLib/PVG/Integrators/VacuumCoastAnalytic.cs:42 | Adding a sample appends exactly (t, snapshot of the buffer) to the samples. |
| `VacuumCoast.Solution.AddSegment` | MechJeb2/MechJebLib/PVG/Integrators/VacuumCoastAnalytic.cs:45 | Adding a segment appends exactly (t0, tf, interpolant, phase) to the segments. |
| `VacuumCoast.RecordedShape` | MechJeb2/MechJebLib/PVG/Integrators/VacuumCoastAnalytic.cs:36-43 | After n sub-steps the recorded samples are n + 1 samples: (t0, input) first, then (sample time k, result of sub-step k) for k = 1..n. |
| `VacuumCoast.IntegrateWithSolution` | MechJeb2/MechJebLib/PVG/Integrators/VacuumCoastAnalytic.cs:34-46 | Exactly one segment is appended and the earlier segments are kept. The segment is (t0, tf, a new interpolant, phase), and the interpolant's samples are the 21 recorded ones. The output buffer holds the 20th sub-step's result. The input buffer is untouched unless it is the output buffer. |
| `VacuumCoast.SampleTimeEnds` | MechJeb2/MechJebLib/PVG/Integrators/VacuumCoastAnalytic.cs:40 | Sample 0 is at t0 and, in exact arithmetic, sample 20 is at tf. |
| `VacuumCoast.SampleTimesIncrease` | MechJeb2/MechJebLib/PVG/Integrators/VacuumCoastAnalytic.cs:38-40 | On an arc with t0 < tf, a later sample index has a strictly later time. |
| `VacuumCoast.RecordedSchedule` | MechJeb2/MechJebLib/PVG/Integrators/VacuumCoastAnalytic.cs:36-43 | A recorded arc has 21 samples. The first is (t0, input). Sample k is at t0 + (tf - t0)·k/20, the last is (tf, 20th result), and the times strictly increase when t0 < tf. |
| `VacuumCoast.SubStepsStartAtT0` | MechJeb2/MechJebLib/PVG/Integrators/VacuumCoastAnalytic.cs:38-42 | Sub-step k coasts over (tf - t0)·k/20 from t0, not over one sub-interval from the previous sample time. The last sub-step coasts over the whole arc. |
| `CoastFindings.ZeroCoastKeepsOutputVelocity` | MechJeb2/MechJebLib/PVG/Integrators/VacuumCoastAnalytic.cs:21-27 | A zero-length coast with an identity solver returns the input's R, Pm and DV but the output buffer's old V, PV and PR. |
| `CoastFindings.ZeroCoastCounterexample` | MechJeb2/MechJebLib/PVG/Integrators/VacuumCoastAnalytic.cs:21-24 | Take an input moving at (1, 0, 0), a zeroed output buffer and a solver that is the identity at Δt = 0. The zero-length coast then writes velocity 0 and does not return its input. |
| `CoastFindings.IntendedZeroCoastIdentity` | MechJeb2/MechJebLib/PVG/Integrators/VacuumCoastAnalytic.cs:21-27 | The corrected coast, which reads everything from the input, returns its input unchanged over Δt = 0 with an identity solver. |
| `CoastFindings.FrozenCoastKeepsOutput` | MechJeb2/MechJebLib/PVG/Integrators/VacuumCoastAnalytic.cs:21-27 | As written, over a solver that is the identity at every elapsed time, a coast of any length keeps the output buffer's V, PV and PR and takes only R, Pm and DV from the input. |
| `CoastFindings.FrozenChainKeepsOutputVelocity` | MechJeb2/MechJebLib/PVG/Integrators/VacuumCoastAnalytic.cs:38-42 | As written, over that solver, every sub-step of the recording overload hands back the velocity the output buffer held before recording started. |
| `CoastFindings.RecordedSegmentCounterexample` | MechJeb2/MechJebLib/PVG/Integrators/VacuumCoastAnalytic.cs:36-45 | With distinct buffers, an input moving at (1, 0, 0) and a zeroed output buffer, the 20th sub-step's result, which is the last recorded sample, has velocity 0. The corrected coast over the whole arc keeps velocity (1, 0, 0). |
| `CoastFindings.IntendedRoundTrip` | MechJeb2/MechJebLib/PVG/Integrators/VacuumCoastAnalytic.cs:26-27 | The corrected coast, with a simultaneous costate update, coasted by Δt and then by -Δt over a reversible solver, returns the whole state, costates included. |
| `CoastFindings.SwappingReversible` | MechJeb2/MechJebLib/PVG/Integrators/VacuumCoastAnalytic.cs:21 | The solver used in the second counterexample satisfies the reversibility premise of the round trip. |
| `CoastFindings.SequentialRoundTripCounterexample` | MechJeb2/MechJebLib/PVG/Integrators/VacuumCoastAnalytic.cs:26-27 | As written, coasting a buffer in place by 1 and back by -1 over that reversible solver, from PV = 0 and PR = w ≠ 0, ends with PV = w. The state does not come back. |
| `Translatron.AbortStepMoves` | MechJeb2/MechJebModuleTranslatron.cs:225-263 | OFF is left alone. Any other stage stays or moves to its successor, never further. THRUSTOFF, DECOUPLE and LAND always move on. Only DECOUPLE changes burnUpTime, and it sets it to the current time. BURNUP moves on only when two seconds have passed and the vertical speed is at least 10. LANDING moves on only when landed or splashed. |
| `Translatron.RunNeedsAllStages` | MechJeb2/MechJebModuleTranslatron.cs:225-263 | Getting from a stage back to OFF takes at least as many Drive calls as there are stages left: five from THRUSTOFF. |
| `Translatron.AbortCanFinishInFiveDrives` | MechJeb2/MechJebModuleTranslatron.cs:225-263 | Five Drive calls are enough from THRUSTOFF: climbing at 10 m/s two seconds after DECOUPLE and landed at the fifth call. |
| `Translatron.MinStageIsMinimum` | MechJeb2/MechJebModuleTranslatron.cs:185-197 | The stage to activate is at most LastStage and at most every engine's inverse stage. It is LastStage or some engine's inverse stage, so it is the minimum. |
| `Translatron.DecouplersSelect` | MechJeb2/MechJebModuleTranslatron.cs:198-207 | An index is selected exactly when that part has a decoupler module and an inverse stage above the minimum stage. Indices come in strictly increasing part order. |
| `Translatron.ForceActivations` | MechJeb2/MechJebModuleTranslatron.cs:208-211 | One force-activation per selected part, in the order of selection. |
| `Translatron.DecoupleEffectsSelect` | MechJeb2/MechJebModuleTranslatron.cs:183-216 | In what recursiveDecouple logs, a part is force-activated exactly when it is a decoupler above the minimum stage. The minimum stage is activated exactly when this is the active vessel, and no other stage is ever activated. |
| `Translatron.ModuleTranslatron.constructor` | MechJeb2/MechJebModuleTranslatron.cs:27-33 | A new module starts with the abort sequence OFF, burnUpTime 0 and trans_spd 0. |
| `Translatron.ModuleTranslatron.SetMode` | MechJeb2/MechJebModuleTranslatron.cs:141-158 | The new mode is always stored. On a real change of mode, trans_spd_act becomes the Int16 conversion of trans_spd, and the module leaves the thrust pool for OFF and joins it otherwise. An unchanged mode changes nothing else. |
| `Translatron.ModuleTranslatron.PanicSwitch` | MechJeb2/MechJebModuleTranslatron.cs:160-181 | From OFF: THRUSTOFF, the module joins the thrust pool, and nothing is logged. From LAND or LANDING: OFF, and the only call made is the one stopping the landing autopilot. From any other stage: OFF, the module leaves the thrust pool, and the ThrustOff call and then the attitude-deactivation call are logged. What those calls do to the controllers is not modelled, so the unchanged tmode and attitude pool are facts about the model only. |
| `Translatron.ModuleTranslatron.RecursiveDecouple` | MechJeb2/MechJebModuleTranslatron.cs:183-216 | The log gains one force-activation per selected decoupler, in part order. It then gains the activation of the minimum stage only when this is the active vessel. |
| `Translatron.ModuleTranslatron.Drive` | MechJeb2/MechJebModuleTranslatron.cs:218-266 | The two head statements put the module in the attitude pool exactly when trans_kill_h holds and tmode is not OFF, and change nobody else's membership. Nothing later in the model changes the pool, because `attitudeTo` is only logged. The abort state advances by `AbortStep`. THRUSTOFF zeroes the main throttle. A BURNUP that continues sets tmode DIRECT and trans_spd_act to 100 when the up/forward angle is below 90, else 0. LAND removes the module from the thrust pool. The log gains exactly that stage's effects. |

## Findings

| source | as written | input that shows it | evidently intended | confidence | as-written member | corrected member |
|---|---|---|---|---|---|---|
| MechJeb2/MechJebLib/PVG/Integrators/VacuumCoastAnalytic.cs:21-27 | The solver is started from the output buffer's velocity `yf.V`, and PV and PR are read from the output buffer. The coast's result therefore depends on whatever the output buffer held before. | t0 = tf, input at the origin moving at (1, 0, 0), output buffer zeroed, solver the identity at Δt = 0: the coast writes velocity 0. With a solver that is the identity at every Δt, the last sample of a recorded segment also has velocity 0. | Propagate from the input's position and velocity and map the input's costates, so that a zero-length coast returns its input. | not executed | `CoastFindings.ZeroCoastCounterexample` | `CoastFindings.IntendedZeroCoastIdentity` |
| MechJeb2/MechJebLib/PVG/Integrators/VacuumCoastAnalytic.cs:26-27 | PR is computed from the PV just written, so the pair is mapped by (stm10·stm00, stm10·stm01 + stm11) instead of the state-transition matrix's own blocks. | A solver whose blocks are [[0, I], [I, 0]] at every Δt, which is its own inverse. Coast in place by 1 and back by -1 from PV = 0, PR = (1, 0, 0): PV ends at (1, 0, 0). | Update PV and PR simultaneously from the old pair, so that a forward and backward coast over a reversible solver returns the costates. | not executed | `CoastFindings.SequentialRoundTripCounterexample` | `CoastFindings.IntendedRoundTrip` |

The rest of the model (`VacuumCoast`) keeps the code's behaviour as written. The corrected step `CoastFindings.IntendedCoastStep` stands beside it.

## Left out

- `Shepperd.Solve2` is not part of this model. It is the parameter `solve`, with exact results and no convergence failure. The floating-point universal-variable solve and its error path are not modelled.
- The Translatron's doubles and floats are exact reals: the universal time, `burnUpTime`, `speedVertical`, the up/forward angle, `trans_spd` and the float `trans_spd_act`. The comparisons `now - burnUpTime < 2`, `speedVertical < 10` and `angle < 90` are decided exactly, without rounding.
- VacuumCoast.Interpolant.Add: `Hn.Add` is not part of this model. The model stores a value snapshot of the buffer at each call. If `Hn.Add` kept a reference to the `yfout` array instead, the 20 samples would all show the last result; the model does not capture that.
- The V3 and M3 types are not part of this model. `LinAlg` stands in for them with exact real arithmetic. Floating-point rounding of the products and of the `i / 20.0` schedule is not modelled.
- `ArrayWrapper.Rent` and its pooling and disposal are not modelled. The wrapper is read as a direct view of the buffer, and the buffer's other slots are not modelled.
- `Hn.Get` and the Hermite interpolation are not modelled. The interpolant is the list of samples it is given, and the solution is the list of its segments; queries by time are not modelled.
- `MechJebModuleTranslatron.WindowGUI` (GUI layout, styles, localisation, window position, `autoMode`) is not modelled. Neither is the window-position reset in `SetMode`.
- Translatron.ModuleTranslatron.SetMode: `Convert.ToInt16` is an abstract parameter. Its rounding and its overflow exception are not modelled.
- Translatron.ModuleTranslatron.Drive: `Vector3d.Angle` is replaced by a given angle. `base.Drive(s)` is not part of this model.
- Translatron.ModuleTranslatron.Drive: the effect of `attitudeTo(up, SURFACE_NORTH, this)` in a continuing BURNUP on the attitude controller, including its user pool, is not modelled. The attitude-pool clause therefore describes the pool as the two head statements leave it, not the controller's pool after `attitudeTo` runs.
- Translatron.ModuleTranslatron.PanicSwitch: what `ThrustOff`, `attitudeDeactivate`, `attitudeTo`, `StopLanding` and `LandUntargeted` do inside the controllers and the autopilot is not part of this model. These calls are logged as effects only.
- The thrust controller's modes are modelled only as far as this module names them: OFF, the three KEEP modes of the mode grid, and DIRECT.
- `Logger.cs` and the test files are not modelled: they are logging plumbing and floating-point tests of functions that are not part of this model.
