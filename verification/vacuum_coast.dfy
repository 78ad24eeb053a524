/**
 * The vacuum-coast step of the PVG guidance integrator
 * (MechJebLib/PVG/Integrators/VacuumCoastAnalytic.cs).
 *
 * A coast asks the two-body solver for the propagated position and velocity and
 * for the four 3x3 blocks of the state-transition matrix, and then overwrites the
 * slots of the output state buffer one after another. The recording overload
 * samples the arc at 21 evenly spaced times into an interpolant and appends one
 * segment to a trajectory solution.
 *
 * The model follows the code as written: the solver is started from the input's
 * position but the OUTPUT buffer's velocity, the costates are read from the
 * output buffer, and PR is updated with the already-updated PV.
 */
module VacuumCoast {
  import opened LinAlg

  /** What the universal-variable two-body solver returns. */
  datatype Propagation = Propagation(rf: V3, vf: V3, stm00: M3, stm01: M3, stm10: M3, stm11: M3)

  /**
   * The two-body solver, called as solve(mu, dt, r0, v0). Its floating-point root
   * solve is not part of this model, so every operation takes it as a parameter.
   */
  type Solver = (real, real, V3, V3) -> Propagation

  /** The guidance phase: an opaque tag that is only passed through. */
  datatype Phase = Phase(tag: int)

  /** A snapshot of the named slots of a state buffer. */
  datatype State = State(r: V3, v: V3, pv: V3, pr: V3, pm: real, dv: real)

  /** Gravitational parameter of the normalised problem the coast is solved in. */
  const Mu: real := 1.0

  /** Number of sub-intervals the recording overload splits an arc into. */
  const Subdivisions: nat := 20

  /** A state buffer, written slot by slot. */
  class StateBuffer {
    var R: V3
    var V: V3
    var PV: V3
    var PR: V3
    var Pm: real
    var DV: real

    constructor (s: State)
      ensures Value() == s
    {
      R, V, PV, PR, Pm, DV := s.r, s.v, s.pv, s.pr, s.pm, s.dv;
    }

    function Value(): State
      reads this
    {
      State(R, V, PV, PR, Pm, DV)
    }
  }

  /** The interpolant of a segment: the (time, state) samples added to it, in order. */
  class Interpolant {
    var samples: seq<(real, State)>

    constructor ()
      ensures samples == []
    {
      samples := [];
    }

    /** Records a copy of the buffer's current contents at time t. */
    method Add(t: real, y: StateBuffer)
      modifies this
      ensures samples == old(samples) + [(t, y.Value())]
    {
      samples := samples + [(t, y.Value())];
    }
  }

  datatype Segment = Segment(t0: real, tf: real, interpolant: Interpolant, phase: Phase)

  /** A trajectory solution: the segments appended to it, in order. */
  class Solution {
    var segments: seq<Segment>

    constructor ()
      ensures segments == []
    {
      segments := [];
    }

    method AddSegment(t0: real, tf: real, interpolant: Interpolant, phase: Phase)
      modifies this
      ensures segments == old(segments) + [Segment(t0, tf, interpolant, phase)]
    {
      segments := segments + [Segment(t0, tf, interpolant, phase)];
    }
  }

  /**
   * The buffer contents after one coast of length dt from input y0 into an output
   * buffer that held yf, statement by statement as the code writes it.
   */
  function CoastStep(y0: State, yf: State, dt: real, solve: Solver): State
  {
    var p := solve(Mu, dt, y0.r, yf.v);
    var pv := Add(Mul(p.stm00, yf.pv), Mul(p.stm01, yf.pr));
    var pr := Add(Mul(p.stm10, pv), Mul(p.stm11, yf.pr));
    State(p.rf, p.vf, pv, pr, y0.pm, y0.dv)
  }

  /**
   * One coast from t0 to tf. The input buffer is only read, `phase` is not used,
   * and the two buffers may be the same object.
   */
  method Integrate(yin: StateBuffer, yfout: StateBuffer, phase: Phase, t0: real, tf: real, solve: Solver)
    modifies yfout
    ensures yfout.R == solve(Mu, tf - t0, old(yin.R), old(yfout.V)).rf
    ensures yfout.V == solve(Mu, tf - t0, old(yin.R), old(yfout.V)).vf
    ensures yfout.PV == Add(Mul(solve(Mu, tf - t0, old(yin.R), old(yfout.V)).stm00, old(yfout.PV)),
                            Mul(solve(Mu, tf - t0, old(yin.R), old(yfout.V)).stm01, old(yfout.PR)))
    ensures yfout.PR == Add(Mul(solve(Mu, tf - t0, old(yin.R), old(yfout.V)).stm10, yfout.PV),
                            Mul(solve(Mu, tf - t0, old(yin.R), old(yfout.V)).stm11, old(yfout.PR)))
    ensures yfout.Pm == old(yin.Pm) && yfout.DV == old(yin.DV)
    ensures yfout.Value() == CoastStep(old(yin.Value()), old(yfout.Value()), tf - t0, solve)
    ensures yin != yfout ==> unchanged(yin)
  {
    var p := solve(Mu, tf - t0, yin.R, yfout.V);
    yfout.R := p.rf;
    yfout.V := p.vf;
    yfout.PV := Add(Mul(p.stm00, yfout.PV), Mul(p.stm01, yfout.PR));
    yfout.PR := Add(Mul(p.stm10, yfout.PV), Mul(p.stm11, yfout.PR));
    yfout.Pm := yin.Pm;
    yfout.DV := yin.DV;
  }

  /** The i-th sample time of the arc [t0, tf]. */
  function SampleTime(t0: real, tf: real, i: nat): real
  {
    t0 + (tf - t0) * (i as real) / (Subdivisions as real)
  }

  /**
   * The output buffer after the first i sub-steps of the recording overload, which
   * started with input y0 and output yf. Every sub-step runs from t0; when the two
   * buffers are one object (`aliased`), each sub-step reads its input from the
   * previous result.
   */
  function Chain(y0: State, yf: State, aliased: bool, t0: real, tf: real, i: nat, solve: Solver): State
  {
    if i == 0 then yf
    else
      var prev := Chain(y0, yf, aliased, t0, tf, i - 1, solve);
      CoastStep(if aliased then prev else y0, prev, SampleTime(t0, tf, i) - t0, solve)
  }

  /** The samples the recording overload has added after its first n sub-steps. */
  function Recorded(y0: State, yf: State, aliased: bool, t0: real, tf: real, n: nat, solve: Solver)
    : seq<(real, State)>
  {
    if n == 0 then [(t0, y0)]
    else Recorded(y0, yf, aliased, t0, tf, n - 1, solve) + [(SampleTime(t0, tf, n), Chain(y0, yf, aliased, t0, tf, n, solve))]
  }

  /**
   * After n sub-steps there are n + 1 samples: the input at t0, then for each
   * k = 1..n the k-th sample time with the k-th sub-step's result.
   */
  lemma {:induction false} RecordedShape(y0: State, yf: State, aliased: bool, t0: real, tf: real, n: nat, solve: Solver)
    ensures var r := Recorded(y0, yf, aliased, t0, tf, n, solve);
      && |r| == n + 1
      && r[0] == (t0, y0)
      && forall k :: 1 <= k <= n ==> r[k] == (SampleTime(t0, tf, k), Chain(y0, yf, aliased, t0, tf, k, solve))
  {
    if n > 0 {
      RecordedShape(y0, yf, aliased, t0, tf, n - 1, solve);
    }
  }

  /**
   * The recording coast: 21 samples, the first being the input at t0, then one
   * coast from t0 to each of the 20 sub-interval ends; then one segment is appended.
   */
  method IntegrateWithSolution(yin: StateBuffer, yfout: StateBuffer, phase: Phase, t0: real, tf: real,
                               solution: Solution, solve: Solver)
    modifies yfout, solution
    ensures |solution.segments| == |old(solution.segments)| + 1
    ensures solution.segments[..|old(solution.segments)|] == old(solution.segments)
    ensures var seg := solution.segments[|old(solution.segments)|];
      && seg.t0 == t0 && seg.tf == tf && seg.phase == phase
      && fresh(seg.interpolant)
      && seg.interpolant.samples
         == Recorded(old(yin.Value()), old(yfout.Value()), yin == yfout, t0, tf, Subdivisions, solve)
    ensures yfout.Value() == Chain(old(yin.Value()), old(yfout.Value()), yin == yfout, t0, tf, Subdivisions, solve)
    ensures yin != yfout ==> unchanged(yin)
  {
    ghost var y0, yf0, aliased := yin.Value(), yfout.Value(), yin == yfout;
    var interpolant := new Interpolant();
    interpolant.Add(t0, yin);
    for i := 1 to 21
      invariant fresh(interpolant)
      invariant interpolant.samples == Recorded(y0, yf0, aliased, t0, tf, i - 1, solve)
      invariant yfout.Value() == Chain(y0, yf0, aliased, t0, tf, i - 1, solve)
      invariant !aliased ==> yin.Value() == y0
      invariant unchanged(solution)
      invariant !aliased ==> unchanged(yin)
    {
      var t2 := t0 + (tf - t0) * (i as real) / 20.0;
      assert t2 == SampleTime(t0, tf, i);
      ghost var input := if aliased then yfout.Value() else y0;
      assert yin.Value() == input;
      Integrate(yin, yfout, phase, t0, t2, solve);
      assert yfout.Value() == Chain(y0, yf0, aliased, t0, tf, i, solve);
      interpolant.Add(t2, yfout);
    }
    solution.AddSegment(t0, tf, interpolant, phase);
  }

  /* Which slot is read from which buffer. */

  /** The output buffer's old R, Pm and DV are overwritten without being read. */
  lemma CoastIgnoresOutputPositionMassDv(y0: State, yf: State, dt: real, solve: Solver, r: V3, pm: real, dv: real)
    ensures CoastStep(y0, yf.(r := r, pm := pm, dv := dv), dt, solve) == CoastStep(y0, yf, dt, solve)
  {
  }

  /** Only R, Pm and DV are read from the input buffer; its V, PV and PR are not. */
  lemma CoastIgnoresInputVelocityCostates(y0: State, yf: State, dt: real, solve: Solver, v: V3, pv: V3, pr: V3)
    ensures CoastStep(y0.(v := v, pv := pv, pr := pr), yf, dt, solve) == CoastStep(y0, yf, dt, solve)
  {
  }

  /**
   * Because PR is computed from the new PV, the costate pair is mapped by the
   * blocks (stm00, stm01) and (stm10 * stm00, stm10 * stm01 + stm11), not by the
   * lower blocks (stm10, stm11) of the state-transition matrix.
   */
  lemma CoastCostateEffectiveBlocks(y0: State, yf: State, dt: real, solve: Solver)
    ensures var p := solve(Mu, dt, y0.r, yf.v);
      && CoastStep(y0, yf, dt, solve).pv == Add(Mul(p.stm00, yf.pv), Mul(p.stm01, yf.pr))
      && CoastStep(y0, yf, dt, solve).pr
         == Add(Mul(MulM(p.stm10, p.stm00), yf.pv), Mul(AddM(MulM(p.stm10, p.stm01), p.stm11), yf.pr))
  {
    var p := solve(Mu, dt, y0.r, yf.v);
    var pv := Add(Mul(p.stm00, yf.pv), Mul(p.stm01, yf.pr));
    MulAddDistrib(p.stm10, Mul(p.stm00, yf.pv), Mul(p.stm01, yf.pr));
    MulMAssoc(p.stm10, p.stm00, yf.pv);
    MulMAssoc(p.stm10, p.stm01, yf.pr);
    AddMDistrib(MulM(p.stm10, p.stm01), p.stm11, yf.pr);
  }

  /** With an identity state-transition matrix both costates come out as they went in. */
  lemma CoastIdentityStmKeepsCostates(y0: State, yf: State, dt: real, solve: Solver)
    requires solve(Mu, dt, y0.r, yf.v).stm00 == Identity && solve(Mu, dt, y0.r, yf.v).stm11 == Identity
    requires solve(Mu, dt, y0.r, yf.v).stm01 == ZeroM && solve(Mu, dt, y0.r, yf.v).stm10 == ZeroM
    ensures CoastStep(y0, yf, dt, solve).pv == yf.pv && CoastStep(y0, yf, dt, solve).pr == yf.pr
  {
    MulIdentity(yf.pv);
    MulIdentity(yf.pr);
    MulZeroM(yf.pr);
    MulZeroM(yf.pv);
    AddZero3(yf.pv);
    AddZero3(yf.pr);
  }

  /* The sampling schedule of the recording overload. */

  /** The schedule starts at t0 and, in exact arithmetic, ends at tf. */
  lemma SampleTimeEnds(t0: real, tf: real)
    ensures SampleTime(t0, tf, 0) == t0 && SampleTime(t0, tf, Subdivisions) == tf
  {
  }

  /** Sample times strictly increase along a forward arc. */
  lemma SampleTimesIncrease(t0: real, tf: real, i: nat, j: nat)
    requires t0 < tf && i < j
    ensures SampleTime(t0, tf, i) < SampleTime(t0, tf, j)
  {
    var d := tf - t0;
    assert SampleTime(t0, tf, j) - SampleTime(t0, tf, i) == d * ((j - i) as real) / 20.0;
    assert d * ((j - i) as real) > 0.0;
  }

  /**
   * The 21 samples of a recorded arc: the input at t0 first, then the sub-step
   * results at t0 + (tf - t0) * k / 20 in order, the last one at tf, and the times
   * strictly increasing on a forward arc.
   */
  lemma RecordedSchedule(y0: State, yf: State, aliased: bool, t0: real, tf: real, solve: Solver)
    ensures var r := Recorded(y0, yf, aliased, t0, tf, Subdivisions, solve);
      && |r| == 21
      && r[0] == (t0, y0)
      && (forall k :: 0 <= k < 21 ==> r[k].0 == t0 + (tf - t0) * (k as real) / 20.0)
      && r[20] == (tf, Chain(y0, yf, aliased, t0, tf, 20, solve))
      && (t0 < tf ==> forall i, j :: 0 <= i < j < 21 ==> r[i].0 < r[j].0)
  {
    var r := Recorded(y0, yf, aliased, t0, tf, Subdivisions, solve);
    RecordedShape(y0, yf, aliased, t0, tf, Subdivisions, solve);
    SampleTimeEnds(t0, tf);
    if t0 < tf {
      forall i, j | 0 <= i < j < 21
        ensures r[i].0 < r[j].0
      {
        SampleTimesIncrease(t0, tf, i, j);
      }
    }
  }

  /**
   * Every sub-step coasts from t0, so the elapsed time handed to the solver for
   * sample k is (tf - t0) * k / 20 and not the length of one sub-interval; in
   * particular the last sample is one coast over the whole arc [t0, tf].
   */
  lemma SubStepsStartAtT0(y0: State, yf: State, aliased: bool, t0: real, tf: real, k: nat, solve: Solver)
    requires 1 <= k
    ensures var prev := Chain(y0, yf, aliased, t0, tf, k - 1, solve);
      Chain(y0, yf, aliased, t0, tf, k, solve)
      == CoastStep(if aliased then prev else y0, prev, (tf - t0) * (k as real) / 20.0, solve)
    ensures var prev := Chain(y0, yf, aliased, t0, tf, Subdivisions - 1, solve);
      Chain(y0, yf, aliased, t0, tf, Subdivisions, solve)
      == CoastStep(if aliased then prev else y0, prev, tf - t0, solve)
  {
    assert SampleTime(t0, tf, k) - t0 == (tf - t0) * (k as real) / 20.0;
    SampleTimeEnds(t0, tf);
  }
}
