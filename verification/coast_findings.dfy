/**
 * Two places where the vacuum coast as written departs from what a coast is meant
 * to do, each shown on a concrete input, next to the corrected step and the
 * property it satisfies.
 *
 * 1. The solver is started from the output buffer's velocity and the costates are
 *    read from the output buffer, so a zero-length coast does not return its input.
 * 2. PR is updated with the already-updated PV, so a coast forward and back over a
 *    reversible state-transition matrix does not return the costates it started with.
 */
module CoastFindings {
  import opened LinAlg
  import opened VacuumCoast

  /**
   * The coast as it is meant to be: everything is read from the input, and the
   * costate pair is mapped by the state-transition blocks simultaneously.
   */
  function IntendedCoastStep(y0: State, dt: real, solve: Solver): State
  {
    var p := solve(Mu, dt, y0.r, y0.v);
    State(p.rf, p.vf,
          Add(Mul(p.stm00, y0.pv), Mul(p.stm01, y0.pr)),
          Add(Mul(p.stm10, y0.pv), Mul(p.stm11, y0.pr)),
          y0.pm, y0.dv)
  }

  /** The solver leaves (r, v) in place with an identity state-transition matrix. */
  ghost predicate IdentityAt(solve: Solver, dt: real, r: V3, v: V3)
  {
    solve(Mu, dt, r, v) == Propagation(r, v, Identity, ZeroM, ZeroM, Identity)
  }

  /**
   * Coasting by dt from y and then by -dt from the result brings (r, v) back, and
   * the second state-transition matrix is the inverse of the first.
   */
  ghost predicate ReversibleAt(solve: Solver, dt: real, r: V3, v: V3)
  {
    var p := solve(Mu, dt, r, v);
    var q := solve(Mu, -dt, p.rf, p.vf);
    && q.rf == r && q.vf == v
    && AddM(MulM(q.stm00, p.stm00), MulM(q.stm01, p.stm10)) == Identity
    && AddM(MulM(q.stm00, p.stm01), MulM(q.stm01, p.stm11)) == ZeroM
    && AddM(MulM(q.stm10, p.stm00), MulM(q.stm11, p.stm10)) == ZeroM
    && AddM(MulM(q.stm10, p.stm01), MulM(q.stm11, p.stm11)) == Identity
  }

  /* Finding 1: the coast reads the output buffer. */

  /**
   * As written, a zero-length coast with an identity solver takes R, Pm and DV from
   * the input but keeps the output buffer's old V, PV and PR.
   */
  lemma ZeroCoastKeepsOutputVelocity(y0: State, yf: State, solve: Solver)
    requires IdentityAt(solve, 0.0, y0.r, yf.v)
    ensures CoastStep(y0, yf, 0.0, solve) == State(y0.r, yf.v, yf.pv, yf.pr, y0.pm, y0.dv)
  {
    CoastIdentityStmKeepsCostates(y0, yf, 0.0, solve);
  }

  /** A solver that leaves every state where it is, with an identity matrix. */
  function Frozen(): Solver
  {
    (mu: real, dt: real, r: V3, v: V3) => Propagation(r, v, Identity, ZeroM, ZeroM, Identity)
  }

  /**
   * t0 == tf, input at rest at the origin with velocity (1, 0, 0), output buffer
   * zeroed: the coast writes velocity 0 instead of handing back the input.
   */
  lemma ZeroCoastCounterexample()
    ensures var y0 := State(Zero3, V3(1.0, 0.0, 0.0), Zero3, Zero3, 0.0, 0.0);
      var yf := State(Zero3, Zero3, Zero3, Zero3, 0.0, 0.0);
      && IdentityAt(Frozen(), 0.0, y0.r, yf.v)
      && CoastStep(y0, yf, 0.0, Frozen()).v == Zero3
      && CoastStep(y0, yf, 0.0, Frozen()) != y0
  {
    var y0 := State(Zero3, V3(1.0, 0.0, 0.0), Zero3, Zero3, 0.0, 0.0);
    var yf := State(Zero3, Zero3, Zero3, Zero3, 0.0, 0.0);
    assert Frozen()(Mu, 0.0, y0.r, yf.v) == Propagation(y0.r, yf.v, Identity, ZeroM, ZeroM, Identity);
    ZeroCoastKeepsOutputVelocity(y0, yf, Frozen());
    assert CoastStep(y0, yf, 0.0, Frozen()).v == Zero3;
  }

  /** Corrected: a zero-length coast over an identity solver returns its input. */
  lemma IntendedZeroCoastIdentity(y0: State, solve: Solver)
    requires IdentityAt(solve, 0.0, y0.r, y0.v)
    ensures IntendedCoastStep(y0, 0.0, solve) == y0
  {
    MulIdentity(y0.pv);
    MulIdentity(y0.pr);
    MulZeroM(y0.pr);
    MulZeroM(y0.pv);
    AddZero3(y0.pv);
    AddZero3(y0.pr);
  }

  /** Over the Frozen solver, as written, a coast of any length keeps the output buffer's V, PV and PR. */
  lemma FrozenCoastKeepsOutput(y0: State, yf: State, dt: real)
    ensures CoastStep(y0, yf, dt, Frozen()) == State(y0.r, yf.v, yf.pv, yf.pr, y0.pm, y0.dv)
  {
    assert Frozen()(Mu, dt, y0.r, yf.v) == Propagation(y0.r, yf.v, Identity, ZeroM, ZeroM, Identity);
    CoastIdentityStmKeepsCostates(y0, yf, dt, Frozen());
  }

  /**
   * Hence every sub-step of the recording overload, as written, hands back the
   * velocity the output buffer held before the recording started.
   */
  lemma {:induction false} FrozenChainKeepsOutputVelocity(y0: State, yf: State, aliased: bool, t0: real, tf: real, k: nat)
    ensures Chain(y0, yf, aliased, t0, tf, k, Frozen()).v == yf.v
  {
    if k > 0 {
      var prev := Chain(y0, yf, aliased, t0, tf, k - 1, Frozen());
      FrozenChainKeepsOutputVelocity(y0, yf, aliased, t0, tf, k - 1);
      FrozenCoastKeepsOutput(if aliased then prev else y0, prev, SampleTime(t0, tf, k) - t0);
    }
  }

  /**
   * The effect on a recorded segment: with distinct buffers, an input moving at
   * (1, 0, 0), a zeroed output buffer and the Frozen solver, the last recorded
   * sample (RecordedSchedule: the 20th sub-step's result) has velocity 0, while
   * the corrected coast over the whole arc keeps the input's velocity.
   */
  lemma RecordedSegmentCounterexample(t0: real, tf: real)
    ensures var y0 := State(Zero3, V3(1.0, 0.0, 0.0), Zero3, Zero3, 0.0, 0.0);
      var yf := State(Zero3, Zero3, Zero3, Zero3, 0.0, 0.0);
      && Chain(y0, yf, false, t0, tf, Subdivisions, Frozen()).v == Zero3
      && IntendedCoastStep(y0, tf - t0, Frozen()).v == V3(1.0, 0.0, 0.0)
  {
    var y0 := State(Zero3, V3(1.0, 0.0, 0.0), Zero3, Zero3, 0.0, 0.0);
    var yf := State(Zero3, Zero3, Zero3, Zero3, 0.0, 0.0);
    FrozenChainKeepsOutputVelocity(y0, yf, false, t0, tf, Subdivisions);
    assert Frozen()(Mu, tf - t0, y0.r, y0.v) == Propagation(y0.r, y0.v, Identity, ZeroM, ZeroM, Identity);
  }

  /* Finding 2: PR is computed from the new PV. */

  /** Applying a block row (b0, b1) to a pair of vectors. */
  function Apply2(b0: M3, b1: M3, u: V3, w: V3): V3
  {
    Add(Mul(b0, u), Mul(b1, w))
  }

  /** Applying two block rows in turn is applying their block product. */
  lemma Apply2Compose(q0: M3, q1: M3, a00: M3, a01: M3, a10: M3, a11: M3, u: V3, w: V3)
    ensures Apply2(q0, q1, Apply2(a00, a01, u, w), Apply2(a10, a11, u, w))
         == Apply2(AddM(MulM(q0, a00), MulM(q1, a10)), AddM(MulM(q0, a01), MulM(q1, a11)), u, w)
  {
    MulAddDistrib(q0, Mul(a00, u), Mul(a01, w));
    MulAddDistrib(q1, Mul(a10, u), Mul(a11, w));
    MulMAssoc(q0, a00, u);
    MulMAssoc(q0, a01, w);
    MulMAssoc(q1, a10, u);
    MulMAssoc(q1, a11, w);
    AddMDistrib(MulM(q0, a00), MulM(q1, a10), u);
    AddMDistrib(MulM(q0, a01), MulM(q1, a11), w);
  }

  /**
   * Corrected: coasting forward by dt and back by -dt over a reversible solver
   * returns the whole state, costates included.
   */
  lemma IntendedRoundTrip(y0: State, dt: real, solve: Solver)
    requires ReversibleAt(solve, dt, y0.r, y0.v)
    ensures IntendedCoastStep(IntendedCoastStep(y0, dt, solve), -dt, solve) == y0
  {
    var p := solve(Mu, dt, y0.r, y0.v);
    var q := solve(Mu, -dt, p.rf, p.vf);
    Apply2Compose(q.stm00, q.stm01, p.stm00, p.stm01, p.stm10, p.stm11, y0.pv, y0.pr);
    Apply2Compose(q.stm10, q.stm11, p.stm00, p.stm01, p.stm10, p.stm11, y0.pv, y0.pr);
    MulIdentity(y0.pv);
    MulIdentity(y0.pr);
    MulZeroM(y0.pr);
    MulZeroM(y0.pv);
    AddZero3(y0.pv);
    AddZero3(y0.pr);
  }

  /**
   * A solver that leaves (r, v) in place and whose state-transition matrix swaps
   * the two halves of the state: blocks [[0, I], [I, 0]], their own inverse.
   */
  function Swapping(): Solver
  {
    (mu: real, dt: real, r: V3, v: V3) => Propagation(r, v, ZeroM, Identity, Identity, ZeroM)
  }

  /** Swapping satisfies the round-trip premise of IntendedRoundTrip everywhere. */
  lemma SwappingReversible(dt: real, r: V3, v: V3)
    ensures ReversibleAt(Swapping(), dt, r, v)
  {
    var p := Swapping()(Mu, dt, r, v);
    assert p == Propagation(r, v, ZeroM, Identity, Identity, ZeroM);
    assert Swapping()(Mu, -dt, r, v) == p;
    MulMIdentityLeft(Identity);
    MulMIdentityLeft(ZeroM);
    MulMZeroLeft(Identity);
    MulMZeroLeft(ZeroM);
    AddMZero(Identity);
    AddMZero(ZeroM);
  }

  /** The in-place forward coast of the counterexample: PV and PR both become w. */
  lemma SwappingForward(y: State, w: V3)
    requires y == State(Zero3, Zero3, Zero3, w, 0.0, 0.0)
    ensures CoastStep(y, y, 1.0, Swapping()) == State(Zero3, Zero3, w, w, 0.0, 0.0)
  {
    assert Swapping()(Mu, 1.0, Zero3, Zero3) == Propagation(Zero3, Zero3, ZeroM, Identity, Identity, ZeroM);
    MulZeroM(Zero3);
    MulZeroM(w);
    MulIdentity(w);
    AddZero3(w);
  }

  /** The in-place backward coast of the counterexample: PV and PR stay w. */
  lemma SwappingBackward(y1: State, w: V3)
    requires y1 == State(Zero3, Zero3, w, w, 0.0, 0.0)
    ensures CoastStep(y1, y1, -1.0, Swapping()) == y1
  {
    assert Swapping()(Mu, -1.0, Zero3, Zero3) == Propagation(Zero3, Zero3, ZeroM, Identity, Identity, ZeroM);
    MulZeroM(w);
    MulIdentity(w);
    AddZero3(w);
  }

  /**
   * As written, coasting a buffer in place forward by 1 and back by -1 over the
   * Swapping solver, which SwappingReversible shows to be reversible, from PV = 0
   * and PR = w with w != 0 (w = (1, 0, 0), say), ends with PV = w instead of 0.
   */
  lemma SequentialRoundTripCounterexample(w: V3)
    requires w != Zero3
    ensures var y := State(Zero3, Zero3, Zero3, w, 0.0, 0.0);
      var y1 := CoastStep(y, y, 1.0, Swapping());
      var y2 := CoastStep(y1, y1, -1.0, Swapping());
      && y2.pv == w && y2.pr == w
      && y2 != y
  {
    var y := State(Zero3, Zero3, Zero3, w, 0.0, 0.0);
    SwappingForward(y, w);
    SwappingBackward(CoastStep(y, y, 1.0, Swapping()), w);
  }
}
