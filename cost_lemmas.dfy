/**
  What the cost bundle means: the geometry behind the error model, the
  curvature guard, the slip linearisation, the expansion behind each
  quadratic-plus-linear block, the terminal-stage weighting and the
  properties of the assembled stage cost that the quadratic-program solver
  relies on (a symmetric, positive semidefinite Q).
 */
module CostLemmas {
  import opened Matrices
  import opened Mpcc
  import opened Cost

  // ===========================================================================
  // Penalties

  /** The objective 1/2 v'Qv + q'v of a quadratic-plus-linear block. */
  function Objective(Q: Matrix, q: Vector, v: Vector): real
    requires IsMatrix(Q, |v|, |v|) && |q| == |v|
  {
    0.5 * QuadForm(Q, v) + Dot(q, v)
  }

  /** w ((b0 + d)^2 - b0^2): how much the penalty w b^2 grows when b moves
      from b0 to b0 + d. */
  function PenaltyIncrease(w: real, b0: real, d: real): real {
    Times(w, Times(b0 + d, b0 + d) - Times(b0, b0))
  }

  /** For every v, the block (Q, q) gains what the penalty w b^2 gains when
      the affine quantity b = b0 + u.v moves away from b0. */
  ghost predicate IsSquaredAffinePenalty(Q: Matrix, q: Vector, w: real, u: Vector, b0: real) {
    && IsMatrix(Q, |u|, |u|) && |q| == |u|
    && forall v: Vector {:trigger Objective(Q, q, v)} | |v| == |u| ::
         Objective(Q, q, v) == PenaltyIncrease(w, b0, Dot(u, v))
  }

  /** For every state direction v, the block (Q, q) gains what the weighted
      squared errors gain, linearised around the state x as (e - Jx) + Jv
      (weights wc and wl), plus the yaw-rate penalty wr r^2, less the
      progress reward qVs vs. */
  ghost predicate IsErrorPenalty(Q: Matrix, q: Vector, J: Matrix, e: Vector, xVec: Vector,
                                 wc: real, wl: real, wr: real, qVs: real) {
    && IsMatrix(Q, NX, NX) && |q| == NX && IsMatrix(J, 2, NX) && |e| == 2 && |xVec| == NX
    && forall v: Vector {:trigger Objective(Q, q, v)} | |v| == NX ::
         Objective(Q, q, v)
         == PenaltyIncrease(wc, e[0] - Dot(J[0], xVec), Dot(J[0], v))
            + PenaltyIncrease(wl, e[1] - Dot(J[1], xVec), Dot(J[1], v))
            + Times(wr, Times(v[IR], v[IR])) - Times(qVs, v[IVs])
  }

  // ===========================================================================
  // Scalar facts, over plain reals

  lemma SquareAtLeastOne(a: real)
    ensures (a <= -1.0 || a >= 1.0) <==> Times(a, a) >= 1.0
  {
    if a >= 1.0 {
      assert a * a >= a * 1.0;
    } else if a <= -1.0 {
      assert a * a >= (-a) * 1.0;
    } else if a >= 0.0 {
      assert a * a <= a * 1.0;
    } else {
      assert a * a <= (-a) * 1.0;
    }
  }

  /** t * k^2 == k with k nonzero gives t * k == 1. */
  lemma CancelFactor(t: real, k: real)
    requires k != 0.0 && t * Times(k, k) == k
    ensures t * k == 1.0
  {
    assert (t * k - 1.0) * k == 0.0;
  }

  /** A rotation by (cs, sn), sn^2 + cs^2 == 1, is undone by its transpose and
      keeps the squared length. */
  lemma RotationFacts(sn: real, cs: real, dx: real, dy: real)
    requires Times(sn, sn) + Times(cs, cs) == 1.0
    ensures -sn * ContouringErrorAt(sn, cs, dx, dy) + cs * LagErrorAt(sn, cs, dx, dy) == dx
    ensures cs * ContouringErrorAt(sn, cs, dx, dy) + sn * LagErrorAt(sn, cs, dx, dy) == dy
    ensures Times(ContouringErrorAt(sn, cs, dx, dy), ContouringErrorAt(sn, cs, dx, dy))
            + Times(LagErrorAt(sn, cs, dx, dy), LagErrorAt(sn, cs, dx, dy))
            == Times(dx, dx) + Times(dy, dy)
  {
    var ec, el := -sn * dx + cs * dy, cs * dx + sn * dy;
    var u := sn * sn + cs * cs;
    assert u == 1.0;
    assert -sn * ec + cs * el == u * dx;
    assert cs * ec + sn * el == u * dy;
    assert ec * ec + el * el == u * (dx * dx + dy * dy);
  }

  /** Slopes along the path, for a car on its reference point whose heading
      (sn, cs) is that of the path derivative (dxRef, dyRef) of length len. */
  lemma SlopeFacts(sn: real, cs: real, dxRef: real, dyRef: real, dtheta: real, len: real)
    requires Times(sn, sn) + Times(cs, cs) == 1.0
    requires sn * len == dyRef && cs * len == dxRef
    ensures ContouringSlopeAt(sn, cs, 0.0, 0.0, dxRef, dyRef, dtheta) == 0.0
    ensures LagSlopeAt(sn, cs, 0.0, 0.0, dxRef, dyRef, dtheta) == len
  {
    var u := sn * sn + cs * cs;
    assert u == 1.0;
    assert -dxRef * sn + dyRef * cs == -(cs * len) * sn + (sn * len) * cs;
    assert dxRef * cs + dyRef * sn == (cs * len) * cs + (sn * len) * sn;
    assert (cs * len) * cs + (sn * len) * sn == u * len;
  }

  /** a = dBeta[vx], b = dBeta[vy] for a velocity (vx, vy) of squared norm sq. */
  lemma SlipDirectionFacts(a: real, b: real, vx: real, vy: real, sq: real)
    requires sq == Times(vx, vx) + Times(vy, vy) && sq > 0.0
    requires a * sq == -vy && b * sq == vx
    ensures a * vx + b * vy == 0.0
    ensures a * -vy + b * vx == 1.0
  {
    assert (a * vx + b * vy) * sq == (a * sq) * vx + (b * sq) * vy;
    assert (a * -vy + b * vx) * sq == (a * sq) * -vy + (b * sq) * vx;
    assert (a * sq) * -vy + (b * sq) * vx == vy * vy + vx * vx;
    assert vy * vy + vx * vx == sq;
    assert (a * -vy + b * vx - 1.0) * sq == 0.0;
  }

  /** Completing the square: a quadratic part 1/2 (2 w d^2) and a linear part
      (2 w b0) d add up to the increase of the penalty w (b0 + d)^2 over its
      value w b0^2 at d == 0. */
  lemma SquareCompletion(w: real, b0: real, d: real)
    ensures 0.5 * Times(2.0 * w, Times(d, d)) + Times(Times(2.0 * w, b0), d) == PenaltyIncrease(w, b0, d)
  {
  }

  /** The contouring objective regrouped: the halved quadratic part and the
      linear part add up to two square completions, the yaw-rate penalty and
      the progress reward. */
  lemma ErrorPenaltyArithmetic(wc: real, wl: real, wr: real, qVs: real,
                               a0: real, a1: real, d0: real, d1: real, vr: real, vs: real)
    ensures 0.5 * (Times(2.0 * wc, Times(d0, d0)) + Times(2.0 * wl, Times(d1, d1)) + Times(2.0 * wr, Times(vr, vr)))
            + (Times(Times(2.0 * wc, a0), d0) + Times(Times(2.0 * wl, a1), d1) - Times(qVs, vs))
            == PenaltyIncrease(wc, a0, d0) + PenaltyIncrease(wl, a1, d1) + Times(wr, Times(vr, vr)) - Times(qVs, vs)
  {
    SquareCompletion(wc, a0, d0);
    SquareCompletion(wl, a1, d1);
  }

  // ===========================================================================
  // Reference point lookup

  /** Locally the path runs along x at unit speed and turns at rate kappa (a
      circle of radius 1/|kappa|). The curvature term is then 1/kappa, the
      radius, for |kappa| >= 1 and exactly 0 for |kappa| < 1: the term is the
      path's curvature kappa only for |kappa| == 1. */
  lemma CurvatureTermOnTurn(track: Spline, trig: Trig, x: State, kappa: real)
    requires track.derivative(x.s) == Vec2(1.0, 0.0)
    requires track.secondDerivative(x.s) == Vec2(0.0, kappa)
    ensures var tp := GetRefPoint(track, trig, x);
            && (kappa <= -1.0 || kappa >= 1.0 ==> tp.dthetaRef * kappa == 1.0)
            && (-1.0 < kappa < 1.0 ==> tp.dthetaRef == 0.0)
  {
    var tp := GetRefPoint(track, trig, x);
    SquareAtLeastOne(kappa);
    assert Times(0.0, 0.0) == 0.0;
    if kappa <= -1.0 || kappa >= 1.0 {
      assert tp.dthetaRef * Times(kappa, kappa) == kappa;
      CancelFactor(tp.dthetaRef, kappa);
    }
  }

  // ===========================================================================
  // Error model

  /** The errors are the car-to-reference offset in the path frame: the offset
      is recovered from them by the inverse rotation, and both have the same
      length, whenever sin and cos of the heading satisfy sin^2 + cos^2 == 1. */
  lemma ErrorsAreRotatedOffset(track: Spline, trig: Trig, x: State)
    requires var th := GetRefPoint(track, trig, x).thetaRef;
             Times(trig.sin(th), trig.sin(th)) + Times(trig.cos(th), trig.cos(th)) == 1.0
    ensures var tp := GetRefPoint(track, trig, x);
            var sn, cs := trig.sin(tp.thetaRef), trig.cos(tp.thetaRef);
            var e := ErrorModel(track, trig, x).error;
            && -sn * e[0] + cs * e[1] == tp.xRef - x.X
            && cs * e[0] + sn * e[1] == tp.yRef - x.Y
            && Times(e[0], e[0]) + Times(e[1], e[1])
               == Times(tp.xRef - x.X, tp.xRef - x.X) + Times(tp.yRef - x.Y, tp.yRef - x.Y)
  {
    var tp := GetRefPoint(track, trig, x);
    RotationFacts(trig.sin(tp.thetaRef), trig.cos(tp.thetaRef), tp.xRef - x.X, tp.yRef - x.Y);
  }

  /** On a path heading along +x (sin 0 == 0, cos 0 == 1), the contouring error
      is the reference's y minus the car's Y and the lag error the reference's
      x minus the car's X. A car one unit to the left of the path has
      contouring error -1. */
  lemma StraightPathErrors(track: Spline, trig: Trig, x: State)
    requires track.derivative(x.s) == Vec2(1.0, 0.0)
    requires trig.sin(trig.atan2(0.0, 1.0)) == 0.0 && trig.cos(trig.atan2(0.0, 1.0)) == 1.0
    ensures var ref := track.position(x.s);
            var e := ErrorModel(track, trig, x).error;
            e[0] == ref.y - x.Y && e[1] == ref.x - x.X
  {
    var tp := GetRefPoint(track, trig, x);
    assert tp.thetaRef == trig.atan2(0.0, 1.0);
  }

  /** The X and Y columns of the Jacobian: (sin, -cos) in the contouring row
      and (-cos, -sin) in the lag row, at the reference heading. */
  lemma ErrorJacobianPositionColumns(track: Spline, trig: Trig, x: State)
    ensures var tp := GetRefPoint(track, trig, x);
            var sn, cs := trig.sin(tp.thetaRef), trig.cos(tp.thetaRef);
            var J := ErrorModel(track, trig, x).dError;
            J[0][IX] == sn && J[0][IY] == -cs && J[1][IX] == -cs && J[1][IY] == -sn
  {
  }

  /** Each error of moved is that of ei plus the X and Y entries of its
      Jacobian row applied to the displacement (a, b). */
  predicate MovedByPositionColumns(ei: ErrorInfo, moved: ErrorInfo, a: real, b: real) {
    && |ei.error| == 2 && |moved.error| == 2 && IsMatrix(ei.dError, 2, NX)
    && moved.error[0] == ei.error[0] + Times(ei.dError[0][IX], a) + Times(ei.dError[0][IY], b)
    && moved.error[1] == ei.error[1] + Times(ei.dError[1][IX], a) + Times(ei.dError[1][IY], b)
  }

  /** The X and Y columns of the Jacobian are exact: moving the car by (a, b)
      changes each error by the Jacobian row times (a, b). */
  lemma ErrorJacobianExactInPosition(track: Spline, trig: Trig, x: State, a: real, b: real)
    ensures MovedByPositionColumns(ErrorModel(track, trig, x),
                                   ErrorModel(track, trig, x.(X := x.X + a, Y := x.Y + b)), a, b)
  {
    var x' := x.(X := x.X + a, Y := x.Y + b);
    var tp := GetRefPoint(track, trig, x);
    assert GetRefPoint(track, trig, x') == tp;
    var sn, cs := trig.sin(tp.thetaRef), trig.cos(tp.thetaRef);
    var dx, dy := tp.xRef - x.X, tp.yRef - x.Y;
    assert tp.xRef - x'.X == dx - a && tp.yRef - x'.Y == dy - b;
    var ei, moved := ErrorModel(track, trig, x), ErrorModel(track, trig, x');
    assert ei.dError[0][IX] == sn && ei.dError[0][IY] == -cs;
    assert ei.dError[1][IX] == -cs && ei.dError[1][IY] == -sn;
    OffsetShift(sn, cs, dx, dy, a, b);
  }

  /** Shifting the offset by (a, b) shifts both errors linearly. */
  lemma OffsetShift(sn: real, cs: real, dx: real, dy: real, a: real, b: real)
    ensures ContouringErrorAt(sn, cs, dx - a, dy - b) == ContouringErrorAt(sn, cs, dx, dy) + Times(sn, a) + Times(-cs, b)
    ensures LagErrorAt(sn, cs, dx - a, dy - b) == LagErrorAt(sn, cs, dx, dy) + Times(-cs, a) + Times(-sn, b)
  {
  }

  /** For a car on its reference point, with the heading consistent with the
      path derivative (d == len (cos, sin)), sliding along the path does not
      change the contouring error to first order, and the lag error grows at
      the path's speed len. */
  lemma ErrorSlopeOnPath(track: Spline, trig: Trig, x: State, len: real)
    requires var tp := GetRefPoint(track, trig, x);
             var sn, cs := trig.sin(tp.thetaRef), trig.cos(tp.thetaRef);
             && x.X == tp.xRef && x.Y == tp.yRef
             && Times(sn, sn) + Times(cs, cs) == 1.0
             && sn * len == tp.dyRef && cs * len == tp.dxRef
    ensures var ei := ErrorModel(track, trig, x);
            ei.dError[0][IS] == 0.0 && ei.dError[1][IS] == len
  {
    var tp := GetRefPoint(track, trig, x);
    var sn, cs := trig.sin(tp.thetaRef), trig.cos(tp.thetaRef);
    assert tp.xRef - x.X == 0.0 && tp.yRef - x.Y == 0.0;
    SlopeFacts(sn, cs, tp.dxRef, tp.dyRef, tp.dthetaRef, len);
  }

  // ===========================================================================
  // Side-slip cost

  /** The slip Jacobian's two directions: scaling the velocity leaves the slip
      angle unchanged to first order, and turning the velocity (along
      (-vy, vx)) changes it at unit rate. */
  lemma SlipJacobianDirections(x: State)
    requires x.vx != 0.0
    ensures SquaredSpeed(x) > 0.0
    ensures var dBeta := SlipJacobian(x);
            && dBeta[IVx] * x.vx + dBeta[IVy] * x.vy == 0.0
            && dBeta[IVx] * -x.vy + dBeta[IVy] * x.vx == 1.0
  {
    SquaredSpeedPositive(x);
    var dBeta := SlipJacobian(x);
    SlipDirectionFacts(dBeta[IVx], dBeta[IVy], x.vx, x.vy, SquaredSpeed(x));
  }

  /** The zero-order term of the slip linearisation is the slip angle itself:
      the slip Jacobian is orthogonal to the velocity, so dBeta . x == 0 for
      every state. In particular a car driving straight (vy == 0) has
      beta0 == atan(0) and no correction term. */
  lemma SlipOffsetIsSlipAngle(trig: Trig, x: State)
    requires x.vx != 0.0
    ensures SlipOffset(trig, x) == trig.atan(x.vy / x.vx)
  {
    SlipJacobianDirections(x);
    var dBeta := SlipJacobian(x);
    var xVec := StateToVector(x);
    assert dBeta == Zeros(NX)[IVx := dBeta[IVx]][IVy := dBeta[IVy]];
    DotTwoEntries(NX, IVx, IVy, dBeta[IVx], dBeta[IVy], xVec);
    assert xVec[IVx] == x.vx && xVec[IVy] == x.vy;
    assert Dot(dBeta, xVec) == 0.0;
    assert SlipOffset(trig, x) == trig.atan(x.vy / x.vx) - Dot(dBeta, xVec);
  }

  /** The slip block is the squared slip penalty, up to a constant: with
      beta(v) = beta0 + dBeta . v the slip angle linearised at the state,
      1/2 v'Qv + q'v == qBeta (beta(v)^2 - beta0^2) for every v. */
  lemma BetaCostIsLinearisedSlipPenalty(trig: Trig, p: CostParams, x: State)
    requires x.vx != 0.0
    ensures SquaredSpeed(x) > 0.0
    ensures var c := GetBetaCost(trig, p, x);
            IsSquaredAffinePenalty(c.Q, c.q, p.qBeta, SlipJacobian(x), SlipOffset(trig, x))
  {
    SquaredSpeedPositive(x);
    var c := GetBetaCost(trig, p, x);
    RankOnePenalty(c.Q, c.q, p.qBeta, SlipJacobian(x), SlipOffset(trig, x));
  }

  /** 2 w u u^T and 2 w b0 u are the quadratic and linear parts of the
      penalty w (b0 + u.v)^2. */
  lemma RankOnePenalty(Q: Matrix, q: Vector, w: real, u: Vector, b0: real)
    requires Q == Outer(2.0 * w, u) && q == ScaleVec(Times(2.0 * w, b0), u)
    ensures IsSquaredAffinePenalty(Q, q, w, u, b0)
  {
    forall v: Vector | |v| == |u| ensures Objective(Q, q, v) == PenaltyIncrease(w, b0, Dot(u, v)) {
      QuadFormOuter(2.0 * w, u, v);
      DotScale(Times(2.0 * w, b0), u, v);
      SquareCompletion(w, b0, Dot(u, v));
    }
  }

  /** A nonnegative slip weight gives a positive semidefinite slip block. */
  lemma BetaCostPositiveSemidefinite(trig: Trig, p: CostParams, x: State)
    requires x.vx != 0.0 && p.qBeta >= 0.0
    ensures PositiveSemidefinite(GetBetaCost(trig, p, x).Q, NX)
  {
    SquaredSpeedPositive(x);
    OuterPositiveSemidefinite(2.0 * p.qBeta, SlipJacobian(x));
  }

  // ===========================================================================
  // Input and soft-constraint costs

  /** The input block is linear in its weights: weights a p1 + b p2 give
      a times the first block plus b times the second. */
  lemma InputCostLinearInWeights(p: CostParams, p1: CostParams, p2: CostParams, a: real, b: real)
    requires p.rD == a * p1.rD + b * p2.rD && p.rDelta == a * p1.rDelta + b * p2.rDelta
    requires p.rVs == a * p1.rVs + b * p2.rVs
    requires p.rdD == a * p1.rdD + b * p2.rdD && p.rdDelta == a * p1.rdDelta + b * p2.rdDelta
    requires p.rdVs == a * p1.rdVs + b * p2.rdVs
    ensures InputCost(p).Q == Add(Scale(a, InputCost(p1).Q, NX, NX), Scale(b, InputCost(p2).Q, NX, NX), NX, NX)
    ensures InputCost(p).R == Add(Scale(a, InputCost(p1).R, NU, NU), Scale(b, InputCost(p2).R, NU, NU), NU, NU)
  {
    var w, w1, w2 := ScaleVec(2.0, InputWeights(p)), ScaleVec(2.0, InputWeights(p1)), ScaleVec(2.0, InputWeights(p2));
    forall i | 0 <= i < NX ensures w[i] == AddVec(ScaleVec(a, w1), ScaleVec(b, w2))[i] { }
    assert w == AddVec(ScaleVec(a, w1), ScaleVec(b, w2));
    DiagLinear(a, b, w1, w2);
    var v, v1, v2 := ScaleVec(2.0, InputRateWeights(p)), ScaleVec(2.0, InputRateWeights(p1)), ScaleVec(2.0, InputRateWeights(p2));
    forall i | 0 <= i < NU ensures v[i] == AddVec(ScaleVec(a, v1), ScaleVec(b, v2))[i] { }
    assert v == AddVec(ScaleVec(a, v1), ScaleVec(b, v2));
    DiagLinear(a, b, v1, v2);
  }

  /** Nonnegative input weights give positive semidefinite Q and R blocks. */
  lemma InputCostPositiveSemidefinite(p: CostParams)
    requires p.rD >= 0.0 && p.rDelta >= 0.0 && p.rVs >= 0.0
    requires p.rdD >= 0.0 && p.rdDelta >= 0.0 && p.rdVs >= 0.0
    ensures PositiveSemidefinite(InputCost(p).Q, NX)
    ensures PositiveSemidefinite(InputCost(p).R, NU)
  {
    DiagPositiveSemidefinite(ScaleVec(2.0, InputWeights(p)));
    DiagPositiveSemidefinite(ScaleVec(2.0, InputRateWeights(p)));
  }

  /** Nonnegative quadratic slack weights give a positive semidefinite Z. */
  lemma SoftConstraintCostPositiveSemidefinite(p: CostParams)
    requires p.scQuadTrack >= 0.0 && p.scQuadTire >= 0.0 && p.scQuadAlpha >= 0.0
    ensures PositiveSemidefinite(SoftConstraintCost(p).Z, NS)
  {
    forall v: Vector | |v| == NS ensures QuadForm(SoftConstraintCost(p).Z, v) >= 0.0 {
      QuadFormDiagNonneg(SoftQuadWeights(p), v);
    }
  }

  // ===========================================================================
  // Contouring cost

  /** The contouring Q is the sum of its three weighted rank-one parts. */
  lemma ContouringQuadraticIsSum(J: Matrix, wc: real, wl: real, wr: real)
    requires ErrorJacobianShape(J)
    ensures ContouringQuadratic(J, wc, wl, wr)
            == Add(Add(Outer(2.0 * wc, J[0]), Outer(2.0 * wl, J[1]), NX, NX), Outer(2.0 * wr, Unit(NX, IR)), NX, NX)
  {
  }

  /** The quadratic form of the contouring Q: twice the weighted squares of
      the error slopes along v and of the yaw rate. */
  lemma ContouringQuadForm(J: Matrix, wc: real, wl: real, wr: real, v: Vector)
    requires ErrorJacobianShape(J) && |v| == NX
    ensures QuadForm(ContouringQuadratic(J, wc, wl, wr), v)
            == Times(2.0 * wc, Times(Dot(J[0], v), Dot(J[0], v))) + Times(2.0 * wl, Times(Dot(J[1], v), Dot(J[1], v)))
               + Times(2.0 * wr, Times(v[IR], v[IR]))
  {
    ContouringQuadraticIsSum(J, wc, wl, wr);
    QuadFormThreeOuters(2.0 * wc, J[0], 2.0 * wl, J[1], 2.0 * wr, Unit(NX, IR), v, NX);
    DotUnit(IR, v);
  }

  /** The linear term along v: twice the weighted constant errors times the
      error slopes, less the progress reward. */
  lemma ContouringLinearDot(J: Matrix, e: Vector, xVec: Vector, wc: real, wl: real, qVs: real, v: Vector)
    requires ErrorJacobianShape(J) && |e| == 2 && |xVec| == NX && |v| == NX
    ensures Dot(ContouringLinear(J, e, xVec, wc, wl, qVs), v)
            == Times(Times(2.0 * wc, e[0] - Dot(J[0], xVec)), Dot(J[0], v))
               + Times(Times(2.0 * wl, e[1] - Dot(J[1], xVec)), Dot(J[1], v))
               - Times(qVs, v[IVs])
  {
    var s0 := ScaleVec(Times(2.0 * wc, e[0] - Dot(J[0], xVec)), J[0]);
    var s1 := ScaleVec(Times(2.0 * wl, e[1] - Dot(J[1], xVec)), J[1]);
    var s2 := ScaleVec(qVs, Unit(NX, IVs));
    DotSub(AddVec(s0, s1), s2, v);
    DotAdd(s0, s1, v);
    DotScale(Times(2.0 * wc, e[0] - Dot(J[0], xVec)), J[0], v);
    DotScale(Times(2.0 * wl, e[1] - Dot(J[1], xVec)), J[1], v);
    DotScaledUnit(qVs, IVs, v);
    assert ContouringLinear(J, e, xVec, wc, wl, qVs) == SubVec(AddVec(s0, s1), s2);
  }

  /** The contouring quadratic and linear parts are those of the penalty on
      the linearised errors a + Jv, the yaw-rate regularisation and the
      progress reward, where a = e - Jx is the part of the errors that the
      linearisation at x leaves constant. */
  lemma ContouringPenalty(J: Matrix, e: Vector, xVec: Vector, wc: real, wl: real, wr: real, qVs: real)
    requires ErrorJacobianShape(J) && |e| == 2 && |xVec| == NX
    ensures IsErrorPenalty(ContouringQuadratic(J, wc, wl, wr), ContouringLinear(J, e, xVec, wc, wl, qVs),
                           J, e, xVec, wc, wl, wr, qVs)
  {
    forall v: Vector | |v| == NX {
      ContouringObjective(J, e, xVec, wc, wl, wr, qVs, v);
    }
  }

  /** The contouring objective along one direction v. */
  lemma ContouringObjective(J: Matrix, e: Vector, xVec: Vector, wc: real, wl: real, wr: real, qVs: real, v: Vector)
    requires ErrorJacobianShape(J) && |e| == 2 && |xVec| == NX && |v| == NX
    ensures Objective(ContouringQuadratic(J, wc, wl, wr), ContouringLinear(J, e, xVec, wc, wl, qVs), v)
            == PenaltyIncrease(wc, e[0] - Dot(J[0], xVec), Dot(J[0], v))
               + PenaltyIncrease(wl, e[1] - Dot(J[1], xVec), Dot(J[1], v))
               + Times(wr, Times(v[IR], v[IR])) - Times(qVs, v[IVs])
  {
    ContouringQuadForm(J, wc, wl, wr, v);
    ContouringLinearDot(J, e, xVec, wc, wl, qVs, v);
    ErrorPenaltyArithmetic(wc, wl, wr, qVs, e[0] - Dot(J[0], xVec), e[1] - Dot(J[1], xVec),
                           Dot(J[0], v), Dot(J[1], v), v[IR], v[IVs]);
  }

  /** The contouring block is the weighted squared linearised errors, up to a
      constant: with e(v) = (e - Jx) + Jv the errors linearised at the state,
      1/2 v'Qv + q'v == wc (e_c(v)^2 - e_c(0)^2) + wl (e_l(v)^2 - e_l(0)^2)
      + wr r^2 - qVs vs for every v, where wc and wr are the stage's
      contouring and yaw-rate weights and wl the lag weight. */
  lemma ContouringCostIsLinearisedErrorPenalty(track: Spline, trig: Trig, p: CostParams, x: State, k: int)
    ensures var c := ContouringCost(track, trig, p, x, k);
            var ei := ErrorModel(track, trig, x);
            IsErrorPenalty(c.Q, c.q, ei.dError, ei.error, StateToVector(x),
                           ContouringWeight(p, k), p.qL, YawRateWeight(p, k), p.qVs)
  {
    var ei := ErrorModel(track, trig, x);
    ContouringPenalty(ei.dError, ei.error, StateToVector(x), ContouringWeight(p, k), p.qL, YawRateWeight(p, k), p.qVs);
  }

  /** Nonnegative contouring, lag and yaw-rate weights give a positive
      semidefinite contouring Q. */
  lemma ContouringQuadraticPositiveSemidefinite(J: Matrix, wc: real, wl: real, wr: real)
    requires ErrorJacobianShape(J) && wc >= 0.0 && wl >= 0.0 && wr >= 0.0
    ensures PositiveSemidefinite(ContouringQuadratic(J, wc, wl, wr), NX)
  {
    var A, B, C := Outer(2.0 * wc, J[0]), Outer(2.0 * wl, J[1]), Outer(2.0 * wr, Unit(NX, IR));
    ContouringQuadraticIsSum(J, wc, wl, wr);
    OuterPositiveSemidefinite(2.0 * wc, J[0]);
    OuterPositiveSemidefinite(2.0 * wl, J[1]);
    OuterPositiveSemidefinite(2.0 * wr, Unit(NX, IR));
    AddPositiveSemidefinite(A, B, NX);
    AddPositiveSemidefinite(Add(A, B, NX, NX), C, NX);
  }

  /** Nonnegative contouring, lag and yaw-rate weights give a positive
      semidefinite contouring block. */
  lemma ContouringCostPositiveSemidefinite(track: Spline, trig: Trig, p: CostParams, x: State, k: int)
    requires ContouringWeight(p, k) >= 0.0 && p.qL >= 0.0 && YawRateWeight(p, k) >= 0.0
    ensures PositiveSemidefinite(ContouringCost(track, trig, p, x, k).Q, NX)
  {
    ContouringQuadraticPositiveSemidefinite(ErrorModel(track, trig, x).dError, ContouringWeight(p, k), p.qL,
                                            YawRateWeight(p, k));
  }

  /** Every stage before the terminal one has the same contouring block. */
  lemma StagesBeforeTerminalAgree(track: Spline, trig: Trig, p: CostParams, x: State, k1: int, k2: int)
    requires k1 < N && k2 < N
    ensures ContouringCost(track, trig, p, x, k1) == ContouringCost(track, trig, p, x, k2)
  {
  }

  /** The terminal stage is an ordinary stage whose contouring and yaw-rate
      weights are multiplied by their terminal multipliers. */
  lemma TerminalStageUsesMultipliedWeights(track: Spline, trig: Trig, p: CostParams, x: State, k: int)
    requires k >= N
    ensures ContouringCost(track, trig, p, x, k)
            == ContouringCost(track, trig, p.(qC := p.qCNMult * p.qC, qR := p.qRNMult * p.qR), x, 0)
  {
    var p' := p.(qC := p.qCNMult * p.qC, qR := p.qRNMult * p.qR);
    assert ContouringWeight(p', 0) == ContouringWeight(p, k);
    assert YawRateWeight(p', 0) == YawRateWeight(p, k);
    assert p'.qL == p.qL && p'.qVs == p.qVs;
  }

  // ===========================================================================
  // The assembled stage cost

  /** The symmetrisation in the assembly changes nothing: the three summed
      blocks are already symmetric. */
  lemma GetCostSymmetrisationIsIdentity(track: Spline, trig: Trig, p: CostParams, x: State, k: int)
    requires x.vx != 0.0
    ensures GetCost(track, trig, p, x, k).Q
            == Add(Add(ContouringCost(track, trig, p, x, k).Q, InputCost(p).Q, NX, NX),
                   GetBetaCost(trig, p, x).Q, NX, NX)
  {
    var cQ, iQ, bQ := ContouringCost(track, trig, p, x, k).Q, InputCost(p).Q, GetBetaCost(trig, p, x).Q;
    assert Symmetric(iQ, NX);
    BetaCostShape(trig, p, x);
    AddSymmetric(cQ, iQ, NX);
    AddSymmetric(Add(cQ, iQ, NX, NX), bQ, NX);
    SymmetrizeSymmetric(Add(Add(cQ, iQ, NX, NX), bQ, NX, NX), NX);
  }

  /** The remaining blocks of the stage cost: R and r come from the input
      block alone, and q is the contouring q plus the slip q. */
  lemma GetCostBlocks(track: Spline, trig: Trig, p: CostParams, x: State, k: int)
    requires x.vx != 0.0
    ensures var c := GetCost(track, trig, p, x, k);
            && c.R == InputCost(p).R && c.r == Zeros(NU)
            && c.q == AddVec(ContouringCost(track, trig, p, x, k).q, GetBetaCost(trig, p, x).q)
  {
    var c := GetCost(track, trig, p, x, k);
    var cc, ic, bc := ContouringCost(track, trig, p, x, k), InputCost(p), GetBetaCost(trig, p, x);
    assert c.R == Add(Add(cc.R, ic.R, NU, NU), bc.R, NU, NU);
    assert c.q == AddVec(AddVec(cc.q, ic.q), bc.q);
    assert c.r == AddVec(AddVec(cc.r, ic.r), bc.r);
    SumOfBlocks(cc, ic, bc);
  }

  /** Summing a state-only block, the input block and another state-only block. */
  lemma SumOfBlocks(cc: CostMatrix, ic: CostMatrix, bc: CostMatrix)
    requires WellFormed(cc) && WellFormed(ic) && WellFormed(bc)
    requires OnlyStateTerms(cc) && OnlyStateTerms(bc) && ic.q == Zeros(NX) && ic.r == Zeros(NU)
    ensures Add(Add(cc.R, ic.R, NU, NU), bc.R, NU, NU) == ic.R
    ensures AddVec(AddVec(cc.q, ic.q), bc.q) == AddVec(cc.q, bc.q)
    ensures AddVec(AddVec(cc.r, ic.r), bc.r) == Zeros(NU)
  {
    MatrixExt(Add(Add(cc.R, ic.R, NU, NU), bc.R, NU, NU), ic.R, NU, NU);
  }

  /** With nonnegative weights the stage cost's Q is positive semidefinite, as
      the quadratic-program solver requires. */
  lemma GetCostPositiveSemidefinite(track: Spline, trig: Trig, p: CostParams, x: State, k: int)
    requires x.vx != 0.0
    requires ContouringWeight(p, k) >= 0.0 && p.qL >= 0.0 && YawRateWeight(p, k) >= 0.0
    requires p.rD >= 0.0 && p.rDelta >= 0.0 && p.rVs >= 0.0
    requires p.rdD >= 0.0 && p.rdDelta >= 0.0 && p.rdVs >= 0.0
    requires p.qBeta >= 0.0
    ensures PositiveSemidefinite(GetCost(track, trig, p, x, k).Q, NX)
  {
    var cQ, iQ, bQ := ContouringCost(track, trig, p, x, k).Q, InputCost(p).Q, GetBetaCost(trig, p, x).Q;
    GetCostSymmetrisationIsIdentity(track, trig, p, x, k);
    ContouringCostPositiveSemidefinite(track, trig, p, x, k);
    InputCostPositiveSemidefinite(p);
    BetaCostPositiveSemidefinite(trig, p, x);
    AddPositiveSemidefinite(cQ, iQ, NX);
    AddPositiveSemidefinite(Add(cQ, iQ, NX, NX), bQ, NX);
  }
}
