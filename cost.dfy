/**
  The per-stage cost of the model-predictive contouring controller: it turns
  the contouring objective at stage k into the quadratic-program cost bundle
  {Q, R, S, q, r, Z, z}.

  Operations that the controller computes as straight expressions are
  functions here (GetRefPoint, GetBetaCost, GetCost). Operations that start
  from a fresh zero, identity or ones matrix and overwrite single entries are
  methods that do the same on value matrices (GetErrorInfo,
  GetContouringCost, GetInputCost, GetSoftConstraintCost); each is proved
  equal to a closed-form specification function (ErrorModel, ContouringCost,
  InputCost, SoftConstraintCost), which GetCost and the lemmas use.
 */
module Cost {
  import opened Matrices
  import opened Mpcc

  function Abs(a: real): real {
    if a < 0.0 then -a else a
  }

  // ===========================================================================
  // Reference point lookup

  /** Geometry of the reference path at the state's arc length. The curvature
      term is computed only when the squared norm of the second derivative is
      at least 1, and is exactly 0 otherwise; the divisor is then at least 1. */
  function GetRefPoint(track: Spline, trig: Trig, x: State): (tp: TrackPoint)
    ensures tp.xRef == track.position(x.s).x && tp.yRef == track.position(x.s).y
    ensures tp.dxRef == track.derivative(x.s).x && tp.dyRef == track.derivative(x.s).y
    ensures tp.thetaRef == trig.atan2(tp.dyRef, tp.dxRef)
    ensures var dd := track.secondDerivative(x.s);
            var norm2 := Times(dd.x, dd.x) + Times(dd.y, dd.y);
            && (norm2 < 1.0 ==> tp.dthetaRef == 0.0)
            && (norm2 >= 1.0 ==> tp.dthetaRef * norm2 == tp.dxRef * dd.y - tp.dyRef * dd.x)
  {
    var s := x.s;
    var posRef := track.position(s);
    var dposRef := track.derivative(s);
    var thetaRef := trig.atan2(dposRef.y, dposRef.x);
    var ddposRef := track.secondDerivative(s);
    var ddx, ddy := ddposRef.x, ddposRef.y;
    var dthetaRef :=
      if Abs(Times(ddx, ddx) + Times(ddy, ddy)) >= 1.0
      then (dposRef.x * ddy - dposRef.y * ddx) / (Times(ddx, ddx) + Times(ddy, ddy))
      else 0.0;
    TrackPoint(posRef.x, posRef.y, dposRef.x, dposRef.y, thetaRef, dthetaRef)
  }

  // ===========================================================================
  // Error model

  /** The offset (dx, dy) from the car to its reference point, expressed in
      the path frame of heading theta (sn = sin theta, cs = cos theta): the
      contouring error is its component along the path normal, */
  function ContouringErrorAt(sn: real, cs: real, dx: real, dy: real): real {
    -sn * dx + cs * dy
  }

  /** and the lag error its component along the path tangent. */
  function LagErrorAt(sn: real, cs: real, dx: real, dy: real): real {
    cs * dx + sn * dy
  }

  /** Derivative of the contouring error with respect to the arc length, by
      the chain rule through the reference point (dxRef, dyRef) and the
      heading (dtheta); (ex, ey) is the offset from the reference point to
      the car. */
  function ContouringSlopeAt(sn: real, cs: real, ex: real, ey: real,
                             dxRef: real, dyRef: real, dtheta: real): real {
    dtheta * cs * ex + dtheta * sn * ey - dxRef * sn + dyRef * cs
  }

  /** Derivative of the lag error with respect to the arc length. */
  function LagSlopeAt(sn: real, cs: real, ex: real, ey: real,
                      dxRef: real, dyRef: real, dtheta: real): real {
    dtheta * sn * ex - dtheta * cs * ey + dxRef * cs + dyRef * sn
  }

  /** Contouring error, lag error and their Jacobian, in closed form. The
      Jacobian depends on the state only through X, Y and s, and a car that
      sits on its reference point has zero error whatever the heading. */
  function ErrorModel(track: Spline, trig: Trig, x: State): (ei: ErrorInfo)
    ensures |ei.error| == 2 && IsMatrix(ei.dError, 2, NX)
    ensures forall i, j :: 0 <= i < 2 && 0 <= j < NX && j != IX && j != IY && j != IS ==>
              ei.dError[i][j] == 0.0
    ensures var tp := GetRefPoint(track, trig, x);
            x.X == tp.xRef && x.Y == tp.yRef ==> ei.error[0] == 0.0 && ei.error[1] == 0.0
  {
    var tp := GetRefPoint(track, trig, x);
    var sn, cs := trig.sin(tp.thetaRef), trig.cos(tp.thetaRef);
    var dx, dy := tp.xRef - x.X, tp.yRef - x.Y;
    var dContouring := ContouringSlopeAt(sn, cs, -dx, -dy, tp.dxRef, tp.dyRef, tp.dthetaRef);
    var dLag := LagSlopeAt(sn, cs, -dx, -dy, tp.dxRef, tp.dyRef, tp.dthetaRef);
    var dError := seq(2, i requires 0 <= i < 2 => seq(NX, j requires 0 <= j < NX =>
      if j == IX then (if i == 0 then sn else -cs)
      else if j == IY then (if i == 0 then -cs else -sn)
      else if j == IS then (if i == 0 then dContouring else dLag)
      else 0.0));
    ErrorInfo([ContouringErrorAt(sn, cs, dx, dy), LagErrorAt(sn, cs, dx, dy)], dError)
  }

  /** Computes the errors into a 1 x 2 row and fills the Jacobian entry by
      entry, starting from the zero matrix. */
  method GetErrorInfo(track: Spline, trig: Trig, x: State) returns (ei: ErrorInfo)
    ensures ei == ErrorModel(track, trig, x)
  {
    var tp := GetRefPoint(track, trig, x);
    var sn, cs := trig.sin(tp.thetaRef), trig.cos(tp.thetaRef);
    var contouringError := Zeros(2);
    contouringError := contouringError[0 := ContouringErrorAt(sn, cs, tp.xRef - x.X, tp.yRef - x.Y)];
    contouringError := contouringError[1 := LagErrorAt(sn, cs, tp.xRef - x.X, tp.yRef - x.Y)];
    var dContouringError :=
      ContouringSlopeAt(sn, cs, x.X - tp.xRef, x.Y - tp.yRef, tp.dxRef, tp.dyRef, tp.dthetaRef);
    var dLagError :=
      LagSlopeAt(sn, cs, x.X - tp.xRef, x.Y - tp.yRef, tp.dxRef, tp.dyRef, tp.dthetaRef);

    var dError := ZeroMatrix(2, NX);
    dError := Set(dError, 2, NX, 0, IX, sn);
    dError := Set(dError, 2, NX, 0, IY, -cs);
    dError := Set(dError, 2, NX, 0, IS, dContouringError);
    dError := Set(dError, 2, NX, 1, IX, -cs);
    dError := Set(dError, 2, NX, 1, IY, -sn);
    dError := Set(dError, 2, NX, 1, IS, dLagError);

    ei := ErrorInfo(contouringError, dError);
    ghost var spec := ErrorModel(track, trig, x);
    assert contouringError == spec.error;
    MatrixExt(dError, spec.dError, 2, NX);
  }

  // ===========================================================================
  // Side-slip linearisation

  /** vx^2 + vy^2, the denominator of the side-slip Jacobian. */
  function SquaredSpeed(x: State): real {
    Times(x.vx, x.vx) + Times(x.vy, x.vy)
  }

  /** A nonzero longitudinal velocity makes the denominator positive. */
  lemma SquaredSpeedPositive(x: State)
    requires x.vx != 0.0
    ensures SquaredSpeed(x) > 0.0
  {
    SquareNonnegative(x.vx);
    SquareNonnegative(x.vy);
  }

  /** Jacobian of the side-slip angle atan(vy / vx) with respect to the state:
      only the vx and vy entries are nonzero, and they are -vy and vx over
      vx^2 + vy^2. */
  function SlipJacobian(x: State): (dBeta: Vector)
    requires SquaredSpeed(x) > 0.0
    ensures |dBeta| == NX
    ensures forall j :: 0 <= j < NX && j != IVx && j != IVy ==> dBeta[j] == 0.0
    ensures dBeta[IVx] * SquaredSpeed(x) == -x.vy
    ensures dBeta[IVy] * SquaredSpeed(x) == x.vx
  {
    var vx, vy := x.vx, x.vy;
    Zeros(NX)[IVx := -vy / SquaredSpeed(x)][IVy := vx / SquaredSpeed(x)]
  }

  /** The zero-order term of the first-order expansion of the side-slip
      angle around the state. */
  function SlipOffset(trig: Trig, x: State): real
    requires x.vx != 0.0
  {
    SquaredSpeedPositive(x);
    trig.atan(x.vy / x.vx) - Dot(SlipJacobian(x), StateToVector(x))
  }

  /** The squared slip penalty expanded to first order around the state: the
      quadratic term 2 qBeta dBeta' dBeta, computed as a matrix product, is the
      rank-one matrix 2 qBeta dBeta dBeta^T; the linear term lies along dBeta;
      there are no input, cross or slack terms. */
  function GetBetaCost(trig: Trig, p: CostParams, x: State): (c: CostMatrix)
    requires x.vx != 0.0
    ensures WellFormed(c) && OnlyStateTerms(c)
    ensures SquaredSpeed(x) > 0.0
    ensures c.Q == Outer(2.0 * p.qBeta, SlipJacobian(x))
    ensures c.q == ScaleVec(Times(2.0 * p.qBeta, SlipOffset(trig, x)), SlipJacobian(x))
  {
    SquaredSpeedPositive(x);
    var dBeta := SlipJacobian(x);
    var QBeta := Scale(2.0 * p.qBeta, Mul(Transpose([dBeta], 1, NX), [dBeta], NX, 1, NX), NX, NX);
    var qBeta := ScaleVec(Times(2.0 * p.qBeta, SlipOffset(trig, x)), dBeta);
    SlipGramIsOuter(p, x);
    CostMatrix(QBeta, ZeroMatrix(NU, NU), ZeroMatrix(NX, NU), qBeta, Zeros(NU),
               ZeroMatrix(NS, NS), Zeros(NS))
  }

  /** The slip cost acts on vx and vy only: its Q is symmetric and zero outside
      the vx/vy rows and columns, and its q is zero outside vx and vy. */
  lemma BetaCostShape(trig: Trig, p: CostParams, x: State)
    requires x.vx != 0.0
    ensures var c := GetBetaCost(trig, p, x);
            && Symmetric(c.Q, NX)
            && (forall i, j :: 0 <= i < NX && 0 <= j < NX && ((i != IVx && i != IVy) || (j != IVx && j != IVy)) ==>
                  c.Q[i][j] == 0.0)
            && (forall j :: 0 <= j < NX && j != IVx && j != IVy ==> c.q[j] == 0.0)
  {
    var c := GetBetaCost(trig, p, x);
    var dBeta := SlipJacobian(x);
    OuterSymmetric(2.0 * p.qBeta, dBeta);
    forall i, j | 0 <= i < NX && 0 <= j < NX && ((i != IVx && i != IVy) || (j != IVx && j != IVy))
      ensures c.Q[i][j] == 0.0
    {
      OuterZeroEntry(2.0 * p.qBeta, dBeta, i, j);
    }
  }

  /** The slip Jacobian's scaled Gram matrix, as GetBetaCost forms it. */
  lemma SlipGramIsOuter(p: CostParams, x: State)
    requires SquaredSpeed(x) > 0.0
    ensures Scale(2.0 * p.qBeta, Mul(Transpose([SlipJacobian(x)], 1, NX), [SlipJacobian(x)], NX, 1, NX), NX, NX)
            == Outer(2.0 * p.qBeta, SlipJacobian(x))
  {
    ScaledGramIsOuter(2.0 * p.qBeta, SlipJacobian(x));
  }

  /** c * u^T * u, for u a 1 x n row, is the outer product c * u * u^T. */
  lemma ScaledGramIsOuter(c: real, u: Vector)
    ensures Scale(c, Mul(Transpose([u], 1, |u|), [u], |u|, 1, |u|), |u|, |u|) == Outer(c, u)
  {
    var n := |u|;
    var T := Transpose([u], 1, n);
    var G := Mul(T, [u], n, 1, n);
    forall i, j | 0 <= i < n && 0 <= j < n ensures Scale(c, G, n, n)[i][j] == Outer(c, u)[i][j] {
      Dot1(T[i], Col([u], 1, n, j));
      assert G[i][j] == u[i] * u[j];
      assert c * (u[i] * u[j]) == c * u[i] * u[j];
    }
    MatrixExt(Scale(c, G, n, n), Outer(c, u), n, n);
  }

  // ===========================================================================
  // Contouring cost

  /** Contouring weight: multiplied at the terminal stage k >= N. */
  function ContouringWeight(p: CostParams, k: int): (w: real)
    ensures k < N ==> w == p.qC
    ensures k >= N ==> w == p.qCNMult * p.qC
  {
    if k < N then p.qC else p.qCNMult * p.qC
  }

  /** Yaw-rate regularisation weight: multiplied at the terminal stage. */
  function YawRateWeight(p: CostParams, k: int): (w: real)
    ensures k < N ==> w == p.qR
    ensures k >= N ==> w == p.qRNMult * p.qR
  {
    if k < N then p.qR else p.qRNMult * p.qR
  }

  /** Columns of a 2 x NX error Jacobian outside X, Y and s are zero. */
  predicate ErrorJacobianShape(J: Matrix) {
    IsMatrix(J, 2, NX) &&
    forall i, j :: 0 <= i < 2 && 0 <= j < NX && j != IX && j != IY && j != IS ==> J[i][j] == 0.0
  }

  /** 2 (J'WJ + wr E_rr) for W = diag(wc, wl), as a sum of weighted outer
      products of the Jacobian rows and of the yaw-rate unit vector. */
  function ContouringQuadratic(J: Matrix, wc: real, wl: real, wr: real): (Q: Matrix)
    requires ErrorJacobianShape(J)
    ensures IsMatrix(Q, NX, NX) && Symmetric(Q, NX)
    ensures forall i, j :: 0 <= i < NX && 0 <= j < NX && i != IX && i != IY && i != IS && i != IR ==>
              Q[i][j] == 0.0
    ensures Q[IR][IR] == 2.0 * wr
  {
    var A := Outer(2.0 * wc, J[0]);
    var B := Outer(2.0 * wl, J[1]);
    var C := Outer(2.0 * wr, Unit(NX, IR));
    OuterSymmetric(2.0 * wc, J[0]);
    OuterSymmetric(2.0 * wl, J[1]);
    OuterSymmetric(2.0 * wr, Unit(NX, IR));
    AddSymmetric(A, B, NX);
    AddSymmetric(Add(A, B, NX, NX), C, NX);
    forall i, j | 0 <= i < NX && 0 <= j < NX && i != IX && i != IY && i != IS && i != IR
      ensures Add(Add(A, B, NX, NX), C, NX, NX)[i][j] == 0.0
    {
      OuterZeroEntry(2.0 * wc, J[0], i, j);
      OuterZeroEntry(2.0 * wl, J[1], i, j);
      OuterZeroEntry(2.0 * wr, Unit(NX, IR), i, j);
    }
    OuterZeroEntry(2.0 * wc, J[0], IR, IR);
    OuterZeroEntry(2.0 * wl, J[1], IR, IR);
    OuterUnitEntry(2.0 * wr, NX, IR);
    Add(Add(A, B, NX, NX), C, NX, NX)
  }

  /** 2 (e0 W J) minus the progress reward at vs, where e0 = e - J x is the
      part of the errors e that the linearisation at x leaves constant. */
  function ContouringLinear(J: Matrix, e: Vector, xVec: Vector, wc: real, wl: real, qVs: real): (q: Vector)
    requires ErrorJacobianShape(J) && |e| == 2 && |xVec| == NX
    ensures |q| == NX
    ensures forall j :: 0 <= j < NX && j != IX && j != IY && j != IS && j != IVs ==> q[j] == 0.0
    ensures q[IVs] == -qVs
  {
    var q := SubVec(AddVec(ScaleVec(Times(2.0 * wc, e[0] - Dot(J[0], xVec)), J[0]),
                           ScaleVec(Times(2.0 * wl, e[1] - Dot(J[1], xVec)), J[1])),
                    ScaleVec(qVs, Unit(NX, IVs)));
    assert J[0][IVs] == 0.0 && J[1][IVs] == 0.0;
    q
  }

  /** The contouring block in closed form. With e the two errors, J their
      Jacobian and W = diag(contouring weight, lag weight), the quadratic term is
      2 (J'WJ + yaw-rate weight * E_rr) and the linear term is 2 (e - Jx)' W J,
      less the progress reward at vs. */
  function ContouringCost(track: Spline, trig: Trig, p: CostParams, x: State, k: int): (c: CostMatrix)
    ensures WellFormed(c) && OnlyStateTerms(c)
    ensures Symmetric(c.Q, NX)
    ensures forall i, j :: 0 <= i < NX && 0 <= j < NX && i != IX && i != IY && i != IS && i != IR ==>
              c.Q[i][j] == 0.0
    ensures c.Q[IR][IR] == 2.0 * YawRateWeight(p, k)
    ensures forall j :: 0 <= j < NX && j != IX && j != IY && j != IS && j != IVs ==> c.q[j] == 0.0
    ensures c.q[IVs] == -p.qVs
  {
    var ei := ErrorModel(track, trig, x);
    var J := ei.dError;
    var xVec := StateToVector(x);
    CostMatrix(ContouringQuadratic(J, ContouringWeight(p, k), p.qL, YawRateWeight(p, k)),
               ZeroMatrix(NU, NU), ZeroMatrix(NX, NU),
               ContouringLinear(J, ei.error, xVec, ContouringWeight(p, k), p.qL, p.qVs),
               Zeros(NU), ZeroMatrix(NS, NS), Zeros(NS))
  }

  /** Builds the weight matrix, forms J'WJ by matrix products, overwrites the
      yaw-rate diagonal entry, doubles, forms the linear term by matrix
      products and overwrites its progress entry. Overwriting agrees with the
      additive closed form because the Jacobian's r and vs columns are zero. */
  method GetContouringCost(track: Spline, trig: Trig, p: CostParams, x: State, k: int)
    returns (c: CostMatrix)
    ensures c == ContouringCost(track, trig, p, x, k)
  {
    var xVec := StateToVector(x);
    var errorInfo := GetErrorInfo(track, trig, x);
    var J := errorInfo.dError;

    var W := ZeroMatrix(2, 2);
    W := Set(W, 2, 2, 0, 0, ContouringWeight(p, k));
    W := Set(W, 2, 2, 1, 1, p.qL);
    MatrixExt(W, Diag([ContouringWeight(p, k), p.qL]), 2, 2);

    var Q := Mul(Mul(Transpose(J, 2, NX), W, NX, 2, 2), J, NX, 2, NX);
    Q := Set(Q, NX, NX, IR, IR, YawRateWeight(p, k));
    Q := Scale(2.0, Q, NX, NX);
    QuadraticByProducts(J, ContouringWeight(p, k), p.qL, YawRateWeight(p, k), W);
    assert Q == ContouringQuadratic(J, ContouringWeight(p, k), p.qL, YawRateWeight(p, k));

    var q := SubVec(ScaleVec(2.0, VecMat(VecMat(errorInfo.error, W, 2, 2), J, 2, NX)),
                    ScaleVec(2.0, VecMat(VecMat(VecMat(xVec, Transpose(J, 2, NX), NX, 2), W, 2, 2), J, 2, NX)));
    q := q[IVs := -p.qVs];
    LinearByProducts(J, errorInfo.error, xVec, ContouringWeight(p, k), p.qL, p.qVs, W, q);

    c := CostMatrix(Q, ZeroMatrix(NU, NU), ZeroMatrix(NX, NU), q, Zeros(NU),
                    ZeroMatrix(NS, NS), Zeros(NS));
    assert c == CostMatrix(ContouringQuadratic(J, ContouringWeight(p, k), p.qL, YawRateWeight(p, k)),
                           ZeroMatrix(NU, NU), ZeroMatrix(NX, NU),
                           ContouringLinear(J, errorInfo.error, xVec, ContouringWeight(p, k), p.qL, p.qVs),
                           Zeros(NU), ZeroMatrix(NS, NS), Zeros(NS));
  }

  /** 2 (J'WJ with entry (r, r) overwritten by wr) is the additive closed form. */
  lemma QuadraticByProducts(J: Matrix, wc: real, wl: real, wr: real, W: Matrix)
    requires ErrorJacobianShape(J) && W == Diag([wc, wl])
    ensures Scale(2.0, Set(Mul(Mul(Transpose(J, 2, NX), W, NX, 2, 2), J, NX, 2, NX), NX, NX, IR, IR, wr), NX, NX)
            == ContouringQuadratic(J, wc, wl, wr)
  {
    var G := Mul(Mul(Transpose(J, 2, NX), W, NX, 2, 2), J, NX, 2, NX);
    var Q := Scale(2.0, Set(G, NX, NX, IR, IR, wr), NX, NX);
    var spec := ContouringQuadratic(J, wc, wl, wr);
    forall i, j | 0 <= i < NX && 0 <= j < NX ensures Q[i][j] == spec[i][j] {
      WeightedGramEntry(J, wc, wl, W, i, j);
      QuadraticEntry(J, wc, wl, wr, G, i, j);
    }
    MatrixExt(Q, spec, NX, NX);
  }

  /** One entry of QuadraticByProducts. */
  lemma QuadraticEntry(J: Matrix, wc: real, wl: real, wr: real, G: Matrix, i: nat, j: nat)
    requires ErrorJacobianShape(J) && IsMatrix(G, NX, NX) && i < NX && j < NX
    requires G[i][j] == wc * J[0][i] * J[0][j] + wl * J[1][i] * J[1][j]
    ensures Scale(2.0, Set(G, NX, NX, IR, IR, wr), NX, NX)[i][j] == ContouringQuadratic(J, wc, wl, wr)[i][j]
  {
    if i == IR && j == IR {
      assert ContouringQuadratic(J, wc, wl, wr)[IR][IR] == 2.0 * wr;
    } else {
      var A, B, C := Outer(2.0 * wc, J[0]), Outer(2.0 * wl, J[1]), Outer(2.0 * wr, Unit(NX, IR));
      assert ContouringQuadratic(J, wc, wl, wr)[i][j] == A[i][j] + B[i][j] + C[i][j];
      assert Unit(NX, IR)[i] == 0.0 || Unit(NX, IR)[j] == 0.0;
      DoubledGramEntry(wc, wl, J[0][i], J[0][j], J[1][i], J[1][j]);
    }
  }

  /** Doubling a weighted sum of two products doubles each weight. */
  lemma DoubledGramEntry(wc: real, wl: real, a0: real, b0: real, a1: real, b1: real)
    ensures 2.0 * (wc * a0 * b0 + wl * a1 * b1) == 2.0 * wc * a0 * b0 + 2.0 * wl * a1 * b1
  {
  }

  /** 2 e'WJ - 2 x'J'WJ with entry vs overwritten by -qVs is the closed form. */
  lemma LinearByProducts(J: Matrix, e: Vector, xVec: Vector, wc: real, wl: real, qVs: real,
                         W: Matrix, q: Vector)
    requires ErrorJacobianShape(J) && |e| == 2 && |xVec| == NX && W == Diag([wc, wl])
    requires q == SubVec(ScaleVec(2.0, VecMat(VecMat(e, W, 2, 2), J, 2, NX)),
                         ScaleVec(2.0, VecMat(VecMat(VecMat(xVec, Transpose(J, 2, NX), NX, 2), W, 2, 2), J, 2, NX)))
                  [IVs := -qVs]
    ensures q == ContouringLinear(J, e, xVec, wc, wl, qVs)
  {
    var d0, d1 := Dot(J[0], xVec), Dot(J[1], xVec);
    var spec := ContouringLinear(J, e, xVec, wc, wl, qVs);
    forall j | 0 <= j < NX ensures q[j] == spec[j] {
      if j != IVs {
        LinearEntry(J, e, xVec, wc, wl, W, d0, d1, j);
      }
    }
    assert q == spec;
  }

  /** One entry of the linear term: 2 (e W J)_j - 2 (x'J'W J)_j == 2 ((e - Jx) W J)_j. */
  lemma LinearEntry(J: Matrix, e: Vector, xVec: Vector, wc: real, wl: real, W: Matrix,
                    d0: real, d1: real, j: nat)
    requires IsMatrix(J, 2, NX) && |e| == 2 && |xVec| == NX && W == Diag([wc, wl]) && j < NX
    requires d0 == Dot(J[0], xVec) && d1 == Dot(J[1], xVec)
    ensures 2.0 * VecMat(VecMat(e, W, 2, 2), J, 2, NX)[j]
            - 2.0 * VecMat(VecMat(VecMat(xVec, Transpose(J, 2, NX), NX, 2), W, 2, 2), J, 2, NX)[j]
            == Times(Times(2.0 * wc, e[0] - d0), J[0][j]) + Times(Times(2.0 * wl, e[1] - d1), J[1][j])
  {
    RowTimesJacobianRows(xVec, J, d0, d1);
    WeightedRowTimesJacobian(e, W, J, wc, wl, j);
    WeightedRowTimesJacobian([d0, d1], W, J, wc, wl, j);
    LinearTermEntry(wc, wl, e[0], e[1], d0, d1, J[0][j], J[1][j]);
  }

  /** x' J' for a 2 x NX matrix J: the two row products. */
  lemma RowTimesJacobianRows(v: Vector, J: Matrix, d0: real, d1: real)
    requires |v| == NX && IsMatrix(J, 2, NX)
    requires d0 == Dot(J[0], v) && d1 == Dot(J[1], v)
    ensures VecMat(v, Transpose(J, 2, NX), NX, 2) == [d0, d1]
  {
    var JT := Transpose(J, 2, NX);
    var r := VecMat(v, JT, NX, 2);
    assert Col(JT, NX, 2, 0) == J[0];
    assert Col(JT, NX, 2, 1) == J[1];
    DotComm(v, J[0]);
    DotComm(v, J[1]);
    assert r == [d0, d1];
  }

  /** (v' W J)_j for W = diag(wc, wl). */
  lemma WeightedRowTimesJacobian(v: Vector, W: Matrix, J: Matrix, wc: real, wl: real, j: nat)
    requires |v| == 2 && W == Diag([wc, wl]) && IsMatrix(J, 2, NX) && j < NX
    ensures VecMat(VecMat(v, W, 2, 2), J, 2, NX)[j] == wc * v[0] * J[0][j] + wl * v[1] * J[1][j]
  {
    var vW := VecMat(v, W, 2, 2);
    Dot2(v, Col(W, 2, 2, 0));
    Dot2(v, Col(W, 2, 2, 1));
    assert vW[0] == v[0] * wc && vW[1] == v[1] * wl;
    Dot2(vW, Col(J, 2, NX, j));
    assert v[0] * wc * J[0][j] == wc * v[0] * J[0][j];
    assert v[1] * wl * J[1][j] == wl * v[1] * J[1][j];
  }

  /** (J' W J)_ij for W = diag(wc, wl). */
  lemma WeightedGramEntry(J: Matrix, wc: real, wl: real, W: Matrix, i: nat, j: nat)
    requires IsMatrix(J, 2, NX) && W == Diag([wc, wl]) && i < NX && j < NX
    ensures Mul(Mul(Transpose(J, 2, NX), W, NX, 2, 2), J, NX, 2, NX)[i][j]
            == wc * J[0][i] * J[0][j] + wl * J[1][i] * J[1][j]
  {
    var JT := Transpose(J, 2, NX);
    var JTW := Mul(JT, W, NX, 2, 2);
    assert JTW[i] == VecMat(JT[i], W, 2, 2);
    assert JT[i] == [J[0][i], J[1][i]];
    WeightedRowTimesJacobian(JT[i], W, J, wc, wl, j);
    assert Mul(JTW, J, NX, 2, NX)[i][j] == VecMat(JTW[i], J, 2, NX)[j];
  }

  /** The arithmetic identity behind the linear term: 2 (e W J)_j - 2 (x'J'W J)_j == 2 (e0 W J)_j. */
  lemma LinearTermEntry(wc: real, wl: real, e0: real, e1: real, d0: real, d1: real, a: real, b: real)
    ensures 2.0 * (wc * e0 * a + wl * e1 * b) - 2.0 * (wc * d0 * a + wl * d1 * b)
            == Times(Times(2.0 * wc, e0 - d0), a) + Times(Times(2.0 * wl, e1 - d1), b)
  {
  }

  // ===========================================================================
  // Input cost

  /** Weights of the "real" inputs D, delta and vs, placed in the state vector. */
  function InputWeights(p: CostParams): (w: Vector)
    ensures |w| == NX
  {
    Zeros(NX)[ID := p.rD][IDelta := p.rDelta][IVs := p.rVs]
  }

  /** Weights of the input rates dD, dDelta and dVs, placed in the input vector. */
  function InputRateWeights(p: CostParams): (w: Vector)
    ensures |w| == NU
  {
    Zeros(NU)[IdD := p.rdD][IdDelta := p.rdDelta][IdVs := p.rdVs]
  }

  /** Diagonal costs on the real inputs (in Q) and on their rates (in R),
      doubled for the 1/2 x'Qx convention; every other entry is zero. */
  function InputCost(p: CostParams): (c: CostMatrix)
    ensures WellFormed(c)
    ensures forall i, j :: 0 <= i < NX && 0 <= j < NX ==>
              c.Q[i][j] == if i != j then 0.0
                           else if i == ID then 2.0 * p.rD
                           else if i == IDelta then 2.0 * p.rDelta
                           else if i == IVs then 2.0 * p.rVs
                           else 0.0
    ensures forall i, j :: 0 <= i < NU && 0 <= j < NU ==>
              c.R[i][j] == if i != j then 0.0
                           else if i == IdD then 2.0 * p.rdD
                           else if i == IdDelta then 2.0 * p.rdDelta
                           else if i == IdVs then 2.0 * p.rdVs
                           else 0.0
    ensures c.S == ZeroMatrix(NX, NU) && c.q == Zeros(NX) && c.r == Zeros(NU)
    ensures c.Z == ZeroMatrix(NS, NS) && c.z == Zeros(NS)
  {
    CostMatrix(Diag(ScaleVec(2.0, InputWeights(p))), Diag(ScaleVec(2.0, InputRateWeights(p))),
               ZeroMatrix(NX, NU), Zeros(NX), Zeros(NU), ZeroMatrix(NS, NS), Zeros(NS))
  }

  /** Places each weight on its diagonal entry of a zero matrix, then doubles. */
  method GetInputCost(p: CostParams) returns (c: CostMatrix)
    ensures c == InputCost(p)
  {
    var Q := ZeroMatrix(NX, NX);
    var R := ZeroMatrix(NU, NU);
    Q := Set(Q, NX, NX, ID, ID, p.rD);
    Q := Set(Q, NX, NX, IDelta, IDelta, p.rDelta);
    Q := Set(Q, NX, NX, IVs, IVs, p.rVs);
    R := Set(R, NU, NU, IdD, IdD, p.rdD);
    R := Set(R, NU, NU, IdDelta, IdDelta, p.rdDelta);
    R := Set(R, NU, NU, IdVs, IdVs, p.rdVs);
    Q := Scale(2.0, Q, NX, NX);
    R := Scale(2.0, R, NU, NU);
    c := CostMatrix(Q, R, ZeroMatrix(NX, NU), Zeros(NX), Zeros(NU), ZeroMatrix(NS, NS), Zeros(NS));
    MatrixExt(Q, InputCost(p).Q, NX, NX);
    MatrixExt(R, InputCost(p).R, NU, NU);
  }

  // ===========================================================================
  // Soft-constraint cost

  /** Quadratic slack weights on an all-ones baseline. */
  function SoftQuadWeights(p: CostParams): (w: Vector)
    ensures |w| == NS
  {
    Ones(NS)[IConTrack := p.scQuadTrack][IConTire := p.scQuadTire][IConAlpha := p.scQuadAlpha]
  }

  /** Linear slack weights on an all-ones baseline. */
  function SoftLinWeights(p: CostParams): (w: Vector)
    ensures |w| == NS
  {
    Ones(NS)[IConTrack := p.scLinTrack][IConTire := p.scLinTire][IConAlpha := p.scLinAlpha]
  }

  /** Slack penalties: Z is the identity except at the three constraint
      offsets, z is all ones except there; the state and input blocks are zero. */
  function SoftConstraintCost(p: CostParams): (c: CostMatrix)
    ensures WellFormed(c)
    ensures c.Q == ZeroMatrix(NX, NX) && c.R == ZeroMatrix(NU, NU) && c.S == ZeroMatrix(NX, NU)
    ensures c.q == Zeros(NX) && c.r == Zeros(NU)
    ensures forall i, j :: 0 <= i < NS && 0 <= j < NS ==>
              c.Z[i][j] == if i != j then 0.0
                           else if i == IConTrack then p.scQuadTrack
                           else if i == IConTire then p.scQuadTire
                           else if i == IConAlpha then p.scQuadAlpha
                           else 1.0
    ensures forall i :: 0 <= i < NS ==>
              c.z[i] == if i == IConTrack then p.scLinTrack
                        else if i == IConTire then p.scLinTire
                        else if i == IConAlpha then p.scLinAlpha
                        else 1.0
  {
    CostMatrix(ZeroMatrix(NX, NX), ZeroMatrix(NU, NU), ZeroMatrix(NX, NU), Zeros(NX), Zeros(NU),
               Diag(SoftQuadWeights(p)), SoftLinWeights(p))
  }

  /** Starts from the identity and the ones vector and overwrites the three
      constraint entries. */
  method GetSoftConstraintCost(p: CostParams) returns (c: CostMatrix)
    ensures c == SoftConstraintCost(p)
  {
    var Z := Identity(NS);
    var z := Ones(NS);
    Z := Set(Z, NS, NS, IConTrack, IConTrack, p.scQuadTrack);
    Z := Set(Z, NS, NS, IConTire, IConTire, p.scQuadTire);
    Z := Set(Z, NS, NS, IConAlpha, IConAlpha, p.scQuadAlpha);
    z := z[IConTrack := p.scLinTrack];
    z := z[IConTire := p.scLinTire];
    z := z[IConAlpha := p.scLinAlpha];
    c := CostMatrix(ZeroMatrix(NX, NX), ZeroMatrix(NU, NU), ZeroMatrix(NX, NU), Zeros(NX), Zeros(NU), Z, z);
    MatrixExt(Z, SoftConstraintCost(p).Z, NS, NS);
  }

  // ===========================================================================
  // Assembly

  /** The stage cost: the contouring, input and slip blocks summed, Q
      symmetrised as (Q + Q')/2, no cross term, and the slack terms taken
      unchanged from the soft-constraint block. */
  function GetCost(track: Spline, trig: Trig, p: CostParams, x: State, k: int): (c: CostMatrix)
    requires x.vx != 0.0
    ensures WellFormed(c)
    ensures Symmetric(c.Q, NX)
    ensures c.S == ZeroMatrix(NX, NU)
    ensures c.Z == SoftConstraintCost(p).Z && c.z == SoftConstraintCost(p).z
  {
    var contouringCost := ContouringCost(track, trig, p, x, k);
    var inputCost := InputCost(p);
    var betaCost := GetBetaCost(trig, p, x);
    var softConCost := SoftConstraintCost(p);
    var QNotSym := Add(Add(contouringCost.Q, inputCost.Q, NX, NX), betaCost.Q, NX, NX);
    var Q := Symmetrize(QNotSym, NX);
    var R := Add(Add(contouringCost.R, inputCost.R, NU, NU), betaCost.R, NU, NU);
    var q := AddVec(AddVec(contouringCost.q, inputCost.q), betaCost.q);
    var r := AddVec(AddVec(contouringCost.r, inputCost.r), betaCost.r);
    CostMatrix(Q, R, ZeroMatrix(NX, NU), q, r, softConCost.Z, softConCost.z)
  }
}
