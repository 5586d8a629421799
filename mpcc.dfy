/**
  The shared vocabulary of the contouring controller's cost: dimensions, the
  index table that places each named state, input and slack variable in its
  vector, the vehicle state, the reference-path and elementary-function
  collaborators, the cost weights and the quadratic cost bundle.

  The dimensions and offsets below stand in for the ones fixed by the
  controller's configuration header, which is not part of this model; the
  proofs rely only on the offsets being distinct and in range.
 */
module Mpcc {
  import opened Matrices

  // ---------------------------------------------------------------------------
  // Dimensions and the index table

  /** State dimension, input dimension, number of soft constraints, horizon length. */
  const NX: nat := 10
  const NU: nat := 3
  const NS: nat := 3
  const N: int := 60

  // offsets in the state vector
  const IX: nat := 0
  const IY: nat := 1
  const IPhi: nat := 2
  const IVx: nat := 3
  const IVy: nat := 4
  const IR: nat := 5
  const IS: nat := 6
  const ID: nat := 7
  const IDelta: nat := 8
  const IVs: nat := 9

  // offsets in the input vector (rates of change of D, delta and vs)
  const IdD: nat := 0
  const IdDelta: nat := 1
  const IdVs: nat := 2

  // offsets in the slack vector
  const IConTrack: nat := 0
  const IConTire: nat := 1
  const IConAlpha: nat := 2

  // ---------------------------------------------------------------------------
  // Vehicle state

  /** Position, heading, body velocities, yaw rate, arc length and the three
      "real" inputs (duty cycle, steering angle, progress rate). */
  datatype State = State(
    X: real, Y: real, phi: real, vx: real, vy: real, r: real,
    s: real, D: real, delta: real, vs: real)

  /** The state laid out in its vector according to the index table. */
  function StateToVector(x: State): (v: Vector)
    ensures |v| == NX
    ensures v[IX] == x.X && v[IY] == x.Y && v[IPhi] == x.phi
    ensures v[IVx] == x.vx && v[IVy] == x.vy && v[IR] == x.r && v[IS] == x.s
    ensures v[ID] == x.D && v[IDelta] == x.delta && v[IVs] == x.vs
  {
    Zeros(NX)[IX := x.X][IY := x.Y][IPhi := x.phi][IVx := x.vx][IVy := x.vy]
      [IR := x.r][IS := x.s][ID := x.D][IDelta := x.delta][IVs := x.vs]
  }

  /** Reads the named fields back out of a state vector. */
  function VectorToState(v: Vector): (x: State)
    requires |v| == NX
    ensures StateToVector(x) == v
  {
    State(v[IX], v[IY], v[IPhi], v[IVx], v[IVy], v[IR], v[IS], v[ID], v[IDelta], v[IVs])
  }

  /** The index table is a bijection: no two fields share an offset. */
  lemma StateVectorRoundTrip(x: State)
    ensures VectorToState(StateToVector(x)) == x
  {
  }

  // ---------------------------------------------------------------------------
  // Collaborators that are not part of this model

  datatype Vec2 = Vec2(x: real, y: real)

  /** The arc-length parameterised reference path: position, first and
      second derivative as functions of the arc length. */
  datatype Spline = Spline(
    position: real -> Vec2,
    derivative: real -> Vec2,
    secondDerivative: real -> Vec2)

  /** The elementary functions the cost uses; nothing is assumed about them. */
  datatype Trig = Trig(
    sin: real -> real,
    cos: real -> real,
    atan: real -> real,
    atan2: (real, real) -> real)

  // ---------------------------------------------------------------------------
  // Values computed per stage

  /** Geometry of the path at one arc length. */
  datatype TrackPoint = TrackPoint(
    xRef: real, yRef: real, dxRef: real, dyRef: real,
    thetaRef: real, dthetaRef: real)

  /** Contouring and lag error, and their 2 x NX Jacobian. */
  datatype ErrorInfo = ErrorInfo(error: Vector, dError: Matrix)

  /** The weights of the cost (read-only configuration). */
  datatype CostParams = CostParams(
    qC: real, qL: real, qVs: real,
    qCNMult: real, qR: real, qRNMult: real,
    qBeta: real,
    rD: real, rDelta: real, rVs: real,
    rdD: real, rdDelta: real, rdVs: real,
    scQuadTrack: real, scQuadTire: real, scQuadAlpha: real,
    scLinTrack: real, scLinTire: real, scLinAlpha: real)

  /** The stage cost 1/2 x'Qx + q'x + 1/2 u'Ru + r'u + x'Su + 1/2 s'Zs + z's. */
  datatype CostMatrix = CostMatrix(
    Q: Matrix, R: Matrix, S: Matrix, q: Vector, r: Vector, Z: Matrix, z: Vector)

  predicate WellFormed(c: CostMatrix) {
    && IsMatrix(c.Q, NX, NX) && IsMatrix(c.R, NU, NU) && IsMatrix(c.S, NX, NU)
    && |c.q| == NX && |c.r| == NU
    && IsMatrix(c.Z, NS, NS) && |c.z| == NS
  }

  /** A cost block that contributes nothing to the input, cross and slack terms. */
  predicate OnlyStateTerms(c: CostMatrix) {
    && c.R == ZeroMatrix(NU, NU) && c.S == ZeroMatrix(NX, NU) && c.r == Zeros(NU)
    && c.Z == ZeroMatrix(NS, NS) && c.z == Zeros(NS)
  }
}
