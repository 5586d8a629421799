# Stage cost of the model-predictive contouring controller

This project models `mpcc::Cost`, the part of the MPCC racing controller that
turns the contouring-control objective at one horizon stage `k` into the cost
bundle `{Q, R, S, q, r, Z, z}` of a quadratic program. The stage cost is
`1/2 x'Qx + q'x + 1/2 u'Ru + r'u + 1/2 s'Zs + z's`. It is made of four blocks:

- **Contouring block.** It penalises the contouring error (lateral deviation
  from the reference path) and the lag error (deviation along it), both
  linearised around the current state. It also regularises the yaw rate and
  rewards progress.
- **Side-slip block.** It penalises the linearised slip angle `atan(vy / vx)`.
- **Input block.** It holds diagonal weights on the "real" inputs and on
  their rates.
- **Soft-constraint block.** It holds the slack penalties.

`getCost` sums the state blocks, symmetrises `Q`, and copies the slack terms.

The project has four modules:

- `Matrices` (matrices.dfy): dense real vectors and matrices as sequences. It
  provides the transpose, products, sums, scaling, single-entry updates,
  symmetrisation, quadratic forms and positive semidefiniteness. It also
  holds the facts about them that the proofs use.
- `Mpcc` (mpcc.dfy): the dimensions and index table, the vehicle state and
  its vector layout, the path and elementary-function collaborators, the
  weights, and the cost bundle.
- `Cost` (cost.dfy): the seven operations of `mpcc::Cost`.
  - The operations that are straight expressions (`getRefPoint`,
    `getBetaCost`, `getCost`) are functions.
  - The operations that start from a fresh zero, identity or ones matrix and
    overwrite entries (`getErrorInfo`, `getContouringCost`, `getInputCost`,
    `getSoftConstraintCost`) are methods that do the same on value matrices.
    Each is proved equal to a closed-form specification function:
    `ErrorModel`, `ContouringCost`, `InputCost` and `SoftConstraintCost`.
- `CostLemmas` (cost_lemmas.dfy): what the blocks mean.
  - The errors are the rotated car-to-path offset.
  - The Jacobian is exact in the position columns.
  - Each quadratic-plus-linear block is exactly the expansion of the penalty
    it stands for: the squared slip angle, and the squared errors plus the
    yaw-rate and progress terms.
  - The terminal stage differs from the others only in its weights.
  - The assembled `Q` is symmetric and, given nonnegative weights, positive
    semidefinite.

In these places the code does something a reader might not expect; the
model follows the code:

- **Sign of the contouring error.** The code computes
  `-sin(theta)(x_ref - X) + cos(theta)(y_ref - Y)`. For a car at `Y = 1` beside
  a straight path along the x axis through the origin, this gives `-1`, not a
  positive lateral offset (`CostLemmas.StraightPathErrors`).
- **Curvature term.** The term divides by the squared norm of the second
  derivative and is computed only when that norm is at least 1. On a
  unit-speed turn of curvature `kappa` it is therefore `1 / kappa` for
  `|kappa| >= 1` and 0 otherwise (`CostLemmas.CurvatureTermOnTurn`).
- **Terminal weights.** The multiplied weights apply to every `k >= N`, not
  only to `k == N`.
- **Lag weight.** The lag weight is never multiplied.
- **Soft-constraint baseline.** `Z` and `z` start from the identity and the
  all-ones vector, so entries other than the three constraint offsets are 1.
  They are not zero.

## Model

| member | source | states |
|---|---|---|
| Cost.GetRefPoint | C++/Cost/cost.cpp:19-46 | the reference position and derivative are the path's position and first derivative at the state's arc length; the heading is atan2 of the path derivative; the curvature term is exactly 0 when ddx²+ddy² < 1, and otherwise times ddx²+ddy² equals dx·ddy − dy·ddx, so it is only computed where the divisor is at least 1 |
| CostLemmas.CurvatureTermOnTurn | C++/Cost/cost.cpp:39-43 | on a unit-speed turn of curvature kappa, the term satisfies term·kappa == 1 for \|kappa\| ≥ 1 and is 0 for \|kappa\| < 1 |
| Cost.ContouringErrorAt | C++/Cost/cost.cpp:57-58 | the contouring error of an offset in the path frame; with LagErrorAt it is a rotation of the offset (partners: CostLemmas.RotationFacts, CostLemmas.OffsetShift) |
| Cost.LagErrorAt | C++/Cost/cost.cpp:60-61 | the lag error of an offset in the path frame; see ContouringErrorAt for its partners |
| Cost.ContouringSlopeAt | C++/Cost/cost.cpp:63-66 | the arc-length derivative of the contouring error; it is 0 for a car on a consistently oriented path (partner: CostLemmas.SlopeFacts) |
| Cost.LagSlopeAt | C++/Cost/cost.cpp:67-70 | the arc-length derivative of the lag error; it is the path speed for a car on a consistently oriented path (partner: CostLemmas.SlopeFacts) |
| CostLemmas.RotationFacts | C++/Cost/cost.cpp:57-61 | when sn²+cs² == 1, the two error formulas are undone by the transposed rotation and keep the squared length |
| CostLemmas.OffsetShift | C++/Cost/cost.cpp:57-61 | shifting the offset by (a, b) shifts the contouring error by sn·a − cs·b and the lag error by −cs·a − sn·b |
| CostLemmas.SlopeFacts | C++/Cost/cost.cpp:63-70 | with zero offset and the path derivative equal to len·(cs, sn), the contouring slope is 0 and the lag slope is len |
| Cost.ErrorModel | C++/Cost/cost.cpp:48-83 | two errors and a 2×NX Jacobian whose columns other than X, Y and s are zero; a car on its reference point has both errors 0 whatever the heading |
| Cost.GetErrorInfo | C++/Cost/cost.cpp:48-83 | filling a 1×2 row and a zero 2×NX matrix entry by entry gives exactly ErrorModel |
| CostLemmas.ErrorsAreRotatedOffset | C++/Cost/cost.cpp:56-61 | when sin²+cos² == 1, the errors are the car-to-reference offset rotated into the path frame: the inverse rotation recovers the offset, and the length is kept |
| CostLemmas.StraightPathErrors | C++/Cost/cost.cpp:56-61 | on a path heading along +x, the contouring error is y_ref − Y and the lag error is x_ref − X |
| CostLemmas.ErrorJacobianPositionColumns | C++/Cost/cost.cpp:72-80 | row 0 holds (sin θ, −cos θ) and row 1 holds (−cos θ, −sin θ) in the X and Y columns |
| CostLemmas.ErrorJacobianExactInPosition | C++/Cost/cost.cpp:56-80 | moving the car by (a, b) changes each error by exactly its Jacobian row's X and Y entries times (a, b) |
| CostLemmas.ErrorSlopeOnPath | C++/Cost/cost.cpp:63-70 | for a car on its reference point whose heading matches the path derivative of length len, the s-column is 0 for the contouring error and len for the lag error |
| Cost.SquaredSpeedPositive | C++/Cost/cost.cpp:92-93 | a nonzero vx makes the slip Jacobian's divisor vx²+vy² positive |
| Cost.SlipJacobian | C++/Cost/cost.cpp:91-93 | the slip Jacobian is zero except at vx and vy, where it is −vy and vx over vx²+vy² |
| CostLemmas.SlipJacobianDirections | C++/Cost/cost.cpp:91-93 | the slip Jacobian is orthogonal to the velocity and has unit rate along the turned velocity (−vy, vx) |
| CostLemmas.SlipOffsetIsSlipAngle | C++/Cost/cost.cpp:95 | for every state with vx ≠ 0, the zero-order term beta_zero is atan(vy/vx) itself, because dβ·x == 0; a car driving straight (vy == 0) gets atan(0) and no correction |
| Cost.GetBetaCost | C++/Cost/cost.cpp:85-101 | Q is the rank-one matrix 2·qBeta·dβ·dβᵀ and q is 2·qBeta·β0·dβ; there are no input, cross or slack terms |
| Cost.SlipGramIsOuter | C++/Cost/cost.cpp:97 | the product 2·qBeta·dβᵀ·dβ of a 1×NX row equals the outer product 2·qBeta·dβ·dβᵀ |
| Cost.ScaledGramIsOuter | C++/Cost/cost.cpp:97 | for any row u, c·uᵀ·u as a matrix product is the outer product c·u·uᵀ |
| Cost.BetaCostShape | C++/Cost/cost.cpp:91-98 | the slip Q is symmetric and zero outside the vx/vy rows and columns; the slip q is zero outside vx and vy |
| CostLemmas.BetaCostIsLinearisedSlipPenalty | C++/Cost/cost.cpp:95-98 | for every state direction v, ½v'Qv + q'v == qBeta·(β(v)² − β0²) with β(v) = β0 + dβ·v the linearised slip angle |
| CostLemmas.RankOnePenalty | C++/Cost/cost.cpp:96-98 | 2w·uuᵀ and 2w·b0·u are exactly the quadratic and linear parts of the penalty w·(b0 + u·v)² |
| CostLemmas.BetaCostPositiveSemidefinite | C++/Cost/cost.cpp:97 | qBeta ≥ 0 makes the slip Q positive semidefinite |
| Cost.ContouringWeight | C++/Cost/cost.cpp:113-116 | the contouring weight is q_c for k < N and q_c_N_mult·q_c for k ≥ N |
| Cost.YawRateWeight | C++/Cost/cost.cpp:123-126 | the yaw-rate weight is q_r for k < N and q_r_N_mult·q_r for k ≥ N |
| Cost.ContouringQuadratic | C++/Cost/cost.cpp:119-130 | 2(J'WJ + wr·E_rr) is symmetric, zero in every row other than X, Y, s and r, and 2·wr at (r, r) |
| Cost.ContouringLinear | C++/Cost/cost.cpp:133-136 | the linear term is zero except at X, Y, s and vs, and exactly −qVs at vs |
| Cost.ContouringCost | C++/Cost/cost.cpp:103-139 | the contouring block has only state terms; Q is symmetric with the row pattern above and (r, r) entry 2·yaw-rate weight; q is zero off X, Y, s, vs and −qVs at vs |
| Cost.GetContouringCost | C++/Cost/cost.cpp:103-139 | building W, forming J'WJ and the linear term by matrix products, overwriting (r, r) and vs, and doubling gives exactly ContouringCost |
| Cost.QuadraticByProducts | C++/Cost/cost.cpp:121-130 | overwriting (r, r) of J'WJ and doubling equals the additive closed form, because the Jacobian's r column is zero |
| Cost.QuadraticEntry | C++/Cost/cost.cpp:121-130 | one entry of that equality |
| Cost.WeightedGramEntry | C++/Cost/cost.cpp:121 | (J'WJ)ij == wc·J0i·J0j + wl·J1i·J1j for W = diag(wc, wl) |
| Cost.LinearByProducts | C++/Cost/cost.cpp:133-136 | 2·eWJ − 2·x'J'WJ with vs overwritten by −qVs equals the closed form 2·(e − Jx)WJ − qVs·e_vs |
| Cost.LinearEntry | C++/Cost/cost.cpp:133-134 | one entry of 2·eWJ − 2·x'J'WJ is 2wc(e0 − J0·x)J0j + 2wl(e1 − J1·x)J1j |
| Cost.WeightedRowTimesJacobian | C++/Cost/cost.cpp:133-134 | (v'WJ)j == wc·v0·J0j + wl·v1·J1j |
| Cost.RowTimesJacobianRows | C++/Cost/cost.cpp:134 | x'Jᵀ is the pair of row products (J0·x, J1·x) |
| CostLemmas.ContouringQuadForm | C++/Cost/cost.cpp:119-130 | v'Qv == 2wc(J0·v)² + 2wl(J1·v)² + 2wr·r² |
| CostLemmas.ContouringLinearDot | C++/Cost/cost.cpp:133-136 | q·v == 2wc(e0 − J0·x)(J0·v) + 2wl(e1 − J1·x)(J1·v) − qVs·vs |
| CostLemmas.ContouringObjective | C++/Cost/cost.cpp:119-136 | ½v'Qv + q'v for one direction v is the increase of the weighted squared linearised errors plus wr·r² − qVs·vs |
| CostLemmas.ContouringPenalty | C++/Cost/cost.cpp:119-136 | the same for every direction v |
| CostLemmas.ContouringCostIsLinearisedErrorPenalty | C++/Cost/cost.cpp:103-139 | the contouring block is, for every v, the stage-weighted increase of the squared linearised errors (e − Jx) + Jv, plus the yaw-rate penalty, less the progress reward |
| CostLemmas.ContouringQuadraticPositiveSemidefinite | C++/Cost/cost.cpp:119-130 | nonnegative contouring, lag and yaw-rate weights make the contouring Q positive semidefinite |
| CostLemmas.ContouringCostPositiveSemidefinite | C++/Cost/cost.cpp:119-130 | the same for the block of any stage |
| CostLemmas.StagesBeforeTerminalAgree | C++/Cost/cost.cpp:113-126 | every stage k < N has the same contouring block |
| CostLemmas.TerminalStageUsesMultipliedWeights | C++/Cost/cost.cpp:113-126 | a stage k ≥ N is stage 0 with q_c and q_r multiplied by their terminal multipliers, and with the lag weight unchanged |
| Cost.InputCost | C++/Cost/cost.cpp:141-159 | Q holds 2·r_D, 2·r_delta, 2·r_vs at D, delta, vs; R holds 2·r_dD, 2·r_dDelta, 2·r_dVs at dD, dDelta, dVs; every other entry and all other blocks are zero |
| Cost.GetInputCost | C++/Cost/cost.cpp:141-159 | overwriting the diagonal entries of zero matrices and doubling gives exactly InputCost |
| CostLemmas.InputCostLinearInWeights | C++/Cost/cost.cpp:147-156 | weights a·p1 + b·p2 give a times the first input block plus b times the second |
| CostLemmas.InputCostPositiveSemidefinite | C++/Cost/cost.cpp:147-156 | nonnegative input weights make the input Q and R positive semidefinite |
| Cost.SoftConstraintCost | C++/Cost/cost.cpp:161-177 | Z is the identity except for sc_quad_* at the three constraint offsets; z is all ones except for sc_lin_* there; the state and input blocks are zero |
| Cost.GetSoftConstraintCost | C++/Cost/cost.cpp:161-177 | overwriting the identity and the ones vector gives exactly SoftConstraintCost |
| CostLemmas.SoftConstraintCostPositiveSemidefinite | C++/Cost/cost.cpp:168-170 | nonnegative sc_quad_* weights make Z positive semidefinite |
| Cost.GetCost | C++/Cost/cost.cpp:179-199 | the stage cost is well formed; Q is symmetric; S is zero; Z and z are the soft-constraint block's |
| CostLemmas.GetCostSymmetrisationIsIdentity | C++/Cost/cost.cpp:187-190 | the symmetrisation ½(Q + Q') leaves the summed Q unchanged, because all three summed blocks are symmetric |
| CostLemmas.GetCostBlocks | C++/Cost/cost.cpp:191-193 | R is the input block's R, r is zero, and q is the contouring q plus the slip q |
| CostLemmas.SumOfBlocks | C++/Cost/cost.cpp:191-193 | summing two state-only blocks with the input block leaves the input R and adds the state q's |
| CostLemmas.GetCostPositiveSemidefinite | C++/Cost/cost.cpp:187-190 | nonnegative weights make the stage cost's Q positive semidefinite |
| Matrices.Symmetrize | C++/Cost/cost.cpp:190 | ½(A + Aᵀ) is symmetric, with entries ½(Aji + Aij) |
| Matrices.SymmetrizeSymmetric | C++/Cost/cost.cpp:190 | symmetrising a symmetric matrix returns it unchanged |
| Matrices.Mul | C++/Cost/cost.cpp:121 | entry (i, j) of A·B is row i of A dotted with column j of B |
| Matrices.Transpose | C++/Cost/cost.cpp:121 | the transpose swaps row and column indices |
| Matrices.Set | C++/Cost/cost.cpp:124 | an entry overwrite changes that entry and no other |
| Matrices.DiagLinear | C++/Cost/cost.cpp:147-156 | a diagonal matrix is linear in its diagonal |
| Matrices.DiagPositiveSemidefinite | C++/Cost/cost.cpp:147-156 | a diagonal matrix with a nonnegative diagonal is positive semidefinite |
| Matrices.OuterPositiveSemidefinite | C++/Cost/cost.cpp:97 | c·uuᵀ with c ≥ 0 is positive semidefinite |
| Matrices.AddPositiveSemidefinite | C++/Cost/cost.cpp:187 | a sum of positive semidefinite matrices is positive semidefinite |
| Mpcc.StateToVector | C++/Cost/cost.cpp:107 | each state field sits at its offset of the index table in a vector of length NX |
| Mpcc.VectorToState | C++/Cost/cost.cpp:107 | reading the named fields out of a state vector and laying them out again gives the same vector |
| Mpcc.StateVectorRoundTrip | C++/Cost/cost.cpp:107 | laying a state out in its vector and reading it back gives the same state |

## Left out

- The elementary functions sin, cos, atan and atan2 are uninterpreted parameters (`Trig`). Nothing is assumed about them; a lemma that needs sin² + cos² == 1 says so in its requires.
- The reference path (`getPostion`, `getDerivative`, `getSecondDerivative` of `ArcLengthSpline`) is an uninterpreted parameter (`Spline`). The spline implementation is not part of this model.
- Floating point: the model computes over exact reals. Rounding, infinities and NaN are not modelled.
- The Eigen matrix types are modelled as value sequences. An entry overwrite produces a new matrix, so in-place update and aliasing are not represented.
- The header that fixes NX, NU, NS, N and the `si_index` offsets is not part of this model. The model uses stand-ins (NX = 10, NU = 3, NS = 3, N = 60, with distinct in-range offsets). The proofs rely on the offsets being distinct and in range; the vector round trip (`Mpcc.VectorToState`) also needs the ten state offsets to cover every slot 0..NX−1.
- `stateToVector` is modelled as the layout given by the index table. Its own implementation is not part of this model.
- The class holds the weights in a member that none of its methods changes. The model passes them as a `CostParams` argument.
- The regulariser `Q_reg` (C++/Cost/cost.cpp:188) is computed but never used, so it is not modelled.
- The commented-out symmetrisation in `getContouringCost` (C++/Cost/cost.cpp:129) is not modelled.
- How well the first-order expansions approximate the true slip angle and errors is not modelled, because it is a statement of calculus. What is proved is that each block is exactly the expansion it stands for.
- Cost.GetBetaCost: requires vx != 0, so the model does not cover a state with vx == 0. The code divides by vx with no guard. For vx == 0 and vy != 0 the C++ still returns a finite cost: vy/vx is an infinity, atan of it is ±π/2, and vx² + vy² is positive. For vx == vy == 0 the result is NaN. Exact reals have no value for a division by zero, so neither case is modelled. `Cost.GetCost` and `CostLemmas.SlipOffsetIsSlipAngle` inherit the same requirement.
- The positive-semidefiniteness lemmas require nonnegative weights. The code does not check the weights.
