# D2Q9 lattice Boltzmann pipe flow, modelled in Dafny

This project models the core of a D2Q9 lattice Boltzmann solver for pressure-driven flow through a
2-D channel. The channel may hold an obstacle. It also models the host-side integer bookkeeping of
the solver's OpenCL Poisson variant.

The grid has `nx = lx + 1` columns and `ny = ly + 1` rows. Every node holds nine populations `f[k]`,
which move along the lattice velocities `(cx[k], cy[k])`. One timestep of `run` does five things:
- `move_bcs` enforces the boundaries: a Zou–He pressure inlet in column 0 and a pressure outlet in
  column `lx`, bounce-back on the top and bottom walls, four special corner rules, and full
  bounce-back on obstacle nodes.
- `move` streams every moving population within its loop range to its downstream neighbour, in
  place; f0 stays, and each loop nest skips one edge row or column.
- `update_hydro` recovers density and velocity.
- `update_feq` builds the second-order equilibrium.
- `collide_particles` relaxes `f` towards it at rate ω (BGK).

The model is split into modules:

- `D2Q9` (d2q9.dfy): the velocity and weight tables and the nine populations of one node (`Cell`)
  with their moments. It also holds the shared error type and the ω < 2 stability predicate.
- `Bgk` (bgk.dfy): the source's hand-expanded equilibrium and the BGK relaxation, node by node.
- `Boundaries` (boundaries.dfy): the per-node rules of `move_bcs` and the obstacle bounce-back.
- `Moments` (moments.dfy): the fields `update_hydro` recovers at a node, and the order in which its
  overlapping slice assignments overwrite one another.
- `Streaming` (streaming.dfy): which nodes each of `move`'s loop nests writes.
- `PipeFlows` (pipe_flow.dfy): the class `PipeFlow`. It owns the arrays `f`, `feq`, `rho`, `u`, `v`
  and the obstacle mask, updated in place by methods that follow the source's slices and loops. A
  mask with no obstacle node gives the plain `Pipe_Flow`; otherwise it is `Pipe_Flow_Cylinder`.
- `Poisson` (poisson.dfy): `get_divisible_global`, the ω check, and the `num_iterations` counter
  that `update_source` and `run` keep. The convergence test is a parameter.

Each method of one pass over the arrays states its whole new state, either directly or through a
specification function: `AfterBcs`, `StreamedCell`, `RecoveredRho`/`RecoveredU`/`RecoveredV`,
`RelaxCell` or `StepsTaken`. A timestep is also stated on a value of the whole state, a `Snapshot`:
`Step` moves the arrays from a snapshot to `Next` of it, and `Run` ends at the last snapshot of the
`Trajectory` of the state it started from, the orbit of `Next` cut off after n steps or before a
step with no value. The lemmas prove what the source promises about those functions. The main results are:
- the Zou–He formulas are the unique solution of their defining conditions;
- every corner ends at the prescribed density;
- bounce-back is an involution;
- streaming reads only pre-move values;
- the source's equilibrium equals the textbook one and has the moments it was built from;
- collision keeps mass and momentum, and for 0 < ω < 2 it shrinks every departure from equilibrium.

Every step establishes the invariant `Consistent`:
- the pressure columns hold the fixed densities;
- walls and obstacle nodes have zero velocity;
- `feq` is the equilibrium of the fields;
- every interior fluid node carries exactly its density and momentum.

Although 0 < ω < 2 is the documented stability range, the code asserts only ω < 2
(python_dim.py:99, solver.py:150). The model checks exactly that.

## Model

| member | source | states |
|---|---|---|
| D2Q9.Opposite | LB_D2Q9/dimensionless/python_dim.py:15-18 | bounce-back pairs every direction with the one whose velocity is its negative and whose weight is the same |
| D2Q9.WeightsNormalised | LB_D2Q9/dimensionless/python_dim.py:15-27 | summed over all nine directions of the tables, the weights add up to 1, and each direction has the weight of its opposite |
| D2Q9.FirstMoments | LB_D2Q9/dimensionless/python_dim.py:15-27 | Σ w cx = Σ w cy = 0 over the nine directions |
| D2Q9.SecondMoments | LB_D2Q9/dimensionless/python_dim.py:15-27 | Σ w cx² = Σ w cy² = cs² = 1/3 |
| D2Q9.MixedSecondMoment | LB_D2Q9/dimensionless/python_dim.py:15-27 | Σ w cx cy = 0 |
| D2Q9.ThirdMoments | LB_D2Q9/dimensionless/python_dim.py:15-27 | Σ w cx³ = Σ w cy³ = 0 |
| D2Q9.MixedThirdMoments | LB_D2Q9/dimensionless/python_dim.py:15-27 | Σ w cx² cy = Σ w cx cy² = 0 |
| D2Q9.FourthMomentX | LB_D2Q9/dimensionless/python_dim.py:15-27 | Σ w cx⁴ = 3 cs⁴ |
| D2Q9.FourthMomentY | LB_D2Q9/dimensionless/python_dim.py:15-27 | Σ w cy⁴ = 3 cs⁴ |
| D2Q9.MixedFourthMoment | LB_D2Q9/dimensionless/python_dim.py:15-27 | Σ w cx² cy² = cs⁴, the isotropy the second-order equilibrium needs |
| D2Q9.MomentsAreTableSums | LB_D2Q9/dimensionless/python_dim.py:163-167 | the hand-expanded density and momentum of update_hydro are the sums over the cx, cy tables |
| Bgk.Equilibrium | LB_D2Q9/dimensionless/python_dim.py:129-155 | at rest (u = v = 0) every equilibrium population is w_k · rho |
| Bgk.EquilibriumIsStandard | LB_D2Q9/dimensionless/python_dim.py:137-155 | for every direction, the source's formula over ul, vl, uv, sumsq, sumsq2, u2, v2 equals the textbook equilibrium w_k rho (1 + 3 c·u + 4.5 (c·u)² − 1.5 abs(u)²) |
| Bgk.EquilibriumMoments | LB_D2Q9/dimensionless/python_dim.py:137-155 | for every velocity, the nine equilibrium populations sum to rho and have momentum (rho u, rho v) |
| Bgk.EquilibriumCell | LB_D2Q9/dimensionless/python_dim.py:147-155 | the equilibrium node holds, in each direction, that direction's equilibrium population |
| Bgk.Relax | LB_D2Q9/dimensionless/python_dim.py:289 | relaxation scales the departure from equilibrium by 1 − ω, so f = feq is a fixed point |
| Bgk.RelaxContracts | LB_D2Q9/dimensionless/python_dim.py:289 | for 0 < ω < 2 (the stability range behind the check on line 99) every nonzero departure from equilibrium strictly shrinks |
| Bgk.RelaxCell | LB_D2Q9/dimensionless/python_dim.py:289 | a node relaxes population by population |
| Bgk.RelaxKeepsDensity | LB_D2Q9/dimensionless/python_dim.py:289 | relaxing towards a target of equal density keeps the density |
| Bgk.RelaxKeepsMomentumX | LB_D2Q9/dimensionless/python_dim.py:289 | relaxing towards a target of equal x momentum keeps it |
| Bgk.RelaxKeepsMomentumY | LB_D2Q9/dimensionless/python_dim.py:289 | relaxing towards a target of equal y momentum keeps it |
| Bgk.CollisionConserves | LB_D2Q9/dimensionless/python_dim.py:284-289 | a node whose density and velocity are its own moments keeps them through collision |
| Boundaries.ZouHeInlet | LB_D2Q9/dimensionless/python_dim.py:197-199 | only f1, f5, f8 change; f1 − f3 = (2/3) rho ux; (f1+f5+f8) − (f3+f6+f7) = rho ux; f2+f5+f6 = f4+f7+f8 |
| Boundaries.ZouHeInletUnique | LB_D2Q9/dimensionless/python_dim.py:197-199 | any node satisfying those three conditions and keeping the known populations is the Zou–He inlet node |
| Boundaries.ZouHeOutlet | LB_D2Q9/dimensionless/python_dim.py:202-204 | only f3, f6, f7 change; the same three conditions with the outlet density |
| Boundaries.ZouHeOutletUnique | LB_D2Q9/dimensionless/python_dim.py:202-204 | the outlet formulas are the unique solution of those conditions |
| Boundaries.NorthWall | LB_D2Q9/dimensionless/python_dim.py:211-214 | f4 := f2, f8 := f6, f7 := f5, all else kept; no vertical momentum remains |
| Boundaries.SouthWall | LB_D2Q9/dimensionless/python_dim.py:216-219 | f2 := f4, f6 := f8, f5 := f7, all else kept; no vertical momentum remains |
| Boundaries.WallsIdempotent | LB_D2Q9/dimensionless/python_dim.py:211-219 | applying a wall rule twice is applying it once |
| Boundaries.BottomInlet | LB_D2Q9/dimensionless/python_dim.py:223-228 | the corner's populations sum to inlet_rho, the two solved unknowns f6 and f8 are equal, and the node carries no momentum |
| Boundaries.TopInlet | LB_D2Q9/dimensionless/python_dim.py:230-235 | sum inlet_rho, f5 = f7, no momentum |
| Boundaries.BottomOutlet | LB_D2Q9/dimensionless/python_dim.py:237-242 | sum outlet_rho, f5 = f7, no momentum |
| Boundaries.TopOutlet | LB_D2Q9/dimensionless/python_dim.py:244-248 | sum outlet_rho, f6 = f8, no momentum |
| Boundaries.BounceBack | LB_D2Q9/dimensionless/python_dim.py:388-411 | each moving population takes its opposite's value, f0 stays; density kept, momentum reversed |
| Boundaries.BounceBackInvolution | LB_D2Q9/dimensionless/python_dim.py:388-411 | bounce-back applied twice restores the node |
| Boundaries.BoundaryCell | LB_D2Q9/dimensionless/python_dim.py:188-248 | which rule move_bcs applies at each node: inlet and outlet slices, walls for 0 < x < lx, each corner its own corner rule (at its prescribed density), interior untouched |
| Moments.InletVelocityClosesDensity | LB_D2Q9/dimensionless/python_dim.py:197-199 | the Zou–He inlet node has density inlet_rho exactly when ux is the velocity update_hydro recovers on line 182 (both directions) |
| Moments.OutletVelocityClosesDensity | LB_D2Q9/dimensionless/python_dim.py:202-204 | the same equivalence at the outlet, with the velocity of line 185 |
| Moments.RecoveredRho | LB_D2Q9/dimensionless/python_dim.py:161-180 | outlet_rho in column lx, inlet_rho in column 0 when that is a different column, the population sum elsewhere |
| Moments.RecoveredU | LB_D2Q9/dimensionless/python_dim.py:167-185 | 0 on obstacle nodes (the override of line 371); the outlet formula on column lx and the inlet formula on column 0 when that is a different column, walls included; 0 on the walls elsewhere; otherwise rho u = jx |
| Moments.RecoveredV | LB_D2Q9/dimensionless/python_dim.py:168-174 | 0 on the walls and on obstacle nodes (line 372), otherwise rho v = jy |
| Moments.RecoveredFieldsAreMoments | LB_D2Q9/dimensionless/python_dim.py:161-167 | at an interior fluid node the recovered rho is the population sum and rho (u, v) the momentum |
| Streaming.StreamsFromInside | LB_D2Q9/dimensionless/python_dim.py:255-271 | every node a loop nest writes, and the upstream node it reads, lie in the grid; f0 never streams |
| Streaming.InteriorStreams | LB_D2Q9/dimensionless/python_dim.py:255-271 | on interior nodes every moving population streams |
| PipeFlows.InitialOutletMissed | LB_D2Q9/dimensionless/python_dim.py:119-123 | as written, the initial outlet column is off by (inlet_rho − outlet_rho)/nx (see Findings) |
| PipeFlows.InitialDensity | LB_D2Q9/dimensionless/python_dim.py:117-123 | the corrected initial profile starts at inlet_rho, ends at outlet_rho and stays between them (see Findings) |
| PipeFlows.Orbit | LB_D2Q9/dimensionless/python_dim.py:291-297 | the states of a loop of at most n iterations: it starts at the initial state, has at most n + 1 entries, and stops early only at a state where the next iteration is not defined |
| PipeFlows.OrbitSteps | LB_D2Q9/dimensionless/python_dim.py:291-297 | every state of the orbit but the last has the next iteration defined and is followed by that iteration's result |
| PipeFlows.OrbitUnique | LB_D2Q9/dimensionless/python_dim.py:291-297 | any sequence with those properties is the orbit: the loop is deterministic |
| PipeFlows.OrbitContinues | LB_D2Q9/dimensionless/python_dim.py:291-297 | a state reached before the n-th iteration where the next one is defined is not the last, and is followed by next of it |
| PipeFlows.OrbitEnds | LB_D2Q9/dimensionless/python_dim.py:291-297 | a state reached after n iterations, or where the next one is not defined, is the last |
| PipeFlows.PipeFlow.Next | LB_D2Q9/dimensionless/python_dim.py:292-297 | one timestep on a snapshot: the same mask, and at every node the fields recovered from its streamed populations, their equilibrium, and the populations relaxed towards it |
| PipeFlows.PipeFlow.InletColumn | LB_D2Q9/dimensionless/python_dim.py:197-199 | the three inlet slice assignments turn each node 0 < y < ly of column 0 into its Zou–He inlet node; every other node is unchanged |
| PipeFlows.PipeFlow.InletCells | LB_D2Q9/dimensionless/python_dim.py:197-199 | the population-level effect of those slices, read node by node |
| PipeFlows.PipeFlow.OutletColumn | LB_D2Q9/dimensionless/python_dim.py:202-204 | the same for the outlet column lx |
| PipeFlows.PipeFlow.OutletCells | LB_D2Q9/dimensionless/python_dim.py:202-204 | the population-level effect of the outlet slices, node by node |
| PipeFlows.PipeFlow.PressureBoundaries | LB_D2Q9/dimensionless/python_dim.py:196-204 | inlet and outlet slices together, nothing else touched |
| PipeFlows.PipeFlow.NorthWallRow | LB_D2Q9/dimensionless/python_dim.py:210-214 | row ly for 0 < x < lx becomes NorthWall; columns 0 and lx and every other row untouched |
| PipeFlows.PipeFlow.SouthWallRow | LB_D2Q9/dimensionless/python_dim.py:215-219 | row 0 for 0 < x < lx becomes SouthWall; the rest untouched |
| PipeFlows.PipeFlow.WallBounceBack | LB_D2Q9/dimensionless/python_dim.py:210-219 | both wall loops together |
| PipeFlows.PipeFlow.BottomInletCorner | LB_D2Q9/dimensionless/python_dim.py:223-228 | the five statements, in order, leave node (0, 0) as BottomInlet of its old populations: each formula reads only unwritten values |
| PipeFlows.PipeFlow.TopInletCorner | LB_D2Q9/dimensionless/python_dim.py:230-235 | node (0, ly) becomes TopInlet |
| PipeFlows.PipeFlow.BottomOutletCorner | LB_D2Q9/dimensionless/python_dim.py:237-242 | node (lx, 0) becomes BottomOutlet |
| PipeFlows.PipeFlow.TopOutletCorner | LB_D2Q9/dimensionless/python_dim.py:244-248 | node (lx, ly) becomes TopOutlet |
| PipeFlows.PipeFlow.CornerNodes | LB_D2Q9/dimensionless/python_dim.py:222-248 | the four corner blocks together, nothing else touched |
| PipeFlows.PipeFlow.BounceBackNode | LB_D2Q9/dimensionless/python_dim.py:388-411 | from cached pre-values, the node becomes its bounce-back; every other node is unchanged |
| PipeFlows.PipeFlow.ObstacleBounceBack | LB_D2Q9/dimensionless/python_dim.py:374-411 | every masked node becomes its bounce-back, every other node keeps its populations |
| PipeFlows.PipeFlow.MoveBcs | LB_D2Q9/dimensionless/python_dim.py:374-411 | after move_bcs (and the obstacle pass) every node is AfterBcs of its old populations |
| PipeFlows.PipeFlow.StreamUpRow | LB_D2Q9/dimensionless/python_dim.py:257-259 | one row of the up nest: f2, f6 of row j take the pre-move values of row j − 1 |
| PipeFlows.PipeFlow.StreamUp | LB_D2Q9/dimensionless/python_dim.py:256-259 | f2[i][j] = old f2[i][j−1] and f6[i][j] = old f6[i+1][j−1] for 0 ≤ i < lx, 1 ≤ j ≤ ly; all else unchanged |
| PipeFlows.PipeFlow.StreamRightRow | LB_D2Q9/dimensionless/python_dim.py:261-263 | one row of the right nest, read before written |
| PipeFlows.PipeFlow.StreamRight | LB_D2Q9/dimensionless/python_dim.py:260-263 | f1[i][j] = old f1[i−1][j] and f5[i][j] = old f5[i−1][j−1] for 1 ≤ i ≤ lx, 1 ≤ j ≤ ly; all else unchanged |
| PipeFlows.PipeFlow.StreamDownRow | LB_D2Q9/dimensionless/python_dim.py:265-267 | one row of the down nest |
| PipeFlows.PipeFlow.StreamDown | LB_D2Q9/dimensionless/python_dim.py:264-267 | f4[i][j] = old f4[i][j+1] and f8[i][j] = old f8[i−1][j+1] for 1 ≤ i ≤ lx, 0 ≤ j < ly; all else unchanged |
| PipeFlows.PipeFlow.StreamLeftRow | LB_D2Q9/dimensionless/python_dim.py:269-271 | one row of the left nest, read before written |
| PipeFlows.PipeFlow.StreamLeft | LB_D2Q9/dimensionless/python_dim.py:268-271 | f3[i][j] = old f3[i+1][j] and f7[i][j] = old f7[i+1][j+1] for 0 ≤ i < lx, 0 ≤ j < ly; all else unchanged |
| PipeFlows.PipeFlow.Move | LB_D2Q9/dimensionless/python_dim.py:250-271 | every written population is the pre-move value of its upstream node; f0 and nodes outside a direction's loop range keep their value |
| PipeFlows.PipeFlow.UpdateHydro | LB_D2Q9/dimensionless/python_dim.py:369-372 | rho, u, v at every node are RecoveredRho/U/V of its populations |
| PipeFlows.PipeFlow.UpdateFeq | LB_D2Q9/dimensionless/python_dim.py:129-155 | feq is the equilibrium of every node's fields |
| PipeFlows.PipeFlow.CollideParticles | LB_D2Q9/dimensionless/python_dim.py:284-289 | f := (1−ω) f + ω feq everywhere; when feq is the equilibrium of the fields, every node that carried its fields still does |
| PipeFlows.PipeFlow.NodeCollision | LB_D2Q9/dimensionless/python_dim.py:289 | a node relaxed from a cell carrying its fields carries them |
| PipeFlows.PipeFlow.Propagate | LB_D2Q9/dimensionless/python_dim.py:293-294 | move_bcs then move leaves every node as StreamedCell of the old state |
| PipeFlows.PipeFlow.Relaxation | LB_D2Q9/dimensionless/python_dim.py:295-297 | fields recovered from the streamed populations, populations relaxed towards their equilibrium, and Consistent re-established |
| PipeFlows.PipeFlow.SnapIsNext | LB_D2Q9/dimensionless/python_dim.py:292-297 | arrays holding the recovered fields, their equilibrium and the relaxed populations of a snapshot hold Next of it |
| PipeFlows.PipeFlow.Step | LB_D2Q9/dimensionless/python_dim.py:292-297 | one timestep in terms of the old state, ending Consistent; the arrays move from their snapshot to Next of it |
| PipeFlows.PipeFlow.Advance | LB_D2Q9/dimensionless/python_dim.py:292-297 | Step on snapshots: the old snapshot has a next step and the new one is its result |
| PipeFlows.PipeFlow.Run | LB_D2Q9/dimensionless/python_dim.py:291-297 | at most n steps, stopping early only before a step with no value in real arithmetic; the number of steps is one less than the length of the trajectory of the old state, and the final state is its last snapshot; Consistent after any step |
| PipeFlows.PipeFlow.constructor | LB_D2Q9/dimensionless/python_dim.py:99-113 | the mask, the density profile init_hydro writes, zero velocity, feq = w_k rho and f = feq; the state is Coherent, and Consistent exactly when inlet_rho = outlet_rho |
| PipeFlows.PipeFlow.InitHydro | LB_D2Q9/dimensionless/python_dim.py:115-126 | ones, then the inlet and outlet columns, then the loop over all nx columns: rho is the as-written profile, and u = v = 0 everywhere, obstacle nodes again included (lines 364-367) |
| PipeFlows.PipeFlow.InitPop | LB_D2Q9/dimensionless/python_dim.py:273-282 | f is a copy of feq |
| PipeFlows.PipeFlow.RestStateCoherent | LB_D2Q9/dimensionless/python_dim.py:99-113 | a state at rest with the inlet density in column 0, feq its equilibrium and f = feq is Coherent |
| PipeFlows.PipeFlow.InitialStateConsistent | LB_D2Q9/dimensionless/python_dim.py:99-113 | the initial state from the as-written profile is Coherent, and Consistent exactly when inlet_rho = outlet_rho |
| PipeFlows.PipeFlow.CorrectedStartConsistent | LB_D2Q9/dimensionless/python_dim.py:99-113 | started from the corrected profile, the initial state is Consistent for any two densities |
| PipeFlows.PipeFlow.RestEquilibrium | LB_D2Q9/dimensionless/python_dim.py:147-155 | with u = v = 0 everywhere, feq[k] = w_k rho at every node |
| PipeFlows.PipeFlow.Create | LB_D2Q9/dimensionless/python_dim.py:99 | construction fails exactly when ω ≥ 2, with that ω as the error; otherwise the new simulation has the given grid, densities and mask, the as-written density profile, zero velocity, feq = w_k rho and f = feq; it is Coherent, and Consistent exactly when inlet_rho = outlet_rho |
| Poisson.PyMod | LB_D2Q9/poisson/solver.py:49 | Python's remainder: sign of the divisor, magnitude below it, and a − r a multiple of b |
| Poisson.RoundUp | LB_D2Q9/poisson/solver.py:49-53 | a multiple of the local size within one local size above the global size (below it for a negative local size); an already divisible global size is returned unchanged |
| Poisson.RoundUpIsLeast | LB_D2Q9/poisson/solver.py:49-53 | no multiple of a positive local size at or above the global size is smaller than RoundUp |
| Poisson.DivisibleGlobal | LB_D2Q9/poisson/solver.py:37-54 | one entry per zipped axis pair, in order, as many as the shorter input: rounded up, or kept for a zero local size against a numpy int32; fails exactly when some Python-int axis has a zero local size, at the first one |
| Poisson.DiffusionRelaxation | LB_D2Q9/poisson/solver.py:146-150 | a positive lattice diffusivity always yields 0 < ω < 2; a slightly negative one always fails the check |
| Poisson.StepsTaken | LB_D2Q9/poisson/solver.py:333-358 | run performs n steps unless the test passes at a count other than 1, and then stops at the first such count |
| Poisson.NoConvergenceRunsAll | LB_D2Q9/poisson/solver.py:333-358 | if the test never passes in range, exactly n steps are done |
| Poisson.FirstTestIgnored | LB_D2Q9/poisson/solver.py:348 | the test's answer at count 1 never changes the number of steps |
| Poisson.AfterResetTwoSteps | LB_D2Q9/poisson/solver.py:346-348 | right after a reset, run(n ≥ 2) takes at least two steps |
| Poisson.Scaled | LB_D2Q9/poisson/solver.py:157-158 | every source value times the factor, same length |
| Poisson.PoissonSolver.constructor | LB_D2Q9/poisson/solver.py:62-141 | the sources are installed and scaled, and the counter is 0 |
| Poisson.PoissonSolver.UpdateSource | LB_D2Q9/poisson/solver.py:152-161 | new source, scaled copy by lb_D delta_t, counter reset to 0 |
| Poisson.PoissonSolver.Run | LB_D2Q9/poisson/solver.py:324-358 | the counter grows by exactly StepsTaken(old counter, n, test); the sources are kept |
| Poisson.PoissonSolver.Create | LB_D2Q9/poisson/solver.py:88-95 | ω is derived from lb_D and checked first (set_D_and_omega): a zero denominator or ω ≥ 2 is refused. Then the work sizes: nx and ny are numpy int32, so the only failure is a zero local size on the third 3-d axis (the Python int 9); otherwise every size is rounded up, or kept for a zero local size, nx, ny, lb_D and delta_t are the arguments, the sources are scaled by lb_D delta_t, and the counter is 0 |

## Findings

| source | as written | input that shows it | evidently intended | confidence | as-written member | corrected member |
|---|---|---|---|---|---|---|
| LB_D2Q9/dimensionless/python_dim.py:119-123 | the loop over all nx = lx + 1 columns sets rho[i] = inlet_rho − i (inlet_rho − outlet_rho)/nx. This overwrites the outlet density set on line 121, so column lx starts at outlet_rho + (inlet_rho − outlet_rho)/nx | lx = 1, inlet_rho = 2, outlet_rho = 1: column 1 starts at 1.5, not 1 | a linear profile from inlet_rho at column 0 to outlet_rho at column lx, i.e. dividing by lx | medium, not executed | PipeFlows.InitialDensityAsWritten, PipeFlows.InitialOutletMissed | PipeFlows.InitialDensity |

The constructor follows the code: it starts from `InitialDensityAsWritten`, and its state is
`Consistent` exactly when the two densities agree (`InitialStateConsistent`). With the corrected
profile the initial state is always `Consistent` (`CorrectedStartConsistent`). update_hydro resets
columns 0 and lx to the fixed densities at every step, so from the first step on the pressure
columns agree either way. The interior densities evolve from different starting values, though, so
later states can differ too.

## Left out

- Physical-to-lattice unit derivation (characteristic L and T, Reynolds number, delta_rho, lattice viscosity; python_dim.py:33-97): floating-point setup. lx, ly, ω, inlet_rho and outlet_rho are inputs of the model.
- Grid size: the model requires lx ≥ 1 and ly ≥ 1. The source's grids always have both sizes positive (N ≥ 1), and on a degenerate grid its corner and wall statements overlap.
- The random perturbations of init_pop and init_hydro (python_dim.py:125-126, 279-282): nondeterministic noise (the velocity noise is multiplied by 0). The model starts from f = feq at rest.
- The obstacle geometry from skimage.draw.circle (python_dim.py:345-349): a foreign library. The mask is a parameter of the constructor.
- get_fields, get_nondim_fields and get_physical_fields (python_dim.py:299-323): output copies and unit rescaling only.
- The commented-out periodic and velocity-inlet classes (python_dim.py:415-633): dead code.
- float32/float64 rounding, inf and NaN: the model uses exact reals, and cs² is exactly 1/3.
- print diagnostics.
- PipeFlows.PipeFlow.Run: stops before a step whose update_hydro would divide by a zero population sum. In floating point the source would go on with inf or NaN, which exact reals cannot represent.
- PipeFlows.PipeFlow.ObstacleBounceBack: visits the nodes in row-major order, the order of np.where's pixel list. Each node's rule reads only that node, so the order cannot change the result.
- PipeFlows.PipeFlow.UpdateHydro: each numpy slice assignment is one `forall` statement over the recovered value. The intermediate overwrites (the wall zeros later replaced by the inlet formula) are folded into RecoveredU and RecoveredV, which state which assignment reaches each node last.
- Everything in the Poisson solver that runs on the device: the OpenCL platform and context setup, buffer allocation, kernel build and launches, the move, move_bcs, update_hydro, update_feq and collide kernels, update_negative_gradient and the reduction kernels (solver.py:163-322, 350-356). Their code is not part of this model.
- Poisson.PoissonSolver.Run: the convergence test (mean absolute density change over mean density below the tolerance, solver.py:350-354) is the oracle parameter `converged`, keyed by the counter value after the step. The copy of rho into rho_before is not modelled.
- The Poisson sources are a flat sequence of reals rather than a 2-D device array. The `.finish()` call on a device array (solver.py:159-160) is left out.
- Poisson.DivisibleGlobal: the int32 width of nx and ny (wrap-around of the rounded size) is not modelled; sizes are unbounded integers.
- Poisson.PoissonSolver.Create: the lattice diffusivity lb_D = delta_t / delta_x² (solver.py:144-145) is an input, and the float32 rounding of lb_D and ω is not modelled. A zero denominator in ω's formula, which numpy turns into inf and the check then refuses, is reported as its own error.
