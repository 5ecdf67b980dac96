/** Moment recovery of update_hydro (python_dim.py:157-185) and of its obstacle override
    (python_dim.py:369-372), node by node. */
module Moments {
  import opened D2Q9
  import opened Boundaries

  /** Inlet x velocity (python_dim.py:182): the velocity that closes the Zou–He inlet node on
      the fixed density. */
  function InletVelocity(c: Cell, rho: real): real
    requires rho != 0.0
  {
    1.0 - (c.f0 + c.f2 + c.f4 + 2.0 * (c.f3 + c.f6 + c.f7)) / rho
  }

  /** Outlet x velocity (python_dim.py:185). */
  function OutletVelocity(c: Cell, rho: real): real
    requires rho != 0.0
  {
    -1.0 + (c.f0 + c.f2 + c.f4 + 2.0 * (c.f1 + c.f5 + c.f8)) / rho
  }

  /** The Zou–He inlet node has the prescribed density exactly when its velocity is the one
      update_hydro recovers: the velocity formula and the population formulas agree. */
  lemma InletVelocityClosesDensity(c: Cell, rho: real, ux: real)
    requires rho != 0.0
    ensures Density(ZouHeInlet(c, rho, ux)) == rho <==> ux == InletVelocity(c, rho)
  {
    var known := c.f0 + c.f2 + c.f4 + 2.0 * (c.f3 + c.f6 + c.f7);
    assert Density(ZouHeInlet(c, rho, ux)) == known + rho * ux;
    ScaledEquation(rho, ux, known);
  }

  /** The same agreement at the outlet. */
  lemma OutletVelocityClosesDensity(c: Cell, rho: real, ux: real)
    requires rho != 0.0
    ensures Density(ZouHeOutlet(c, rho, ux)) == rho <==> ux == OutletVelocity(c, rho)
  {
    var known := c.f0 + c.f2 + c.f4 + 2.0 * (c.f1 + c.f5 + c.f8);
    assert Density(ZouHeOutlet(c, rho, ux)) == known - rho * ux;
    ScaledEquation(rho, -ux, known);
    assert rho * -ux == -(rho * ux);
  }

  /** known + rho w = rho holds exactly for w = 1 - known / rho. */
  lemma ScaledEquation(rho: real, w: real, known: real)
    requires rho != 0.0
    ensures known + rho * w == rho <==> w == 1.0 - known / rho
  {
    var q := known / rho;
    assert rho * q == known;
    assert rho * (1.0 - q) == rho - rho * q;
    if known + rho * w == rho {
      Cancel(rho, w, 1.0 - q);
    }
  }

  lemma Cancel(a: real, x: real, y: real)
    requires a != 0.0 && a * x == a * y
    ensures x == y
  {
    assert x == (a * x) / a;
    assert y == (a * y) / a;
  }

  /** Density after update_hydro: the population sum, replaced by the fixed pressure densities
      in columns 0 and lx (python_dim.py:161, 179-180); the outlet slice is written last. */
  function RecoveredRho(i: int, lx: int, c: Cell, inletRho: real, outletRho: real): (r: real)
    ensures i == lx ==> r == outletRho
    ensures i == 0 && i != lx ==> r == inletRho
    ensures i != 0 && i != lx ==> r == Density(c)
  {
    if i == lx then outletRho else if i == 0 then inletRho else Density(c)
  }

  /** Whether update_hydro's quotient by the population sum survives at a node: it is overwritten
      on the walls for v and on obstacle nodes for both components (python_dim.py:167-174, 371-372). */
  predicate DividesByDensity(j: int, ly: int, masked: bool)
  {
    !masked && 0 < j < ly
  }

  /** x velocity after update_hydro and the obstacle override. The assignments of the source
      overwrite one another; the last one to reach a node decides: obstacle zero, then the
      outlet and then the inlet formula on their whole columns, then the wall zeros, then jx / rho. */
  function RecoveredU(i: int, j: int, lx: int, ly: int, masked: bool, c: Cell,
                      inletRho: real, outletRho: real): (r: real)
    requires 0 <= i <= lx && 0 <= j <= ly
    requires inletRho != 0.0 && outletRho != 0.0
    requires DividesByDensity(j, ly, masked) ==> Density(c) != 0.0
    ensures masked ==> r == 0.0
    ensures !masked && i == lx ==> r == OutletVelocity(c, outletRho)
    ensures !masked && i == 0 && i != lx ==> r == InletVelocity(c, inletRho)
    ensures !masked && i != 0 && i != lx && (j == 0 || j == ly) ==> r == 0.0
    ensures !masked && i != 0 && i != lx && j != 0 && j != ly ==> Density(c) * r == MomentumX(c)
  {
    if masked then 0.0
    else if i == lx then OutletVelocity(c, outletRho)
    else if i == 0 then InletVelocity(c, inletRho)
    else if j == 0 || j == ly then 0.0
    else MomentumX(c) / Density(c)
  }

  /** y velocity after update_hydro and the obstacle override: zero on the walls and on obstacle
      nodes, jy over the raw population sum elsewhere, columns 0 and lx included. */
  function RecoveredV(j: int, ly: int, masked: bool, c: Cell): (r: real)
    requires 0 <= j <= ly
    requires DividesByDensity(j, ly, masked) ==> Density(c) != 0.0
    ensures !DividesByDensity(j, ly, masked) ==> r == 0.0
    ensures DividesByDensity(j, ly, masked) ==> Density(c) * r == MomentumY(c)
  {
    if masked || j == 0 || j == ly then 0.0 else MomentumY(c) / Density(c)
  }

  /** At an interior fluid node the recovered fields are the node's own moments: rho is its
      population sum and rho (u, v) its momentum. */
  lemma RecoveredFieldsAreMoments(i: int, j: int, lx: int, ly: int, c: Cell, inletRho: real, outletRho: real,
                                  rho: real, ux: real, uy: real)
    requires 0 < i < lx && 0 < j < ly && inletRho != 0.0 && outletRho != 0.0 && Density(c) != 0.0
    requires rho == RecoveredRho(i, lx, c, inletRho, outletRho)
    requires ux == RecoveredU(i, j, lx, ly, false, c, inletRho, outletRho)
    requires uy == RecoveredV(j, ly, false, c)
    ensures rho == Density(c) && MomentumX(c) == MomentumOf(rho, ux) && MomentumY(c) == MomentumOf(rho, uy)
  {
  }
}
