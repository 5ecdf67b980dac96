/** The per-node rules of move_bcs (python_dim.py:188-248) and the obstacle bounce-back of the
    cylinder variant (python_dim.py:384-411). Each rule maps the nine populations of one node
    to their new values. Every rule reads only populations it does not write, or reads them
    before writing them, so it acts on one node independently of all the others. */
module Boundaries {
  import opened D2Q9

  /** Zou–He pressure inlet at a node of column 0 away from the corners (python_dim.py:197-199):
      the three unknown right-moving populations f1, f5, f8 are solved from the known ones, the
      fixed density rho and the x velocity ux. */
  function ZouHeInlet(c: Cell, rho: real, ux: real): (r: Cell)
    ensures r.f0 == c.f0 && r.f2 == c.f2 && r.f3 == c.f3 && r.f4 == c.f4 && r.f6 == c.f6 && r.f7 == c.f7
    ensures r.f1 - r.f3 == (2.0 / 3.0) * rho * ux
    ensures (r.f1 + r.f5 + r.f8) - (r.f3 + r.f6 + r.f7) == rho * ux
    ensures r.f2 + r.f5 + r.f6 == r.f4 + r.f7 + r.f8
  {
    c.(f1 := c.f3 + (2.0 / 3.0) * rho * ux,
       f5 := -0.5 * c.f2 + 0.5 * c.f4 + c.f7 + (1.0 / 6.0) * ux * rho,
       f8 := 0.5 * c.f2 - 0.5 * c.f4 + c.f6 + (1.0 / 6.0) * ux * rho)
  }

  /** The inlet formulas are the only solution: a node that keeps the known populations and has
      the prescribed x momentum split and no net vertical flux is the Zou–He node. */
  lemma ZouHeInletUnique(c: Cell, rho: real, ux: real, r: Cell)
    requires r.f0 == c.f0 && r.f2 == c.f2 && r.f3 == c.f3 && r.f4 == c.f4 && r.f6 == c.f6 && r.f7 == c.f7
    requires r.f1 - r.f3 == (2.0 / 3.0) * rho * ux
    requires (r.f1 + r.f5 + r.f8) - (r.f3 + r.f6 + r.f7) == rho * ux
    requires r.f2 + r.f5 + r.f6 == r.f4 + r.f7 + r.f8
    ensures r == ZouHeInlet(c, rho, ux)
  {
    var z := ZouHeInlet(c, rho, ux);
    var m := rho * ux;
    assert z.f5 == -0.5 * c.f2 + 0.5 * c.f4 + c.f7 + m / 6.0;
    assert r.f5 + r.f8 == m / 3.0 + c.f6 + c.f7;
    assert r.f5 - r.f8 == c.f4 + c.f7 - c.f2 - c.f6;
  }

  /** Zou–He pressure outlet at a node of column lx away from the corners (python_dim.py:202-204):
      the unknown left-moving populations f3, f6, f7 are solved. */
  function ZouHeOutlet(c: Cell, rho: real, ux: real): (r: Cell)
    ensures r.f0 == c.f0 && r.f1 == c.f1 && r.f2 == c.f2 && r.f4 == c.f4 && r.f5 == c.f5 && r.f8 == c.f8
    ensures r.f1 - r.f3 == (2.0 / 3.0) * rho * ux
    ensures (r.f1 + r.f5 + r.f8) - (r.f3 + r.f6 + r.f7) == rho * ux
    ensures r.f2 + r.f5 + r.f6 == r.f4 + r.f7 + r.f8
  {
    c.(f3 := c.f1 - (2.0 / 3.0) * rho * ux,
       f6 := -0.5 * c.f2 + 0.5 * c.f4 + c.f8 - (1.0 / 6.0) * ux * rho,
       f7 := 0.5 * c.f2 - 0.5 * c.f4 + c.f5 - (1.0 / 6.0) * ux * rho)
  }

  /** The outlet formulas are the only solution of the same three conditions. */
  lemma ZouHeOutletUnique(c: Cell, rho: real, ux: real, r: Cell)
    requires r.f0 == c.f0 && r.f1 == c.f1 && r.f2 == c.f2 && r.f4 == c.f4 && r.f5 == c.f5 && r.f8 == c.f8
    requires r.f1 - r.f3 == (2.0 / 3.0) * rho * ux
    requires (r.f1 + r.f5 + r.f8) - (r.f3 + r.f6 + r.f7) == rho * ux
    requires r.f2 + r.f5 + r.f6 == r.f4 + r.f7 + r.f8
    ensures r == ZouHeOutlet(c, rho, ux)
  {
    var z := ZouHeOutlet(c, rho, ux);
    var m := rho * ux;
    assert z.f6 == -0.5 * c.f2 + 0.5 * c.f4 + c.f8 - m / 6.0;
    assert r.f6 + r.f7 == c.f5 + c.f8 - m / 3.0;
    assert r.f7 - r.f6 == c.f2 - c.f4 + c.f5 - c.f8;
  }

  /** Bounce-back on the top wall, y = ly (python_dim.py:211-214): the downward populations are
      the reflections of the upward ones, so the node carries no vertical momentum. */
  function NorthWall(c: Cell): (r: Cell)
    ensures r.f0 == c.f0 && r.f1 == c.f1 && r.f2 == c.f2 && r.f3 == c.f3 && r.f5 == c.f5 && r.f6 == c.f6
    ensures r.f4 == c.f2 && r.f8 == c.f6 && r.f7 == c.f5
    ensures MomentumY(r) == 0.0
  {
    c.(f4 := c.f2, f8 := c.f6, f7 := c.f5)
  }

  /** Bounce-back on the bottom wall, y = 0 (python_dim.py:216-219). */
  function SouthWall(c: Cell): (r: Cell)
    ensures r.f0 == c.f0 && r.f1 == c.f1 && r.f3 == c.f3 && r.f4 == c.f4 && r.f7 == c.f7 && r.f8 == c.f8
    ensures r.f2 == c.f4 && r.f6 == c.f8 && r.f5 == c.f7
    ensures MomentumY(r) == 0.0
  {
    c.(f2 := c.f4, f6 := c.f8, f5 := c.f7)
  }

  /** Applying a wall rule a second time changes nothing. */
  lemma WallsIdempotent(c: Cell)
    ensures NorthWall(NorthWall(c)) == NorthWall(c)
    ensures SouthWall(SouthWall(c)) == SouthWall(c)
  {
  }

  /** Corner (0, 0) (python_dim.py:223-228): f1, f2, f5 reflect f3, f4, f7, and the two remaining
      unknowns f6 and f8 share what is left of the inlet density. */
  function BottomInlet(c: Cell, rho: real): (r: Cell)
    ensures r.f0 == c.f0 && r.f3 == c.f3 && r.f4 == c.f4 && r.f7 == c.f7
    ensures r.f1 == c.f3 && r.f2 == c.f4 && r.f5 == c.f7
    ensures r.f6 == r.f8
    ensures Density(r) == rho
    ensures MomentumX(r) == 0.0 && MomentumY(r) == 0.0
  {
    var rest := 0.5 * (-c.f0 - 2.0 * c.f3 - 2.0 * c.f4 - 2.0 * c.f7 + rho);
    c.(f1 := c.f3, f2 := c.f4, f5 := c.f7, f6 := rest, f8 := rest)
  }

  /** Corner (0, ly) (python_dim.py:230-235). */
  function TopInlet(c: Cell, rho: real): (r: Cell)
    ensures r.f0 == c.f0 && r.f2 == c.f2 && r.f3 == c.f3 && r.f6 == c.f6
    ensures r.f1 == c.f3 && r.f4 == c.f2 && r.f8 == c.f6
    ensures r.f5 == r.f7
    ensures Density(r) == rho
    ensures MomentumX(r) == 0.0 && MomentumY(r) == 0.0
  {
    var rest := 0.5 * (-c.f0 - 2.0 * c.f2 - 2.0 * c.f3 - 2.0 * c.f6 + rho);
    c.(f1 := c.f3, f4 := c.f2, f5 := rest, f7 := rest, f8 := c.f6)
  }

  /** Corner (lx, 0) (python_dim.py:237-242). */
  function BottomOutlet(c: Cell, rho: real): (r: Cell)
    ensures r.f0 == c.f0 && r.f1 == c.f1 && r.f4 == c.f4 && r.f8 == c.f8
    ensures r.f3 == c.f1 && r.f2 == c.f4 && r.f6 == c.f8
    ensures r.f5 == r.f7
    ensures Density(r) == rho
    ensures MomentumX(r) == 0.0 && MomentumY(r) == 0.0
  {
    var rest := 0.5 * (-c.f0 - 2.0 * c.f1 - 2.0 * c.f4 - 2.0 * c.f8 + rho);
    c.(f3 := c.f1, f2 := c.f4, f6 := c.f8, f5 := rest, f7 := rest)
  }

  /** Corner (lx, ly) (python_dim.py:244-248). */
  function TopOutlet(c: Cell, rho: real): (r: Cell)
    ensures r.f0 == c.f0 && r.f1 == c.f1 && r.f2 == c.f2 && r.f5 == c.f5
    ensures r.f3 == c.f1 && r.f4 == c.f2 && r.f7 == c.f5
    ensures r.f6 == r.f8
    ensures Density(r) == rho
    ensures MomentumX(r) == 0.0 && MomentumY(r) == 0.0
  {
    var rest := 0.5 * (-c.f0 - 2.0 * c.f1 - 2.0 * c.f2 - 2.0 * c.f5 + rho);
    c.(f3 := c.f1, f4 := c.f2, f6 := rest, f7 := c.f5, f8 := rest)
  }

  /** Full bounce-back at an obstacle node (python_dim.py:388-411): every moving population is
      replaced by the cached value of its opposite, f0 stays. Mass is kept and momentum reversed. */
  function BounceBack(c: Cell): (r: Cell)
    ensures forall k :: 0 <= k < NumJumpers ==> r.At(k) == c.At(Opposite(k))
    ensures Density(r) == Density(c)
    ensures MomentumX(r) == -MomentumX(c) && MomentumY(r) == -MomentumY(c)
  {
    Cell(c.f0, c.f3, c.f4, c.f1, c.f2, c.f7, c.f8, c.f5, c.f6)
  }

  /** Bounce-back is a pairwise swap, so doing it twice restores the node. */
  lemma BounceBackInvolution(c: Cell)
    ensures BounceBack(BounceBack(c)) == c
  {
  }

  /** The rule move_bcs applies at node (i, j) of the (lx + 1) x (ly + 1) grid before the obstacle
      pass. The four corners, the inlet and outlet columns and the two walls are disjoint node
      sets; every other node is left as it is. ux is the node's current x velocity. */
  function BoundaryCell(i: int, j: int, lx: int, ly: int, c: Cell, ux: real,
                        inletRho: real, outletRho: real): (r: Cell)
    requires 1 <= lx && 1 <= ly
    ensures i == 0 && 0 < j < ly ==> r == ZouHeInlet(c, inletRho, ux)
    ensures i == lx && 0 < j < ly ==> r == ZouHeOutlet(c, outletRho, ux)
    ensures 0 < i < lx && j == ly ==> r == NorthWall(c)
    ensures 0 < i < lx && j == 0 ==> r == SouthWall(c)
    ensures i == 0 && j == 0 ==> r == BottomInlet(c, inletRho)
    ensures i == 0 && j == ly ==> r == TopInlet(c, inletRho)
    ensures i == lx && j == 0 ==> r == BottomOutlet(c, outletRho)
    ensures i == lx && j == ly ==> r == TopOutlet(c, outletRho)
    ensures (i == 0 || i == lx) && (j == 0 || j == ly) ==> Density(r) == (if i == 0 then inletRho else outletRho)
    ensures 0 < i < lx && 0 < j < ly ==> r == c
  {
    if i == 0 && j == 0 then BottomInlet(c, inletRho)
    else if i == 0 && j == ly then TopInlet(c, inletRho)
    else if i == lx && j == 0 then BottomOutlet(c, outletRho)
    else if i == lx && j == ly then TopOutlet(c, outletRho)
    else if i == 0 && 0 < j < ly then ZouHeInlet(c, inletRho, ux)
    else if i == lx && 0 < j < ly then ZouHeOutlet(c, outletRho, ux)
    else if 0 < i < lx && j == ly then NorthWall(c)
    else if 0 < i < lx && j == 0 then SouthWall(c)
    else c
  }
}
