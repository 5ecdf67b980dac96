/** The D2Q9 pipe-flow simulation of Pipe_Flow and its obstacle variant Pipe_Flow_Cylinder
    (python_dim.py:28-411): the population array f[9][nx][ny], its equilibrium feq and the
    hydrodynamic fields rho, u, v, updated in place by one timestep after another. A grid
    without obstacle nodes is the plain Pipe_Flow. */
module PipeFlows {
  import opened D2Q9
  import opened Bgk
  import opened Boundaries
  import opened Moments
  import opened Streaming

  /** The initial density profile as init_hydro writes it (python_dim.py:119-123): the loop over
      all nx = lx + 1 columns divides by nx, overwriting the outlet density set just before. */
  function InitialDensityAsWritten(i: int, lx: int, inletRho: real, outletRho: real): real
    requires 1 <= lx
  {
    inletRho - (i as real) * (inletRho - outletRho) / ((lx + 1) as real)
  }

  /** As written, the outlet column starts at outlet_rho + (inlet_rho - outlet_rho) / nx instead
      of outlet_rho whenever the two densities differ. */
  lemma InitialOutletMissed(lx: int, inletRho: real, outletRho: real)
    requires 1 <= lx && inletRho != outletRho
    ensures InitialDensityAsWritten(lx, lx, inletRho, outletRho) != outletRho
    ensures InitialDensityAsWritten(lx, lx, inletRho, outletRho) - outletRho
            == (inletRho - outletRho) / ((lx + 1) as real)
  {
    var d := inletRho - outletRho;
    var n := (lx + 1) as real;
    assert (lx as real) * d / n + d / n == ((lx as real) * d + d) / n;
    assert (lx as real) * d + d == n * d;
    assert n * d / n == d;
  }

  /** The linear profile init_hydro is evidently meant to set up: inlet_rho in column 0 falling
      to outlet_rho in column lx. The model starts from this profile. */
  function InitialDensity(i: int, lx: int, inletRho: real, outletRho: real): (r: real)
    requires 1 <= lx
    ensures i == 0 ==> r == inletRho
    ensures i == lx ==> r == outletRho
    ensures 0 <= i <= lx && outletRho <= inletRho ==> outletRho <= r <= inletRho
  {
    FractionBetween(i as real, lx as real, inletRho - outletRho);
    inletRho - (i as real) * (inletRho - outletRho) / (lx as real)
  }

  /** n/m of a non-negative d lies between 0 and d when 0 <= n <= m. */
  lemma FractionBetween(n: real, m: real, d: real)
    requires 0.0 < m
    ensures 0.0 <= n <= m && 0.0 <= d ==> 0.0 <= n * d / m <= d
  {
    if 0.0 <= n <= m && 0.0 <= d {
      assert n * d <= m * d;
      assert m * d / m == d;
    }
  }

  /** The whole simulation state as a value, indexed [x][y]: the populations and the equilibrium
      of every node, its density and velocity, and whether it is an obstacle node. */
  datatype Snapshot = Snapshot(f: seq<seq<Cell>>, feq: seq<seq<Cell>>, rho: seq<seq<real>>,
                               u: seq<seq<real>>, v: seq<seq<real>>, mask: seq<seq<bool>>)

  /** g has lx + 1 columns of ly + 1 entries each. */
  ghost predicate IsGrid<T>(g: seq<seq<T>>, lx: int, ly: int)
  {
    |g| == lx + 1 && forall i :: 0 <= i < |g| ==> |g[i]| == ly + 1
  }

  /** Two grids of the same shape that agree at every node are equal. */
  lemma GridsEqual<T>(a: seq<seq<T>>, b: seq<seq<T>>, lx: int, ly: int)
    requires IsGrid(a, lx, ly) && IsGrid(b, lx, ly)
    requires forall i, j :: 0 <= i <= lx && 0 <= j <= ly ==> a[i][j] == b[i][j]
    ensures a == b
  {
    forall i | 0 <= i <= lx
      ensures a[i] == b[i]
    {
      assert forall j :: 0 <= j < |a[i]| ==> a[i][j] == b[i][j];
    }
  }

  /** The states a loop passes through from s in at most n iterations of next, stopping early
      only at a state where next is not defined (OrbitSteps states the rest). */
  ghost function Orbit<S(!new)>(s: S, n: nat, defined: S -> bool, next: S --> S): (r: seq<S>)
    requires forall x :: defined(x) ==> next.requires(x)
    ensures 1 <= |r| <= n + 1 && r[0] == s
    ensures |r| <= n ==> !defined(r[|r| - 1])
    decreases n
  {
    if n == 0 || !defined(s) then [s] else [s] + Orbit(next(s), n - 1, defined, next)
  }

  /** Each state of the orbit but the last has next defined and is followed by next of it. */
  lemma {:induction false} OrbitSteps<S(!new)>(s: S, n: nat, defined: S -> bool, next: S --> S)
    requires forall x :: defined(x) ==> next.requires(x)
    ensures forall m :: 0 <= m < |Orbit(s, n, defined, next)| - 1 ==>
      defined(Orbit(s, n, defined, next)[m])
      && Orbit(s, n, defined, next)[m + 1] == next(Orbit(s, n, defined, next)[m])
    decreases n
  {
    var r := Orbit(s, n, defined, next);
    if |r| > 1 {
      var tail := Orbit(next(s), n - 1, defined, next);
      OrbitSteps(next(s), n - 1, defined, next);
      assert r == [s] + tail;
      forall m | 0 <= m < |r| - 1
        ensures defined(r[m]) && r[m + 1] == next(r[m])
      {
        if m > 0 {
          assert r[m] == tail[m - 1] && r[m + 1] == tail[m];
        }
      }
    }
  }

  /** The orbit is the only sequence with those properties: such a loop is deterministic. */
  lemma {:induction false} OrbitUnique<S(!new)>(s: S, n: nat, defined: S -> bool, next: S --> S, r: seq<S>)
    requires forall x :: defined(x) ==> next.requires(x)
    requires 1 <= |r| <= n + 1 && r[0] == s
    requires forall m :: 0 <= m < |r| - 1 ==> defined(r[m]) && r[m + 1] == next(r[m])
    requires |r| <= n ==> !defined(r[|r| - 1])
    ensures r == Orbit(s, n, defined, next)
    decreases n
  {
    if |r| > 1 {
      var tail := r[1..];
      assert forall m :: 0 <= m < |tail| ==> tail[m] == r[m + 1];
      OrbitUnique(r[1], n - 1, defined, next, tail);
      assert r == [s] + tail;
    }
  }

  /** A state of the orbit reached before its last iteration where next is defined is followed
      by next of it. */
  lemma OrbitContinues<S(!new)>(s: S, n: nat, defined: S -> bool, next: S --> S, k: nat)
    requires forall x :: defined(x) ==> next.requires(x)
    requires k < n && k < |Orbit(s, n, defined, next)| && defined(Orbit(s, n, defined, next)[k])
    ensures k + 1 < |Orbit(s, n, defined, next)|
    ensures Orbit(s, n, defined, next)[k + 1] == next(Orbit(s, n, defined, next)[k])
  {
    OrbitSteps(s, n, defined, next);
  }

  /** A state of the orbit reached after n iterations, or where next is not defined, is its last. */
  lemma OrbitEnds<S(!new)>(s: S, n: nat, defined: S -> bool, next: S --> S, k: nat)
    requires forall x :: defined(x) ==> next.requires(x)
    requires k < |Orbit(s, n, defined, next)|
    requires k == n || !defined(Orbit(s, n, defined, next)[k])
    ensures |Orbit(s, n, defined, next)| == k + 1
  {
    OrbitSteps(s, n, defined, next);
  }

  class PipeFlow {
    /** Last column and last row: the grid has nx = lx + 1 columns and ny = ly + 1 rows. */
    const lx: int
    const ly: int
    /** BGK relaxation frequency. */
    const omega: real
    /** Fixed densities of the pressure inlet (column 0) and outlet (column lx). */
    const inletRho: real
    const outletRho: real
    /** Populations f[k, x, y] and their equilibrium. */
    const f: array3<real>
    const feq: array3<real>
    /** Hydrodynamic fields. */
    const rho: array2<real>
    const u: array2<real>
    const v: array2<real>
    /** Obstacle nodes; all false for the plain pipe. */
    const obstacle: array2<bool>

    ghost predicate Valid()
    {
      1 <= lx && 1 <= ly && inletRho > 0.0 && outletRho > 0.0 && StableRelaxation(omega)
      && f.Length0 == NumJumpers && f.Length1 == lx + 1 && f.Length2 == ly + 1
      && feq.Length0 == NumJumpers && feq.Length1 == lx + 1 && feq.Length2 == ly + 1
      && rho.Length0 == lx + 1 && rho.Length1 == ly + 1
      && u.Length0 == lx + 1 && u.Length1 == ly + 1
      && v.Length0 == lx + 1 && v.Length1 == ly + 1
      && obstacle.Length0 == lx + 1 && obstacle.Length1 == ly + 1
      && f != feq && rho != u && rho != v && u != v
    }

    predicate InGrid(i: int, j: int)
    {
      0 <= i <= lx && 0 <= j <= ly
    }

    /** The nine populations of node (i, j). */
    function CellAt(i: int, j: int): (c: Cell)
      reads f
      requires Valid() && InGrid(i, j)
      ensures forall k :: 0 <= k < NumJumpers ==> c.At(k) == f[k, i, j]
    {
      Cell(f[0, i, j], f[1, i, j], f[2, i, j], f[3, i, j], f[4, i, j],
           f[5, i, j], f[6, i, j], f[7, i, j], f[8, i, j])
    }

    /** Node (i, j) after move_bcs: its boundary rule, then bounce-back if it is an obstacle node. */
    function AfterBcs(i: int, j: int): Cell
      reads f, u, obstacle
      requires Valid() && InGrid(i, j)
    {
      BcsRule(i, j, CellAt(i, j), u[i, j], obstacle[i, j])
    }

    /** The rule move_bcs applies to a node with populations c, x velocity ux and obstacle flag
      masked. */
    function BcsRule(i: int, j: int, c: Cell, ux: real, masked: bool): Cell
      requires Valid() && InGrid(i, j)
    {
      var b := BoundaryCell(i, j, lx, ly, c, ux, inletRho, outletRho);
      if masked then BounceBack(b) else b
    }

    /** Population k of node (i, j) after move_bcs and move: taken from the upstream node
      (i - cx[k], j - cy[k]) where the direction streams, kept otherwise. */
    function Streamed(k: int, i: int, j: int): real
      reads f, u, obstacle
      requires Valid() && 0 <= k < NumJumpers && InGrid(i, j)
    {
      if Streams(k, i, j, lx, ly) then AfterBcs(i - Cx(k), j - Cy(k)).At(k) else AfterBcs(i, j).At(k)
    }

    function StreamedCell(i: int, j: int): Cell
      reads f, u, obstacle
      requires Valid() && InGrid(i, j)
    {
      Cell(Streamed(0, i, j), Streamed(1, i, j), Streamed(2, i, j), Streamed(3, i, j), Streamed(4, i, j),
           Streamed(5, i, j), Streamed(6, i, j), Streamed(7, i, j), Streamed(8, i, j))
    }

    /** update_hydro divides by the population sum of every fluid node off the walls; the step is
      defined in real arithmetic when none of those sums is zero after streaming. */
    predicate StepDefined()
      reads f, u, obstacle
      requires Valid()
    {
      forall i, j :: 0 <= i <= lx && 0 <= j <= ly && DividesByDensity(j, ly, obstacle[i, j])
        ==> Density(StreamedCell(i, j)) != 0.0
    }

    /** The populations of node (i, j) carry its fields: their sum is rho and their momentum
      rho (u, v). */
    ghost predicate Carries(i: int, j: int)
      reads f, rho, u, v
      requires Valid() && InGrid(i, j)
    {
      Density(CellAt(i, j)) == rho[i, j]
      && MomentumX(CellAt(i, j)) == MomentumOf(rho[i, j], u[i, j])
      && MomentumY(CellAt(i, j)) == MomentumOf(rho[i, j], v[i, j])
    }

    /** The relations between the fields that hold after every step: the fixed outlet density
      in column lx, and everything Coherent states. */
    ghost predicate Consistent()
      reads f, feq, rho, u, v, obstacle
      requires Valid()
    {
      Coherent() && forall j :: 0 <= j <= ly ==> rho[lx, j] == outletRho
    }

    /** The relations that hold from construction on: the fixed inlet density in column 0, zero
      velocities on walls and obstacles, feq the equilibrium of the hydrodynamic fields, and at
      every interior fluid node the populations carry exactly the density rho and momentum
      (rho u, rho v). */
    ghost predicate Coherent()
      reads f, feq, rho, u, v, obstacle
      requires Valid()
    {
      (forall j :: 0 <= j <= ly ==> rho[0, j] == inletRho)
      && (forall i, j :: InGrid(i, j) && !DividesByDensity(j, ly, obstacle[i, j]) ==> v[i, j] == 0.0)
      && (forall i, j :: InGrid(i, j) && obstacle[i, j] ==> u[i, j] == 0.0)
      && (forall i, j :: 0 < i < lx && (j == 0 || j == ly) ==> u[i, j] == 0.0)
      && (forall k, i, j :: 0 <= k < NumJumpers && InGrid(i, j)
            ==> feq[k, i, j] == Equilibrium(k, rho[i, j], u[i, j], v[i, j]))
      && (forall i, j :: 0 < i < lx && 0 < j < ly && !obstacle[i, j] ==> Carries(i, j))
    }

    /** Zou–He inlet on the slice 1 <= y < ly of column 0, one slice assignment after the other
      (python_dim.py:197-199); each reads only populations none of them writes. */
    method InletColumn()
      requires Valid()
      modifies f
      ensures forall j :: 0 < j < ly ==> CellAt(0, j) == ZouHeInlet(old(CellAt(0, j)), inletRho, u[0, j])
      ensures forall i, j :: InGrid(i, j) && !(i == 0 && 0 < j < ly) ==> CellAt(i, j) == old(CellAt(i, j))
    {
      forall j | 1 <= j < ly {
        f[1, 0, j] := f[3, 0, j] + (2.0 / 3.0) * inletRho * u[0, j];
      }
      forall j | 1 <= j < ly {
        f[5, 0, j] := -0.5 * f[2, 0, j] + 0.5 * f[4, 0, j] + f[7, 0, j] + (1.0 / 6.0) * u[0, j] * inletRho;
      }
      forall j | 1 <= j < ly {
        f[8, 0, j] := 0.5 * f[2, 0, j] - 0.5 * f[4, 0, j] + f[6, 0, j] + (1.0 / 6.0) * u[0, j] * inletRho;
      }
      InletCells();
    }

    /** Read node by node, the three slice assignments of the inlet turn every node of the slice
      into the Zou–He inlet of its old populations and leave every other node as it was. */
    twostate lemma InletCells()
      requires Valid()
      requires forall j :: 0 < j < ly ==>
        f[1, 0, j] == old(f[3, 0, j]) + (2.0 / 3.0) * inletRho * u[0, j] &&
        f[5, 0, j] == -0.5 * old(f[2, 0, j]) + 0.5 * old(f[4, 0, j]) + old(f[7, 0, j]) + (1.0 / 6.0) * u[0, j] * inletRho &&
        f[8, 0, j] == 0.5 * old(f[2, 0, j]) - 0.5 * old(f[4, 0, j]) + old(f[6, 0, j]) + (1.0 / 6.0) * u[0, j] * inletRho
      requires forall k, i, j :: 0 <= k < NumJumpers && InGrid(i, j) && !(i == 0 && 0 < j < ly && (k == 1 || k == 5 || k == 8)) ==>
        f[k, i, j] == old(f[k, i, j])
      ensures forall j :: 0 < j < ly ==> CellAt(0, j) == ZouHeInlet(old(CellAt(0, j)), inletRho, u[0, j])
      ensures forall i, j :: InGrid(i, j) && !(i == 0 && 0 < j < ly) ==> CellAt(i, j) == old(CellAt(i, j))
    {
      forall i, j | InGrid(i, j) && !(i == 0 && 0 < j < ly)
        ensures CellAt(i, j) == old(CellAt(i, j))
      {
        CellExtensionality(CellAt(i, j), old(CellAt(i, j)));
      }
    }

    /** Zou–He outlet on the slice 1 <= y < ly of column lx (python_dim.py:202-204). */
    method OutletColumn()
      requires Valid()
      modifies f
      ensures forall j :: 0 < j < ly ==> CellAt(lx, j) == ZouHeOutlet(old(CellAt(lx, j)), outletRho, u[lx, j])
      ensures forall i, j :: InGrid(i, j) && !(i == lx && 0 < j < ly) ==> CellAt(i, j) == old(CellAt(i, j))
    {
      forall j | 1 <= j < ly {
        f[3, lx, j] := f[1, lx, j] - (2.0 / 3.0) * outletRho * u[lx, j];
      }
      forall j | 1 <= j < ly {
        f[6, lx, j] := -0.5 * f[2, lx, j] + 0.5 * f[4, lx, j] + f[8, lx, j] - (1.0 / 6.0) * u[lx, j] * outletRho;
      }
      forall j | 1 <= j < ly {
        f[7, lx, j] := 0.5 * f[2, lx, j] - 0.5 * f[4, lx, j] + f[5, lx, j] - (1.0 / 6.0) * u[lx, j] * outletRho;
      }
      OutletCells();
    }

    /** The same reading of the three outlet slice assignments. */
    twostate lemma OutletCells()
      requires Valid()
      requires forall j :: 0 < j < ly ==>
        f[3, lx, j] == old(f[1, lx, j]) - (2.0 / 3.0) * outletRho * u[lx, j] &&
        f[6, lx, j] == -0.5 * old(f[2, lx, j]) + 0.5 * old(f[4, lx, j]) + old(f[8, lx, j]) - (1.0 / 6.0) * u[lx, j] * outletRho &&
        f[7, lx, j] == 0.5 * old(f[2, lx, j]) - 0.5 * old(f[4, lx, j]) + old(f[5, lx, j]) - (1.0 / 6.0) * u[lx, j] * outletRho
      requires forall k, i, j :: 0 <= k < NumJumpers && InGrid(i, j) && !(i == lx && 0 < j < ly && (k == 3 || k == 6 || k == 7)) ==>
        f[k, i, j] == old(f[k, i, j])
      ensures forall j :: 0 < j < ly ==> CellAt(lx, j) == ZouHeOutlet(old(CellAt(lx, j)), outletRho, u[lx, j])
      ensures forall i, j :: InGrid(i, j) && !(i == lx && 0 < j < ly) ==> CellAt(i, j) == old(CellAt(i, j))
    {
      forall i, j | InGrid(i, j) && !(i == lx && 0 < j < ly)
        ensures CellAt(i, j) == old(CellAt(i, j))
      {
        CellExtensionality(CellAt(i, j), old(CellAt(i, j)));
      }
    }

    /** Zou–He pressure inlet and outlet (python_dim.py:196-204). */
    method PressureBoundaries()
      requires Valid()
      modifies f
      ensures forall i, j :: InGrid(i, j) ==>
        CellAt(i, j) ==
        (if i == 0 && 0 < j < ly then ZouHeInlet(old(CellAt(i, j)), inletRho, u[i, j])
         else if i == lx && 0 < j < ly then ZouHeOutlet(old(CellAt(i, j)), outletRho, u[i, j])
         else old(CellAt(i, j)))
    {
      InletColumn();
      OutletColumn();
    }

    /** Bounce-back on the top wall, y = ly, for 1 <= x < lx (python_dim.py:210-214). */
    method NorthWallRow()
      requires Valid()
      modifies f
      ensures forall i, j :: InGrid(i, j) ==>
        CellAt(i, j) == (if 0 < i < lx && j == ly then NorthWall(old(CellAt(i, j))) else old(CellAt(i, j)))
    {
      var i := 1;
      while i < lx
        invariant 1 <= i <= lx
        invariant forall x :: 0 < x < i ==> f[4, x, ly] == old(f[2, x, ly]) && f[8, x, ly] == old(f[6, x, ly]) && f[7, x, ly] == old(f[5, x, ly])
        invariant forall k, x, y :: 0 <= k < NumJumpers && InGrid(x, y) && !(y == ly && 0 < x < i && (k == 4 || k == 8 || k == 7)) ==>
          f[k, x, y] == old(f[k, x, y])
      {
        f[4, i, ly] := f[2, i, ly];
        f[8, i, ly] := f[6, i, ly];
        f[7, i, ly] := f[5, i, ly];
        i := i + 1;
      }
      forall x, y | InGrid(x, y)
        ensures CellAt(x, y) == (if 0 < x < lx && y == ly then NorthWall(old(CellAt(x, y))) else old(CellAt(x, y)))
      {
        CellExtensionality(CellAt(x, y), if 0 < x < lx && y == ly then NorthWall(old(CellAt(x, y))) else old(CellAt(x, y)));
      }
    }

    /** Bounce-back on the bottom wall, y = 0, for 1 <= x < lx (python_dim.py:215-219). */
    method SouthWallRow()
      requires Valid()
      modifies f
      ensures forall i, j :: InGrid(i, j) ==>
        CellAt(i, j) == (if 0 < i < lx && j == 0 then SouthWall(old(CellAt(i, j))) else old(CellAt(i, j)))
    {
      var i := 1;
      while i < lx
        invariant 1 <= i <= lx
        invariant forall x :: 0 < x < i ==> f[2, x, 0] == old(f[4, x, 0]) && f[6, x, 0] == old(f[8, x, 0]) && f[5, x, 0] == old(f[7, x, 0])
        invariant forall k, x, y :: 0 <= k < NumJumpers && InGrid(x, y) && !(y == 0 && 0 < x < i && (k == 2 || k == 6 || k == 5)) ==>
          f[k, x, y] == old(f[k, x, y])
      {
        f[2, i, 0] := f[4, i, 0];
        f[6, i, 0] := f[8, i, 0];
        f[5, i, 0] := f[7, i, 0];
        i := i + 1;
      }
      forall x, y | InGrid(x, y)
        ensures CellAt(x, y) == (if 0 < x < lx && y == 0 then SouthWall(old(CellAt(x, y))) else old(CellAt(x, y)))
      {
        CellExtensionality(CellAt(x, y), if 0 < x < lx && y == 0 then SouthWall(old(CellAt(x, y))) else old(CellAt(x, y)));
      }
    }

    /** Bounce-back on the top and bottom walls for 1 <= x < lx (python_dim.py:210-219). */
    method WallBounceBack()
      requires Valid()
      modifies f
      ensures forall i, j :: InGrid(i, j) ==>
        CellAt(i, j) ==
        (if 0 < i < lx && j == ly then NorthWall(old(CellAt(i, j)))
         else if 0 < i < lx && j == 0 then SouthWall(old(CellAt(i, j)))
         else old(CellAt(i, j)))
    {
      NorthWallRow();
      SouthWallRow();
    }

    /** Corner (0, 0) in the source's statement order (python_dim.py:223-228): every formula reads
      only populations the block has not yet written, so the node ends up as BottomInlet. */
    method BottomInletCorner()
      requires Valid()
      modifies f
      ensures forall i, j :: InGrid(i, j) ==>
        CellAt(i, j) == (if i == 0 && j == 0 then BottomInlet(old(CellAt(i, j)), inletRho) else old(CellAt(i, j)))
    {
      f[1, 0, 0] := f[3, 0, 0];
      f[2, 0, 0] := f[4, 0, 0];
      f[5, 0, 0] := f[7, 0, 0];
      f[6, 0, 0] := 0.5 * (-f[0, 0, 0] - 2.0 * f[3, 0, 0] - 2.0 * f[4, 0, 0] - 2.0 * f[7, 0, 0] + inletRho);
      f[8, 0, 0] := 0.5 * (-f[0, 0, 0] - 2.0 * f[3, 0, 0] - 2.0 * f[4, 0, 0] - 2.0 * f[7, 0, 0] + inletRho);
    }

    /** Corner (0, ly) in the source's statement order (python_dim.py:230-235): every formula reads
      only populations the block has not yet written, so the node ends up as TopInlet. */
    method TopInletCorner()
      requires Valid()
      modifies f
      ensures forall i, j :: InGrid(i, j) ==>
        CellAt(i, j) == (if i == 0 && j == ly then TopInlet(old(CellAt(i, j)), inletRho) else old(CellAt(i, j)))
    {
      f[1, 0, ly] := f[3, 0, ly];
      f[4, 0, ly] := f[2, 0, ly];
      f[5, 0, ly] := 0.5 * (-f[0, 0, ly] - 2.0 * f[2, 0, ly] - 2.0 * f[3, 0, ly] - 2.0 * f[6, 0, ly] + inletRho);
      f[7, 0, ly] := 0.5 * (-f[0, 0, ly] - 2.0 * f[2, 0, ly] - 2.0 * f[3, 0, ly] - 2.0 * f[6, 0, ly] + inletRho);
      f[8, 0, ly] := f[6, 0, ly];
    }

    /** Corner (lx, 0) in the source's statement order (python_dim.py:237-242): every formula reads
      only populations the block has not yet written, so the node ends up as BottomOutlet. */
    method BottomOutletCorner()
      requires Valid()
      modifies f
      ensures forall i, j :: InGrid(i, j) ==>
        CellAt(i, j) == (if i == lx && j == 0 then BottomOutlet(old(CellAt(i, j)), outletRho) else old(CellAt(i, j)))
    {
      f[3, lx, 0] := f[1, lx, 0];
      f[2, lx, 0] := f[4, lx, 0];
      f[6, lx, 0] := f[8, lx, 0];
      f[5, lx, 0] := 0.5 * (-f[0, lx, 0] - 2.0 * f[1, lx, 0] - 2.0 * f[4, lx, 0] - 2.0 * f[8, lx, 0] + outletRho);
      f[7, lx, 0] := 0.5 * (-f[0, lx, 0] - 2.0 * f[1, lx, 0] - 2.0 * f[4, lx, 0] - 2.0 * f[8, lx, 0] + outletRho);
    }

    /** Corner (lx, ly) in the source's statement order (python_dim.py:244-248): every formula reads
      only populations the block has not yet written, so the node ends up as TopOutlet. */
    method TopOutletCorner()
      requires Valid()
      modifies f
      ensures forall i, j :: InGrid(i, j) ==>
        CellAt(i, j) == (if i == lx && j == ly then TopOutlet(old(CellAt(i, j)), outletRho) else old(CellAt(i, j)))
    {
      f[3, lx, ly] := f[1, lx, ly];
      f[4, lx, ly] := f[2, lx, ly];
      f[6, lx, ly] := 0.5 * (-f[0, lx, ly] - 2.0 * f[1, lx, ly] - 2.0 * f[2, lx, ly] - 2.0 * f[5, lx, ly] + outletRho);
      f[7, lx, ly] := f[5, lx, ly];
      f[8, lx, ly] := 0.5 * (-f[0, lx, ly] - 2.0 * f[1, lx, ly] - 2.0 * f[2, lx, ly] - 2.0 * f[5, lx, ly] + outletRho);
    }

    /** The four corner nodes (python_dim.py:221-248). */
    method CornerNodes()
      requires Valid()
      modifies f
      ensures forall i, j :: InGrid(i, j) ==>
        CellAt(i, j) ==
        (if i == 0 && j == 0 then BottomInlet(old(CellAt(i, j)), inletRho)
         else if i == 0 && j == ly then TopInlet(old(CellAt(i, j)), inletRho)
         else if i == lx && j == 0 then BottomOutlet(old(CellAt(i, j)), outletRho)
         else if i == lx && j == ly then TopOutlet(old(CellAt(i, j)), outletRho)
         else old(CellAt(i, j)))
    {
      BottomInletCorner();
      TopInletCorner();
      BottomOutletCorner();
      TopOutletCorner();
    }

    /** Bounce-back at node (x, y) from the eight moving populations cached before the node is
      written (python_dim.py:388-411); every other node keeps its populations. */
    method BounceBackNode(x: int, y: int)
      requires Valid() && InGrid(x, y)
      modifies f
      ensures forall i, j :: InGrid(i, j) ==>
        CellAt(i, j) == (if i == x && j == y then BounceBack(old(CellAt(i, j))) else old(CellAt(i, j)))
    {
      var old1, old2, old3, old4 := f[1, x, y], f[2, x, y], f[3, x, y], f[4, x, y];
      var old5, old6, old7, old8 := f[5, x, y], f[6, x, y], f[7, x, y], f[8, x, y];
      f[1, x, y] := old3;
      f[2, x, y] := old4;
      f[3, x, y] := old1;
      f[4, x, y] := old2;
      f[5, x, y] := old7;
      f[6, x, y] := old8;
      f[7, x, y] := old5;
      f[8, x, y] := old6;
      assert forall k, i, j :: 0 <= k < NumJumpers && InGrid(i, j) && !(i == x && j == y) ==>
        f[k, i, j] == old(f[k, i, j]);
      assert CellAt(x, y) == BounceBack(old(CellAt(x, y)));
    }

    /** Bounce-back at every obstacle node, visited in row-major order like the pixel list of
      np.where (python_dim.py:377-411). */
    method ObstacleBounceBack()
      requires Valid()
      modifies f
      ensures forall i, j :: InGrid(i, j) ==>
        CellAt(i, j) ==
        (if obstacle[i, j] then BounceBack(old(CellAt(i, j))) else old(CellAt(i, j)))
    {
      var x := 0;
      while x <= lx
        invariant 0 <= x <= lx + 1
        invariant forall i, j :: InGrid(i, j) ==>
          CellAt(i, j) ==
          (if obstacle[i, j] && i < x then BounceBack(old(CellAt(i, j))) else old(CellAt(i, j)))
      {
        var y := 0;
        while y <= ly
          invariant 0 <= y <= ly + 1
          invariant forall i, j :: InGrid(i, j) ==>
            CellAt(i, j) ==
            (if obstacle[i, j] && (i < x || (i == x && j < y)) then BounceBack(old(CellAt(i, j)))
             else old(CellAt(i, j)))
        {
          if obstacle[x, y] {
            BounceBackNode(x, y);
          }
          y := y + 1;
        }
        x := x + 1;
      }
    }

    /** move_bcs, with the obstacle pass of the cylinder variant after it (python_dim.py:188-248,
      374-411): every node ends up as AfterBcs describes it. */
    method MoveBcs()
      requires Valid()
      modifies f
      ensures forall i, j :: InGrid(i, j) ==> CellAt(i, j) == old(AfterBcs(i, j))
    {
      PressureBoundaries();
      label Pressure:
      WallBounceBack();
      label Walls:
      CornerNodes();
      label Corners:
      ObstacleBounceBack();
      forall i, j | InGrid(i, j)
        ensures CellAt(i, j) == old(AfterBcs(i, j))
      {
        var c := old(CellAt(i, j));
        var b := BoundaryCell(i, j, lx, ly, c, u[i, j], inletRho, outletRho);
        assert old@Corners(CellAt(i, j)) == b;
      }
    }

    /** One row of the up and up-left nest: columns 0 to lx - 1 (python_dim.py:257-259); every read
      is in row j - 1, which this row does not write. */
    method StreamUpRow(j: int)
      requires Valid() && 1 <= j <= ly
      modifies f
      ensures forall x, y :: InGrid(x, y) ==>
        f[2, x, y] == (if y == j && 0 <= x < lx then old(f[2, x, y - 1]) else old(f[2, x, y]))
      ensures forall x, y :: InGrid(x, y) ==>
        f[6, x, y] == (if y == j && 0 <= x < lx then old(f[6, x + 1, y - 1]) else old(f[6, x, y]))
      ensures forall k, x, y :: 0 <= k < NumJumpers && k != 2 && k != 6 && InGrid(x, y) ==>
        f[k, x, y] == old(f[k, x, y])
    {
      var i := 0;
      while i < lx
        invariant 0 <= i <= lx
        invariant forall x, y :: InGrid(x, y) ==>
          f[2, x, y] == (if y == j && 0 <= x < i then old(f[2, x, y - 1]) else old(f[2, x, y]))
        invariant forall x, y :: InGrid(x, y) ==>
          f[6, x, y] == (if y == j && 0 <= x < i then old(f[6, x + 1, y - 1]) else old(f[6, x, y]))
        invariant forall k, x, y :: 0 <= k < NumJumpers && k != 2 && k != 6 && InGrid(x, y) ==>
          f[k, x, y] == old(f[k, x, y])
      {
        f[2, i, j] := f[2, i, j - 1];
        f[6, i, j] := f[6, i + 1, j - 1];
        i := i + 1;
      }
    }

    /** Up and up-left, rows from ly down to 1 (python_dim.py:256-259). */
    method StreamUp()
      requires Valid()
      modifies f
      ensures forall k, i, j :: 0 <= k < NumJumpers && InGrid(i, j) ==>
        f[k, i, j] == (if (k == 2 || k == 6) && Streams(k, i, j, lx, ly)
                       then old(f[k, i - Cx(k), j - Cy(k)]) else old(f[k, i, j]))
    {
      var j := ly;
      while j > 0
        invariant 0 <= j <= ly
        invariant forall x, y :: InGrid(x, y) ==>
          f[2, x, y] == (if 0 <= x < lx && j < y <= ly then old(f[2, x, y - 1]) else old(f[2, x, y]))
        invariant forall x, y :: InGrid(x, y) ==>
          f[6, x, y] == (if 0 <= x < lx && j < y <= ly then old(f[6, x + 1, y - 1]) else old(f[6, x, y]))
        invariant forall k, x, y :: 0 <= k < NumJumpers && k != 2 && k != 6 && InGrid(x, y) ==>
          f[k, x, y] == old(f[k, x, y])
      {
        StreamUpRow(j);
        j := j - 1;
      }
    }

    /** One row of the right and up-right nest, columns from lx down to 1 (python_dim.py:261-263);
      f1 reads its left neighbour, which the descending order has not written yet. */
    method StreamRightRow(j: int)
      requires Valid() && 1 <= j <= ly
      modifies f
      ensures forall x, y :: InGrid(x, y) ==>
        f[1, x, y] == (if y == j && 1 <= x <= lx then old(f[1, x - 1, y]) else old(f[1, x, y]))
      ensures forall x, y :: InGrid(x, y) ==>
        f[5, x, y] == (if y == j && 1 <= x <= lx then old(f[5, x - 1, y - 1]) else old(f[5, x, y]))
      ensures forall k, x, y :: 0 <= k < NumJumpers && k != 1 && k != 5 && InGrid(x, y) ==>
        f[k, x, y] == old(f[k, x, y])
    {
      var i := lx;
      while i > 0
        invariant 0 <= i <= lx
        invariant forall x, y :: InGrid(x, y) ==>
          f[1, x, y] == (if y == j && i < x <= lx then old(f[1, x - 1, y]) else old(f[1, x, y]))
        invariant forall x, y :: InGrid(x, y) ==>
          f[5, x, y] == (if y == j && i < x <= lx then old(f[5, x - 1, y - 1]) else old(f[5, x, y]))
        invariant forall k, x, y :: 0 <= k < NumJumpers && k != 1 && k != 5 && InGrid(x, y) ==>
          f[k, x, y] == old(f[k, x, y])
      {
        f[1, i, j] := f[1, i - 1, j];
        f[5, i, j] := f[5, i - 1, j - 1];
        i := i - 1;
      }
    }

    /** Right and up-right, rows from ly down to 1, columns from lx down to 1
      (python_dim.py:260-263). */
    method StreamRight()
      requires Valid()
      modifies f
      ensures forall k, i, j :: 0 <= k < NumJumpers && InGrid(i, j) ==>
        f[k, i, j] == (if (k == 1 || k == 5) && Streams(k, i, j, lx, ly)
                       then old(f[k, i - Cx(k), j - Cy(k)]) else old(f[k, i, j]))
    {
      var j := ly;
      while j > 0
        invariant 0 <= j <= ly
        invariant forall x, y :: InGrid(x, y) ==>
          f[1, x, y] == (if 1 <= x <= lx && j < y <= ly then old(f[1, x - 1, y]) else old(f[1, x, y]))
        invariant forall x, y :: InGrid(x, y) ==>
          f[5, x, y] == (if 1 <= x <= lx && j < y <= ly then old(f[5, x - 1, y - 1]) else old(f[5, x, y]))
        invariant forall k, x, y :: 0 <= k < NumJumpers && k != 1 && k != 5 && InGrid(x, y) ==>
          f[k, x, y] == old(f[k, x, y])
      {
        StreamRightRow(j);
        j := j - 1;
      }
    }

    /** One row of the down and right-down nest, columns from lx down to 1 (python_dim.py:265-267);
      every read is in row j + 1. */
    method StreamDownRow(j: int)
      requires Valid() && 0 <= j < ly
      modifies f
      ensures forall x, y :: InGrid(x, y) ==>
        f[4, x, y] == (if y == j && 1 <= x <= lx then old(f[4, x, y + 1]) else old(f[4, x, y]))
      ensures forall x, y :: InGrid(x, y) ==>
        f[8, x, y] == (if y == j && 1 <= x <= lx then old(f[8, x - 1, y + 1]) else old(f[8, x, y]))
      ensures forall k, x, y :: 0 <= k < NumJumpers && k != 4 && k != 8 && InGrid(x, y) ==>
        f[k, x, y] == old(f[k, x, y])
    {
      var i := lx;
      while i > 0
        invariant 0 <= i <= lx
        invariant forall x, y :: InGrid(x, y) ==>
          f[4, x, y] == (if y == j && i < x <= lx then old(f[4, x, y + 1]) else old(f[4, x, y]))
        invariant forall x, y :: InGrid(x, y) ==>
          f[8, x, y] == (if y == j && i < x <= lx then old(f[8, x - 1, y + 1]) else old(f[8, x, y]))
        invariant forall k, x, y :: 0 <= k < NumJumpers && k != 4 && k != 8 && InGrid(x, y) ==>
          f[k, x, y] == old(f[k, x, y])
      {
        f[4, i, j] := f[4, i, j + 1];
        f[8, i, j] := f[8, i - 1, j + 1];
        i := i - 1;
      }
    }

    /** Down and right-down, rows from 0 up to ly - 1, columns from lx down to 1
      (python_dim.py:264-267). */
    method StreamDown()
      requires Valid()
      modifies f
      ensures forall k, i, j :: 0 <= k < NumJumpers && InGrid(i, j) ==>
        f[k, i, j] == (if (k == 4 || k == 8) && Streams(k, i, j, lx, ly)
                       then old(f[k, i - Cx(k), j - Cy(k)]) else old(f[k, i, j]))
    {
      var j := 0;
      while j < ly
        invariant 0 <= j <= ly
        invariant forall x, y :: InGrid(x, y) ==>
          f[4, x, y] == (if 1 <= x <= lx && 0 <= y < j then old(f[4, x, y + 1]) else old(f[4, x, y]))
        invariant forall x, y :: InGrid(x, y) ==>
          f[8, x, y] == (if 1 <= x <= lx && 0 <= y < j then old(f[8, x - 1, y + 1]) else old(f[8, x, y]))
        invariant forall k, x, y :: 0 <= k < NumJumpers && k != 4 && k != 8 && InGrid(x, y) ==>
          f[k, x, y] == old(f[k, x, y])
      {
        StreamDownRow(j);
        j := j + 1;
      }
    }

    /** One row of the left and left-down nest, columns 0 to lx - 1 (python_dim.py:269-271); f3
      reads its right neighbour, which the ascending order has not written yet. */
    method StreamLeftRow(j: int)
      requires Valid() && 0 <= j < ly
      modifies f
      ensures forall x, y :: InGrid(x, y) ==>
        f[3, x, y] == (if y == j && 0 <= x < lx then old(f[3, x + 1, y]) else old(f[3, x, y]))
      ensures forall x, y :: InGrid(x, y) ==>
        f[7, x, y] == (if y == j && 0 <= x < lx then old(f[7, x + 1, y + 1]) else old(f[7, x, y]))
      ensures forall k, x, y :: 0 <= k < NumJumpers && k != 3 && k != 7 && InGrid(x, y) ==>
        f[k, x, y] == old(f[k, x, y])
    {
      var i := 0;
      while i < lx
        invariant 0 <= i <= lx
        invariant forall x, y :: InGrid(x, y) ==>
          f[3, x, y] == (if y == j && 0 <= x < i then old(f[3, x + 1, y]) else old(f[3, x, y]))
        invariant forall x, y :: InGrid(x, y) ==>
          f[7, x, y] == (if y == j && 0 <= x < i then old(f[7, x + 1, y + 1]) else old(f[7, x, y]))
        invariant forall k, x, y :: 0 <= k < NumJumpers && k != 3 && k != 7 && InGrid(x, y) ==>
          f[k, x, y] == old(f[k, x, y])
      {
        f[3, i, j] := f[3, i + 1, j];
        f[7, i, j] := f[7, i + 1, j + 1];
        i := i + 1;
      }
    }

    /** Left and left-down, rows from 0 up to ly - 1 (python_dim.py:268-271). */
    method StreamLeft()
      requires Valid()
      modifies f
      ensures forall k, i, j :: 0 <= k < NumJumpers && InGrid(i, j) ==>
        f[k, i, j] == (if (k == 3 || k == 7) && Streams(k, i, j, lx, ly)
                       then old(f[k, i - Cx(k), j - Cy(k)]) else old(f[k, i, j]))
    {
      var j := 0;
      while j < ly
        invariant 0 <= j <= ly
        invariant forall x, y :: InGrid(x, y) ==>
          f[3, x, y] == (if 0 <= x < lx && 0 <= y < j then old(f[3, x + 1, y]) else old(f[3, x, y]))
        invariant forall x, y :: InGrid(x, y) ==>
          f[7, x, y] == (if 0 <= x < lx && 0 <= y < j then old(f[7, x + 1, y + 1]) else old(f[7, x, y]))
        invariant forall k, x, y :: 0 <= k < NumJumpers && k != 3 && k != 7 && InGrid(x, y) ==>
          f[k, x, y] == old(f[k, x, y])
      {
        StreamLeftRow(j);
        j := j + 1;
      }
    }

    /** move (python_dim.py:250-271): every population that streams at a node takes the value
      its upstream node held before the move; the loop order makes every read see that value. */
    method Move()
      requires Valid()
      modifies f
      ensures forall k, i, j :: 0 <= k < NumJumpers && InGrid(i, j) ==>
        f[k, i, j] == (if Streams(k, i, j, lx, ly) then old(f[k, i - Cx(k), j - Cy(k)]) else old(f[k, i, j]))
    {
      StreamUp();
      StreamRight();
      StreamDown();
      StreamLeft();
    }

    /** update_hydro divides by the population sum wherever the quotient is kept. */
    predicate HydroDefined()
      reads f, obstacle
      requires Valid()
    {
      forall i, j :: 0 <= i <= lx && 0 <= j <= ly && DividesByDensity(j, ly, obstacle[i, j]) ==>
        Density(CellAt(i, j)) != 0.0
    }

    /** update_hydro with the obstacle override of the cylinder variant (python_dim.py:157-185,
      369-372): density and velocity of every node from its current populations. */
    method UpdateHydro()
      requires Valid() && HydroDefined()
      modifies rho, u, v
      ensures forall i, j :: InGrid(i, j) ==>
        rho[i, j] == RecoveredRho(i, lx, CellAt(i, j), inletRho, outletRho)
        && u[i, j] == RecoveredU(i, j, lx, ly, obstacle[i, j], CellAt(i, j), inletRho, outletRho)
        && v[i, j] == RecoveredV(j, ly, obstacle[i, j], CellAt(i, j))
    {
      forall i, j | 0 <= i <= lx && 0 <= j <= ly {
        rho[i, j] := RecoveredRho(i, lx, CellAt(i, j), inletRho, outletRho);
      }
      forall i, j | 0 <= i <= lx && 0 <= j <= ly {
        u[i, j] := RecoveredU(i, j, lx, ly, obstacle[i, j], CellAt(i, j), inletRho, outletRho);
      }
      forall i, j | 0 <= i <= lx && 0 <= j <= ly {
        v[i, j] := RecoveredV(j, ly, obstacle[i, j], CellAt(i, j));
      }
    }

    /** update_feq (python_dim.py:129-155): the equilibrium of every node's density and velocity. */
    method UpdateFeq()
      requires Valid()
      modifies feq
      ensures forall k, i, j :: 0 <= k < NumJumpers && InGrid(i, j) ==>
        feq[k, i, j] == Equilibrium(k, rho[i, j], u[i, j], v[i, j])
    {
      forall k, i, j | 0 <= k < NumJumpers && 0 <= i <= lx && 0 <= j <= ly {
        feq[k, i, j] := Equilibrium(k, rho[i, j], u[i, j], v[i, j]);
      }
    }

    /** collide_particles (python_dim.py:284-289): BGK relaxation of every population towards feq. */
    method CollideParticles()
      requires Valid()
      modifies f
      ensures forall k, i, j :: 0 <= k < NumJumpers && InGrid(i, j) ==>
        f[k, i, j] == Relax(old(f[k, i, j]), feq[k, i, j], omega)
      ensures (forall k, i, j :: 0 <= k < NumJumpers && InGrid(i, j) ==>
                 feq[k, i, j] == Equilibrium(k, rho[i, j], u[i, j], v[i, j]))
              ==> forall i, j :: InGrid(i, j) && old(Carries(i, j)) ==> Carries(i, j)
    {
      forall k, i, j | 0 <= k < NumJumpers && 0 <= i <= lx && 0 <= j <= ly {
        f[k, i, j] := Relax(f[k, i, j], feq[k, i, j], omega);
      }
      if forall k, i, j :: 0 <= k < NumJumpers && InGrid(i, j) ==>
           feq[k, i, j] == Equilibrium(k, rho[i, j], u[i, j], v[i, j])
      {
        forall i, j | InGrid(i, j) && old(Carries(i, j))
          ensures Carries(i, j)
        {
          CellExtensionality(CellAt(i, j), RelaxCell(old(CellAt(i, j)), EquilibriumCell(rho[i, j], u[i, j], v[i, j]), omega));
          NodeCollision(i, j, old(CellAt(i, j)));
        }
      }
    }

    /** move_bcs followed by move: every node holds the populations StreamedCell describes. */
    method Propagate()
      requires Valid()
      modifies f
      ensures forall i, j :: InGrid(i, j) ==> CellAt(i, j) == old(StreamedCell(i, j))
    {
      MoveBcs();
      label Bcs:
      Move();
      forall k, i, j | 0 <= k < NumJumpers && InGrid(i, j)
        ensures f[k, i, j] == old(Streamed(k, i, j))
      {
        if Streams(k, i, j, lx, ly) {
          StreamsFromInside(k, i, j, lx, ly);
          assert old@Bcs(CellAt(i - Cx(k), j - Cy(k))).At(k) == old@Bcs(f[k, i - Cx(k), j - Cy(k)]);
        } else {
          assert old@Bcs(CellAt(i, j)).At(k) == old@Bcs(f[k, i, j]);
        }
      }
      forall i, j | InGrid(i, j)
        ensures CellAt(i, j) == old(StreamedCell(i, j))
      {
        CellExtensionality(CellAt(i, j), old(StreamedCell(i, j)));
      }
    }

    /** A node whose populations are the relaxation of a cell that carried the node's fields
      towards their equilibrium carries the fields too. */
    lemma NodeCollision(i: int, j: int, c: Cell)
      requires Valid() && InGrid(i, j)
      requires Density(c) == rho[i, j]
      requires MomentumX(c) == MomentumOf(rho[i, j], u[i, j]) && MomentumY(c) == MomentumOf(rho[i, j], v[i, j])
      requires CellAt(i, j) == RelaxCell(c, EquilibriumCell(rho[i, j], u[i, j], v[i, j]), omega)
      ensures Carries(i, j)
    {
      CollisionConserves(c, rho[i, j], u[i, j], v[i, j], omega, CellAt(i, j));
    }

    /** update_hydro, update_feq and collide_particles on the streamed populations: the fields are
      recovered from them, the populations relax towards the equilibrium of those fields, and
      Consistent holds afterwards. */
    method Relaxation()
      requires Valid() && HydroDefined()
      modifies f, feq, rho, u, v
      ensures forall i, j :: InGrid(i, j) ==>
        rho[i, j] == RecoveredRho(i, lx, old(CellAt(i, j)), inletRho, outletRho)
        && u[i, j] == RecoveredU(i, j, lx, ly, obstacle[i, j], old(CellAt(i, j)), inletRho, outletRho)
        && v[i, j] == RecoveredV(j, ly, obstacle[i, j], old(CellAt(i, j)))
      ensures forall i, j :: InGrid(i, j) ==>
        CellAt(i, j) == RelaxCell(old(CellAt(i, j)), EquilibriumCell(rho[i, j], u[i, j], v[i, j]), omega)
      ensures Consistent()
    {
      UpdateHydro();
      forall i, j | 0 < i < lx && 0 < j < ly && !obstacle[i, j]
        ensures Carries(i, j)
      {
        RecoveredFieldsAreMoments(i, j, lx, ly, CellAt(i, j), inletRho, outletRho, rho[i, j], u[i, j], v[i, j]);
      }
      UpdateFeq();
      CollideParticles();
      forall i, j | InGrid(i, j)
        ensures CellAt(i, j) == RelaxCell(old(CellAt(i, j)), EquilibriumCell(rho[i, j], u[i, j], v[i, j]), omega)
      {
        CellExtensionality(CellAt(i, j), RelaxCell(old(CellAt(i, j)), EquilibriumCell(rho[i, j], u[i, j], v[i, j]), omega));
      }
    }

    /** s has the shape of this grid. */
    ghost predicate Shaped(s: Snapshot)
    {
      IsGrid(s.f, lx, ly) && IsGrid(s.feq, lx, ly) && IsGrid(s.rho, lx, ly)
      && IsGrid(s.u, lx, ly) && IsGrid(s.v, lx, ly) && IsGrid(s.mask, lx, ly)
    }

    /** The nine equilibrium populations of node (i, j). */
    function FeqAt(i: int, j: int): (c: Cell)
      reads feq
      requires Valid() && InGrid(i, j)
      ensures forall k :: 0 <= k < NumJumpers ==> c.At(k) == feq[k, i, j]
    {
      Cell(feq[0, i, j], feq[1, i, j], feq[2, i, j], feq[3, i, j], feq[4, i, j],
           feq[5, i, j], feq[6, i, j], feq[7, i, j], feq[8, i, j])
    }

    /** The current state of the arrays as a value. */
    ghost function Snap(): (s: Snapshot)
      reads f, feq, rho, u, v, obstacle
      requires Valid()
      ensures Shaped(s)
      ensures forall i, j :: InGrid(i, j) ==>
        s.f[i][j] == CellAt(i, j) && s.feq[i][j] == FeqAt(i, j) && s.rho[i][j] == rho[i, j]
        && s.u[i][j] == u[i, j] && s.v[i][j] == v[i, j] && s.mask[i][j] == obstacle[i, j]
    {
      Snapshot(seq(lx + 1, i requires 0 <= i <= lx reads f => seq(ly + 1, j requires 0 <= j <= ly reads f => CellAt(i, j))),
               seq(lx + 1, i requires 0 <= i <= lx reads feq => seq(ly + 1, j requires 0 <= j <= ly reads feq => FeqAt(i, j))),
               seq(lx + 1, i requires 0 <= i <= lx reads rho => seq(ly + 1, j requires 0 <= j <= ly reads rho => rho[i, j])),
               seq(lx + 1, i requires 0 <= i <= lx reads u => seq(ly + 1, j requires 0 <= j <= ly reads u => u[i, j])),
               seq(lx + 1, i requires 0 <= i <= lx reads v => seq(ly + 1, j requires 0 <= j <= ly reads v => v[i, j])),
               seq(lx + 1, i requires 0 <= i <= lx reads obstacle =>
                 seq(ly + 1, j requires 0 <= j <= ly reads obstacle => obstacle[i, j])))
    }

    /** Node (i, j) of snapshot s after move_bcs. */
    ghost function BcsIn(s: Snapshot, i: int, j: int): Cell
      requires Valid() && Shaped(s) && InGrid(i, j)
    {
      BcsRule(i, j, s.f[i][j], s.u[i][j], s.mask[i][j])
    }

    /** Population k of node (i, j) of snapshot s after move_bcs and move. */
    ghost function StreamedIn(s: Snapshot, k: int, i: int, j: int): real
      requires Valid() && Shaped(s) && 0 <= k < NumJumpers && InGrid(i, j)
    {
      if Streams(k, i, j, lx, ly) then BcsIn(s, i - Cx(k), j - Cy(k)).At(k) else BcsIn(s, i, j).At(k)
    }

    ghost function StreamedCellIn(s: Snapshot, i: int, j: int): Cell
      requires Valid() && Shaped(s) && InGrid(i, j)
    {
      Cell(StreamedIn(s, 0, i, j), StreamedIn(s, 1, i, j), StreamedIn(s, 2, i, j), StreamedIn(s, 3, i, j),
           StreamedIn(s, 4, i, j), StreamedIn(s, 5, i, j), StreamedIn(s, 6, i, j), StreamedIn(s, 7, i, j),
           StreamedIn(s, 8, i, j))
    }

    /** A step from s has a value in real arithmetic: no population sum update_hydro divides by
      is zero. */
    ghost predicate StepDefinedIn(s: Snapshot)
      requires Valid() && Shaped(s)
    {
      forall i, j :: InGrid(i, j) && DividesByDensity(j, ly, s.mask[i][j]) ==> Density(StreamedCellIn(s, i, j)) != 0.0
    }

    /** The fields update_hydro recovers at node (i, j) from the streamed populations of s. */
    ghost function NextRho(s: Snapshot, i: int, j: int): real
      requires Valid() && Shaped(s) && InGrid(i, j)
    {
      RecoveredRho(i, lx, StreamedCellIn(s, i, j), inletRho, outletRho)
    }

    ghost function NextU(s: Snapshot, i: int, j: int): real
      requires Valid() && Shaped(s) && StepDefinedIn(s) && InGrid(i, j)
    {
      RecoveredU(i, j, lx, ly, s.mask[i][j], StreamedCellIn(s, i, j), inletRho, outletRho)
    }

    ghost function NextV(s: Snapshot, i: int, j: int): real
      requires Valid() && Shaped(s) && StepDefinedIn(s) && InGrid(i, j)
    {
      RecoveredV(j, ly, s.mask[i][j], StreamedCellIn(s, i, j))
    }

    /** The equilibrium update_feq builds at node (i, j) from those fields. */
    ghost function NextFeq(s: Snapshot, i: int, j: int): Cell
      requires Valid() && Shaped(s) && StepDefinedIn(s) && InGrid(i, j)
    {
      EquilibriumCell(NextRho(s, i, j), NextU(s, i, j), NextV(s, i, j))
    }

    /** The populations collide_particles leaves at node (i, j). */
    ghost function NextF(s: Snapshot, i: int, j: int): Cell
      requires Valid() && Shaped(s) && StepDefinedIn(s) && InGrid(i, j)
    {
      RelaxCell(StreamedCellIn(s, i, j), NextFeq(s, i, j), omega)
    }

    /** One iteration of run on a snapshot, node by node. */
    ghost function Next(s: Snapshot): (t: Snapshot)
      requires Valid() && Shaped(s) && StepDefinedIn(s)
      ensures Shaped(t) && t.mask == s.mask
      ensures forall i, j :: InGrid(i, j) ==>
        t.f[i][j] == NextF(s, i, j) && t.feq[i][j] == NextFeq(s, i, j) && t.rho[i][j] == NextRho(s, i, j)
        && t.u[i][j] == NextU(s, i, j) && t.v[i][j] == NextV(s, i, j)
    {
      Snapshot(seq(lx + 1, i requires 0 <= i <= lx => seq(ly + 1, j requires 0 <= j <= ly => NextF(s, i, j))),
               seq(lx + 1, i requires 0 <= i <= lx => seq(ly + 1, j requires 0 <= j <= ly => NextFeq(s, i, j))),
               seq(lx + 1, i requires 0 <= i <= lx => seq(ly + 1, j requires 0 <= j <= ly => NextRho(s, i, j))),
               seq(lx + 1, i requires 0 <= i <= lx => seq(ly + 1, j requires 0 <= j <= ly => NextU(s, i, j))),
               seq(lx + 1, i requires 0 <= i <= lx => seq(ly + 1, j requires 0 <= j <= ly => NextV(s, i, j))),
               s.mask)
    }

    /** Whether a step from t has a value. */
    ghost function Defined(): Snapshot -> bool
    {
      t => Valid() && Shaped(t) && StepDefinedIn(t)
    }

    /** One iteration of run, as a function on the snapshots where it is defined. */
    ghost function Stepper(): (g: Snapshot --> Snapshot)
      ensures forall t :: Defined()(t) ==> g.requires(t)
    {
      t requires Valid() && Shaped(t) && StepDefinedIn(t) => Next(t)
    }

    /** The snapshots run passes through from s in at most n steps. */
    ghost function Trajectory(s: Snapshot, n: nat): seq<Snapshot>
    {
      Orbit(s, n, Defined(), Stepper())
    }

    /** The array view and the snapshot view of move_bcs followed by move agree. */
    lemma SnapStreamed(i: int, j: int)
      requires Valid() && InGrid(i, j)
      ensures StreamedCell(i, j) == StreamedCellIn(Snap(), i, j)
    {
      var s := Snap();
      forall k | 0 <= k < NumJumpers
        ensures Streamed(k, i, j) == StreamedIn(s, k, i, j)
      {
        if Streams(k, i, j, lx, ly) {
          StreamsFromInside(k, i, j, lx, ly);
        }
      }
      CellExtensionality(StreamedCell(i, j), StreamedCellIn(s, i, j));
    }

    lemma StepDefinedSnap()
      requires Valid()
      ensures StepDefined() <==> StepDefinedIn(Snap())
      ensures StepDefined() <==> Defined()(Snap())
    {
      forall i, j | InGrid(i, j)
        ensures StreamedCell(i, j) == StreamedCellIn(Snap(), i, j)
      {
        SnapStreamed(i, j);
      }
    }

    /** Arrays holding the fields recovered from the streamed populations of s, their equilibrium
      and the relaxed populations hold the snapshot Next(s). */
    lemma SnapIsNext(s: Snapshot)
      requires Valid() && Shaped(s) && StepDefinedIn(s)
      requires forall i, j :: InGrid(i, j) ==> s.mask[i][j] == obstacle[i, j]
      requires forall i, j :: InGrid(i, j) ==>
        rho[i, j] == NextRho(s, i, j) && u[i, j] == NextU(s, i, j) && v[i, j] == NextV(s, i, j)
      requires forall i, j :: InGrid(i, j) ==>
        CellAt(i, j) == RelaxCell(StreamedCellIn(s, i, j), EquilibriumCell(rho[i, j], u[i, j], v[i, j]), omega)
      requires forall k, i, j :: 0 <= k < NumJumpers && InGrid(i, j) ==>
        feq[k, i, j] == Equilibrium(k, rho[i, j], u[i, j], v[i, j])
      ensures Snap() == Next(s)
    {
      var now, t := Snap(), Next(s);
      forall i, j | InGrid(i, j)
        ensures now.feq[i][j] == t.feq[i][j]
      {
        CellExtensionality(FeqAt(i, j), EquilibriumCell(rho[i, j], u[i, j], v[i, j]));
      }
      GridsEqual(now.f, t.f, lx, ly);
      GridsEqual(now.feq, t.feq, lx, ly);
      GridsEqual(now.rho, t.rho, lx, ly);
      GridsEqual(now.u, t.u, lx, ly);
      GridsEqual(now.v, t.v, lx, ly);
      GridsEqual(now.mask, t.mask, lx, ly);
    }

    /** One iteration of run (python_dim.py:291-297): move_bcs, move, update_hydro, update_feq,
      collide_particles. The new fields are those recovered from the streamed populations, the
      new populations their relaxation towards the new equilibrium, and Consistent holds. */
    method Step()
      requires Valid() && StepDefined()
      modifies f, feq, rho, u, v
      ensures forall i, j :: InGrid(i, j) ==>
        rho[i, j] == RecoveredRho(i, lx, old(StreamedCell(i, j)), inletRho, outletRho)
        && u[i, j] == RecoveredU(i, j, lx, ly, obstacle[i, j], old(StreamedCell(i, j)), inletRho, outletRho)
        && v[i, j] == RecoveredV(j, ly, obstacle[i, j], old(StreamedCell(i, j)))
      ensures forall i, j :: InGrid(i, j) ==>
        CellAt(i, j) == RelaxCell(old(StreamedCell(i, j)), EquilibriumCell(rho[i, j], u[i, j], v[i, j]), omega)
      ensures Consistent()
      ensures StepDefinedIn(old(Snap())) && Snap() == Next(old(Snap()))
    {
      StepDefinedSnap();
      ghost var s0 := Snap();
      forall i, j | InGrid(i, j)
        ensures StreamedCell(i, j) == StreamedCellIn(s0, i, j)
      {
        SnapStreamed(i, j);
      }
      Propagate();
      Relaxation();
      SnapIsNext(s0);
    }

    /** Step seen on snapshots: the arrays move from the snapshot they held to its successor. */
    method Advance() returns (ghost before: Snapshot, ghost after: Snapshot)
      requires Valid() && StepDefined()
      modifies f, feq, rho, u, v
      ensures before == old(Snap()) && after == Snap()
      ensures Defined()(before) && after == Stepper()(before)
      ensures Consistent()
    {
      before := Snap();
      Step();
      after := Snap();
    }

    /** run (python_dim.py:291-297): up to n steps. A step whose update_hydro would divide by a zero
      population sum has no value in real arithmetic, so the run stops before it. The run passes
      through the trajectory of the old state and ends at its last snapshot. */
    method Run(n: nat) returns (steps: nat)
      requires Valid()
      modifies f, feq, rho, u, v
      ensures steps + 1 == |Trajectory(old(Snap()), n)|
      ensures Snap() == Trajectory(old(Snap()), n)[steps]
      ensures steps <= n
      ensures steps < n ==> !StepDefined()
      ensures steps > 0 || old(Consistent()) ==> Consistent()
    {
      ghost var s0 := Snap();
      ghost var trace := Trajectory(s0, n);
      steps := 0;
      while steps < n && StepDefined()
        invariant steps <= n && steps < |trace| && trace[steps] == Snap()
        invariant steps > 0 || old(Consistent()) ==> Consistent()
      {
        ghost var before, after := Advance();
        OrbitContinues(s0, n, Defined(), Stepper(), steps);
        steps := steps + 1;
      }
      StepDefinedSnap();
      OrbitEnds(s0, n, Defined(), Stepper(), steps);
    }

    /** __init__ after the unit derivation (python_dim.py:99-113, 115-126, 273-282, 364-367): the
      obstacle mask, the density profile init_hydro writes, zero velocity, feq its equilibrium and
      f a copy of feq. The state is Coherent, and Consistent exactly when the inlet and outlet
      densities agree, since the profile misses the outlet density otherwise. */
    constructor (lx: int, ly: int, omega: real, inletRho: real, outletRho: real, mask: array2<bool>)
      requires 1 <= lx && 1 <= ly && inletRho > 0.0 && outletRho > 0.0 && StableRelaxation(omega)
      requires mask.Length0 == lx + 1 && mask.Length1 == ly + 1
      ensures Valid() && Coherent() && (Consistent() <==> inletRho == outletRho)
      ensures this.lx == lx && this.ly == ly && this.omega == omega
      ensures this.inletRho == inletRho && this.outletRho == outletRho
      ensures fresh(f) && fresh(feq) && fresh(rho) && fresh(u) && fresh(v) && fresh(obstacle)
      ensures forall i, j :: InGrid(i, j) ==>
        obstacle[i, j] == mask[i, j] && rho[i, j] == InitialDensityAsWritten(i, lx, inletRho, outletRho)
        && u[i, j] == 0.0 && v[i, j] == 0.0
      ensures forall k, i, j :: 0 <= k < NumJumpers && InGrid(i, j) ==>
        feq[k, i, j] == Weight(k) * rho[i, j] && f[k, i, j] == feq[k, i, j]
    {
      var m := CopyMask(mask);
      this.lx, this.ly, this.omega := lx, ly, omega;
      this.inletRho, this.outletRho := inletRho, outletRho;
      f := new real[NumJumpers, lx + 1, ly + 1];
      feq := new real[NumJumpers, lx + 1, ly + 1];
      rho := new real[lx + 1, ly + 1];
      u := new real[lx + 1, ly + 1];
      v := new real[lx + 1, ly + 1];
      obstacle := m;
      new;
      InitHydro();
      UpdateFeq();
      InitPop();
      InitialStateConsistent();
      RestEquilibrium();
    }

    /** A private copy of the obstacle mask. */
    static method CopyMask(mask: array2<bool>) returns (m: array2<bool>)
      ensures fresh(m) && m.Length0 == mask.Length0 && m.Length1 == mask.Length1
      ensures forall i, j :: 0 <= i < m.Length0 && 0 <= j < m.Length1 ==> m[i, j] == mask[i, j]
    {
      m := new bool[mask.Length0, mask.Length1];
      forall i, j | 0 <= i < m.Length0 && 0 <= j < m.Length1 {
        m[i, j] := mask[i, j];
      }
    }

    /** init_hydro with the obstacle override of the cylinder variant (python_dim.py:115-126,
      364-367): ones everywhere, the inlet and outlet columns, then the column-by-column profile
      over all nx columns, which overwrites both, and no velocity. */
    method InitHydro()
      requires Valid()
      modifies rho, u, v
      ensures forall i, j :: InGrid(i, j) ==>
        rho[i, j] == InitialDensityAsWritten(i, lx, inletRho, outletRho) && u[i, j] == 0.0 && v[i, j] == 0.0
    {
      forall i, j | 0 <= i <= lx && 0 <= j <= ly {
        rho[i, j] := 1.0;
      }
      forall j | 0 <= j <= ly {
        rho[0, j] := inletRho;
      }
      forall j | 0 <= j <= ly {
        rho[lx, j] := outletRho;
      }
      var i := 0;
      while i <= lx
        invariant 0 <= i <= lx + 1
        invariant forall x, y :: 0 <= x < i && 0 <= y <= ly ==>
          rho[x, y] == InitialDensityAsWritten(x, lx, inletRho, outletRho)
      {
        forall j | 0 <= j <= ly {
          rho[i, j] := InitialDensityAsWritten(i, lx, inletRho, outletRho);
        }
        i := i + 1;
      }
      forall i, j | 0 <= i <= lx && 0 <= j <= ly {
        u[i, j] := 0.0;
      }
      forall i, j | 0 <= i <= lx && 0 <= j <= ly {
        v[i, j] := 0.0;
      }
      forall i, j | 0 <= i <= lx && 0 <= j <= ly && obstacle[i, j] {
        u[i, j] := 0.0;
      }
      forall i, j | 0 <= i <= lx && 0 <= j <= ly && obstacle[i, j] {
        v[i, j] := 0.0;
      }
    }

    /** init_pop without its random perturbation (python_dim.py:273-282): f is a copy of feq. */
    method InitPop()
      requires Valid()
      modifies f
      ensures forall k, i, j :: 0 <= k < NumJumpers && InGrid(i, j) ==> f[k, i, j] == feq[k, i, j]
    {
      forall k, i, j | 0 <= k < NumJumpers && 0 <= i <= lx && 0 <= j <= ly {
        f[k, i, j] := feq[k, i, j];
      }
    }

    /** A state at rest whose inlet column holds the inlet density, with feq its equilibrium and
      f a copy of feq, is Coherent: every population is the equilibrium of its node's fields. */
    lemma RestStateCoherent()
      requires Valid()
      requires forall j :: 0 <= j <= ly ==> rho[0, j] == inletRho
      requires forall i, j :: InGrid(i, j) ==> u[i, j] == 0.0 && v[i, j] == 0.0
      requires forall k, i, j :: 0 <= k < NumJumpers && InGrid(i, j) ==>
        feq[k, i, j] == Equilibrium(k, rho[i, j], u[i, j], v[i, j])
      requires forall k, i, j :: 0 <= k < NumJumpers && InGrid(i, j) ==> f[k, i, j] == feq[k, i, j]
      ensures Coherent()
    {
      forall i, j | 0 < i < lx && 0 < j < ly && !obstacle[i, j]
        ensures Carries(i, j)
      {
        EquilibriumNodeCarries(i, j);
      }
    }

    /** The initial state __init__ builds from the profile init_hydro writes is Coherent, and
      Consistent exactly when the inlet and outlet densities agree: otherwise column lx starts
      off the outlet density. */
    lemma InitialStateConsistent()
      requires Valid()
      requires forall i, j :: InGrid(i, j) ==>
        rho[i, j] == InitialDensityAsWritten(i, lx, inletRho, outletRho) && u[i, j] == 0.0 && v[i, j] == 0.0
      requires forall k, i, j :: 0 <= k < NumJumpers && InGrid(i, j) ==>
        feq[k, i, j] == Equilibrium(k, rho[i, j], u[i, j], v[i, j])
      requires forall k, i, j :: 0 <= k < NumJumpers && InGrid(i, j) ==> f[k, i, j] == feq[k, i, j]
      ensures Coherent()
      ensures Consistent() <==> inletRho == outletRho
    {
      assert forall j :: 0 <= j <= ly ==> rho[0, j] == inletRho;
      RestStateCoherent();
      if inletRho == outletRho {
        assert forall j :: 0 <= j <= ly ==> rho[lx, j] == outletRho;
      } else {
        InitialOutletMissed(lx, inletRho, outletRho);
        assert rho[lx, 0] != outletRho;
      }
    }

    /** Started from the linear profile instead, the initial state is Consistent whatever the two
      densities. */
    lemma CorrectedStartConsistent()
      requires Valid()
      requires forall i, j :: InGrid(i, j) ==>
        rho[i, j] == InitialDensity(i, lx, inletRho, outletRho) && u[i, j] == 0.0 && v[i, j] == 0.0
      requires forall k, i, j :: 0 <= k < NumJumpers && InGrid(i, j) ==>
        feq[k, i, j] == Equilibrium(k, rho[i, j], u[i, j], v[i, j])
      requires forall k, i, j :: 0 <= k < NumJumpers && InGrid(i, j) ==> f[k, i, j] == feq[k, i, j]
      ensures Consistent()
    {
      assert forall j :: 0 <= j <= ly ==> rho[0, j] == inletRho && rho[lx, j] == outletRho;
      RestStateCoherent();
    }

    /** With the fluid at rest every equilibrium population is its weight times the density
      (python_dim.py:147-155 with u = v = 0). */
    lemma RestEquilibrium()
      requires Valid()
      requires forall i, j :: InGrid(i, j) ==> u[i, j] == 0.0 && v[i, j] == 0.0
      requires forall k, i, j :: 0 <= k < NumJumpers && InGrid(i, j) ==>
        feq[k, i, j] == Equilibrium(k, rho[i, j], u[i, j], v[i, j])
      ensures forall k, i, j :: 0 <= k < NumJumpers && InGrid(i, j) ==> feq[k, i, j] == Weight(k) * rho[i, j]
    {
      forall k, i, j | 0 <= k < NumJumpers && InGrid(i, j)
        ensures feq[k, i, j] == Weight(k) * rho[i, j]
      {
        var e := Equilibrium(k, rho[i, j], u[i, j], v[i, j]);
        assert e == Weight(k) * rho[i, j];
      }
    }

    /** A node whose populations are the equilibrium of its own fields carries those fields. */
    lemma EquilibriumNodeCarries(i: int, j: int)
      requires Valid() && InGrid(i, j)
      requires forall k :: 0 <= k < NumJumpers ==> f[k, i, j] == Equilibrium(k, rho[i, j], u[i, j], v[i, j])
      ensures Carries(i, j)
    {
      CellExtensionality(CellAt(i, j), EquilibriumCell(rho[i, j], u[i, j], v[i, j]));
      EquilibriumMoments(rho[i, j], u[i, j], v[i, j]);
    }

    /** The constructor behind the stability assertion of __init__ (python_dim.py:99): a relaxation
      frequency of 2 or more is refused; otherwise the new simulation is the one the constructor
      builds from the arguments. */
    static method Create(lx: int, ly: int, omega: real, inletRho: real, outletRho: real, mask: array2<bool>)
      returns (r: Result<PipeFlow>)
      requires 1 <= lx && 1 <= ly && inletRho > 0.0 && outletRho > 0.0
      requires mask.Length0 == lx + 1 && mask.Length1 == ly + 1
      ensures r.Err? <==> !StableRelaxation(omega)
      ensures r.Err? ==> r.error == UnstableRelaxation(omega)
      ensures r.Ok? ==> fresh(r.value) && r.value.Valid() && r.value.omega == omega
      ensures r.Ok? ==> r.value.Coherent() && (r.value.Consistent() <==> inletRho == outletRho)
      ensures r.Ok? ==> r.value.lx == lx && r.value.ly == ly
      ensures r.Ok? ==> r.value.inletRho == inletRho && r.value.outletRho == outletRho
      ensures r.Ok? ==> forall i, j :: 0 <= i <= lx && 0 <= j <= ly ==>
        r.value.obstacle[i, j] == mask[i, j]
        && r.value.rho[i, j] == InitialDensityAsWritten(i, lx, inletRho, outletRho)
        && r.value.u[i, j] == 0.0 && r.value.v[i, j] == 0.0
      ensures r.Ok? ==> forall k, i, j :: 0 <= k < NumJumpers && 0 <= i <= lx && 0 <= j <= ly ==>
        r.value.feq[k, i, j] == Weight(k) * r.value.rho[i, j] && r.value.f[k, i, j] == r.value.feq[k, i, j]
    {
      if !StableRelaxation(omega) {
        return Err(UnstableRelaxation(omega));
      }
      var flow := new PipeFlow(lx, ly, omega, inletRho, outletRho, mask);
      r := Ok(flow);
    }
  }
}
