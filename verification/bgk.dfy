/** Local equilibrium (update_feq) and BGK relaxation (collide_particles), node by node. */
module Bgk {
  import opened D2Q9

  /** 2 cs² */
  const Cs22: real := 2.0 * Cs2
  /** 2 cs⁴ = 2/9 */
  const Cssq: real := 2.0 / 9.0

  /** The intermediate fields update_feq computes once per step (python_dim.py:137-145):
      ul = u/cs², vl = v/cs², uv = ul vl, sumsq = |u|²/(2cs²), sumsq2 = sumsq (1 - cs²)/cs²,
      u2 = u²/(2cs⁴), v2 = v²/(2cs⁴). */
  datatype Intermediates = Intermediates(ul: real, vl: real, uv: real, sumsq: real, sumsq2: real,
                                         u2: real, v2: real)

  function IntermediatesOf(u: real, v: real): Intermediates
  {
    var ul := u / Cs2;
    var vl := v / Cs2;
    var sumsq := (u * u + v * v) / Cs22;
    Intermediates(ul, vl, ul * vl, sumsq, sumsq * (1.0 - Cs2) / Cs2, u * u / Cssq, v * v / Cssq)
  }

  /** Equilibrium population of direction k from the intermediate fields (python_dim.py:147-155). */
  function EquilibriumFrom(k: int, rho: real, m: Intermediates): real
    requires 0 <= k < NumJumpers
  {
    match k
    case 0 => W0 * rho * (1.0 - m.sumsq)
    case 1 => W1 * rho * (1.0 - m.sumsq + m.u2 + m.ul)
    case 2 => W1 * rho * (1.0 - m.sumsq + m.v2 + m.vl)
    case 3 => W1 * rho * (1.0 - m.sumsq + m.u2 - m.ul)
    case 4 => W1 * rho * (1.0 - m.sumsq + m.v2 - m.vl)
    case 5 => W2 * rho * (1.0 + m.sumsq2 + m.ul + m.vl + m.uv)
    case 6 => W2 * rho * (1.0 + m.sumsq2 - m.ul + m.vl - m.uv)
    case 7 => W2 * rho * (1.0 + m.sumsq2 - m.ul - m.vl + m.uv)
    case _ => W2 * rho * (1.0 + m.sumsq2 + m.ul - m.vl - m.uv)
  }

  /** Second-order equilibrium population of direction k for density rho and velocity (u, v),
      expanded as the source writes it. At rest it is the weighted density. */
  function Equilibrium(k: int, rho: real, u: real, v: real): (r: real)
    requires 0 <= k < NumJumpers
    ensures u == 0.0 && v == 0.0 ==> r == Weight(k) * rho
  {
    EquilibriumFrom(k, rho, IntermediatesOf(u, v))
  }

  /** The textbook equilibrium w_k rho (1 + c·u/cs² + (c·u)²/(2cs⁴) - |u|²/(2cs²)),
      built from the descriptor's velocity table. */
  function StandardEquilibrium(k: int, rho: real, u: real, v: real): real
    requires 0 <= k < NumJumpers
  {
    var cu := (Cx(k) as real) * u + (Cy(k) as real) * v;
    Weight(k) * rho * (1.0 + 3.0 * cu + 4.5 * cu * cu - 1.5 * (u * u + v * v))
  }

  /** The bracket of direction k with cs² = 1/3 substituted, as a linear form in u, v and the
      monomials uu = u², vv = v², uv = u v. */
  function Bracket(k: int, u: real, v: real, uu: real, vv: real, uv: real): real
    requires 0 <= k < NumJumpers
  {
    var a := 1.0 - 1.5 * (uu + vv);
    var b := 1.0 + 3.0 * (uu + vv);
    match k
    case 0 => a
    case 1 => a + 4.5 * uu + 3.0 * u
    case 2 => a + 4.5 * vv + 3.0 * v
    case 3 => a + 4.5 * uu - 3.0 * u
    case 4 => a + 4.5 * vv - 3.0 * v
    case 5 => b + 3.0 * u + 3.0 * v + 9.0 * uv
    case 6 => b - 3.0 * u + 3.0 * v - 9.0 * uv
    case 7 => b - 3.0 * u - 3.0 * v + 9.0 * uv
    case _ => b + 3.0 * u - 3.0 * v - 9.0 * uv
  }

  /** The intermediate fields in lattice units, cs² = 1/3: u/cs² = 3u, |u|²/(2cs²) = 1.5|u|², ... */
  function LatticeIntermediates(u: real, v: real, uu: real, vv: real, uv: real): Intermediates
  {
    Intermediates(3.0 * u, 3.0 * v, 9.0 * uv, 1.5 * (uu + vv), 3.0 * (uu + vv), 4.5 * uu, 4.5 * vv)
  }

  lemma IntermediatesInLatticeUnits(u: real, v: real)
    ensures IntermediatesOf(u, v) == LatticeIntermediates(u, v, u * u, v * v, u * v)
  {
    assert (3.0 * u) * (3.0 * v) == 9.0 * (u * v);
  }

  /** With the intermediate fields in lattice units, each source line is rho times the weight
      times the bracket. */
  lemma FromLatticeUnits(k: int, rho: real, u: real, v: real, uu: real, vv: real, uv: real)
    requires 0 <= k < NumJumpers
    ensures EquilibriumFrom(k, rho, LatticeIntermediates(u, v, uu, vv, uv))
            == rho * (Weight(k) * Bracket(k, u, v, uu, vv, uv))
  {
  }

  /** The source's equilibrium of direction k is rho times its weight times its bracket. */
  lemma EquilibriumBracket(k: int, rho: real, u: real, v: real)
    requires 0 <= k < NumJumpers
    ensures Equilibrium(k, rho, u, v) == rho * (Weight(k) * Bracket(k, u, v, u * u, v * v, u * v))
  {
    IntermediatesInLatticeUnits(u, v);
    FromLatticeUnits(k, rho, u, v, u * u, v * v, u * v);
  }

  /** The textbook equilibrium of direction k is rho times its weight times the same bracket. */
  lemma StandardBracket(k: int, rho: real, u: real, v: real)
    requires 0 <= k < NumJumpers
    ensures StandardEquilibrium(k, rho, u, v) == rho * (Weight(k) * Bracket(k, u, v, u * u, v * v, u * v))
  {
    var cu := (Cx(k) as real) * u + (Cy(k) as real) * v;
    var sq: real;
    match k
    case 0 => sq := 0.0;
    case 1 => sq := u * u;
    case 2 => sq := v * v;
    case 3 => sq := u * u; assert (-u) * (-u) == u * u;
    case 4 => sq := v * v; assert (-v) * (-v) == v * v;
    case 5 => sq := u * u + v * v + 2.0 * (u * v); assert (u + v) * (u + v) == sq;
    case 6 => sq := u * u + v * v - 2.0 * (u * v); assert (-u + v) * (-u + v) == sq;
    case 7 => sq := u * u + v * v + 2.0 * (u * v); assert (-u - v) * (-u - v) == sq;
    case 8 => sq := u * u + v * v - 2.0 * (u * v); assert (u - v) * (u - v) == sq;
    assert cu * cu == sq;
    assert 1.0 + 3.0 * cu + 4.5 * cu * cu - 1.5 * (u * u + v * v) == Bracket(k, u, v, u * u, v * v, u * v);
  }

  /** The source's hand-expanded formulas are the textbook equilibrium, direction by direction. */
  lemma EquilibriumIsStandard(k: int, rho: real, u: real, v: real)
    requires 0 <= k < NumJumpers
    ensures Equilibrium(k, rho, u, v) == StandardEquilibrium(k, rho, u, v)
  {
    EquilibriumBracket(k, rho, u, v);
    StandardBracket(k, rho, u, v);
  }

  /** The nine equilibrium populations of one node. */
  function EquilibriumCell(rho: real, u: real, v: real): (e: Cell)
    ensures forall k :: 0 <= k < NumJumpers ==> e.At(k) == Equilibrium(k, rho, u, v)
  {
    Cell(Equilibrium(0, rho, u, v), Equilibrium(1, rho, u, v), Equilibrium(2, rho, u, v),
         Equilibrium(3, rho, u, v), Equilibrium(4, rho, u, v), Equilibrium(5, rho, u, v),
         Equilibrium(6, rho, u, v), Equilibrium(7, rho, u, v), Equilibrium(8, rho, u, v))
  }

  /** The weighted sums of the nine brackets, with the monomials taken as unknowns:
      zeroth moment 1, first moments u and v. */
  lemma WeightedBrackets(u: real, v: real, uu: real, vv: real, uv: real)
    ensures Weight(0) * Bracket(0, u, v, uu, vv, uv) + Weight(1) * Bracket(1, u, v, uu, vv, uv)
            + Weight(2) * Bracket(2, u, v, uu, vv, uv) + Weight(3) * Bracket(3, u, v, uu, vv, uv)
            + Weight(4) * Bracket(4, u, v, uu, vv, uv) + Weight(5) * Bracket(5, u, v, uu, vv, uv)
            + Weight(6) * Bracket(6, u, v, uu, vv, uv) + Weight(7) * Bracket(7, u, v, uu, vv, uv)
            + Weight(8) * Bracket(8, u, v, uu, vv, uv) == 1.0
    ensures Weight(1) * Bracket(1, u, v, uu, vv, uv) - Weight(3) * Bracket(3, u, v, uu, vv, uv)
            + Weight(5) * Bracket(5, u, v, uu, vv, uv) - Weight(6) * Bracket(6, u, v, uu, vv, uv)
            - Weight(7) * Bracket(7, u, v, uu, vv, uv) + Weight(8) * Bracket(8, u, v, uu, vv, uv) == u
    ensures Weight(2) * Bracket(2, u, v, uu, vv, uv) - Weight(4) * Bracket(4, u, v, uu, vv, uv)
            + Weight(5) * Bracket(5, u, v, uu, vv, uv) + Weight(6) * Bracket(6, u, v, uu, vv, uv)
            - Weight(7) * Bracket(7, u, v, uu, vv, uv) - Weight(8) * Bracket(8, u, v, uu, vv, uv) == v
  {
  }

  /** Factoring a common factor out of nine terms. */
  lemma SumOfScaled(g: real, t0: real, t1: real, t2: real, t3: real, t4: real,
                    t5: real, t6: real, t7: real, t8: real)
    ensures g * t0 + g * t1 + g * t2 + g * t3 + g * t4 + g * t5 + g * t6 + g * t7 + g * t8
            == g * (t0 + t1 + t2 + t3 + t4 + t5 + t6 + t7 + t8)
  {
  }

  /** The equilibrium reproduces the moments it was built from: density rho and momentum
      (rho u, rho v), for every velocity. */
  lemma EquilibriumMoments(rho: real, u: real, v: real)
    ensures Density(EquilibriumCell(rho, u, v)) == rho
    ensures MomentumX(EquilibriumCell(rho, u, v)) == MomentumOf(rho, u)
    ensures MomentumY(EquilibriumCell(rho, u, v)) == MomentumOf(rho, v)
  {
    EquilibriumCellBracketed(rho, u, v);
    BracketedMoments(rho, u, v, u * u, v * v, u * v);
  }

  /** The node whose population of direction k is rho w_k times its bracket. */
  function BracketCell(rho: real, u: real, v: real, uu: real, vv: real, uv: real): (e: Cell)
    ensures forall k :: 0 <= k < NumJumpers ==> e.At(k) == rho * (Weight(k) * Bracket(k, u, v, uu, vv, uv))
  {
    Cell(rho * (Weight(0) * Bracket(0, u, v, uu, vv, uv)), rho * (Weight(1) * Bracket(1, u, v, uu, vv, uv)),
         rho * (Weight(2) * Bracket(2, u, v, uu, vv, uv)), rho * (Weight(3) * Bracket(3, u, v, uu, vv, uv)),
         rho * (Weight(4) * Bracket(4, u, v, uu, vv, uv)), rho * (Weight(5) * Bracket(5, u, v, uu, vv, uv)),
         rho * (Weight(6) * Bracket(6, u, v, uu, vv, uv)), rho * (Weight(7) * Bracket(7, u, v, uu, vv, uv)),
         rho * (Weight(8) * Bracket(8, u, v, uu, vv, uv)))
  }

  lemma EquilibriumCellBracketed(rho: real, u: real, v: real)
    ensures EquilibriumCell(rho, u, v) == BracketCell(rho, u, v, u * u, v * v, u * v)
  {
    var q, e := EquilibriumCell(rho, u, v), BracketCell(rho, u, v, u * u, v * v, u * v);
    forall k | 0 <= k < NumJumpers
      ensures q.At(k) == e.At(k)
    {
      EquilibriumBracket(k, rho, u, v);
    }
    CellExtensionality(q, e);
  }

  lemma CellExtensionality(a: Cell, b: Cell)
    requires forall k :: 0 <= k < NumJumpers ==> a.At(k) == b.At(k)
    ensures a == b
  {
    assert a.At(0) == b.At(0) && a.At(1) == b.At(1) && a.At(2) == b.At(2);
    assert a.At(3) == b.At(3) && a.At(4) == b.At(4) && a.At(5) == b.At(5);
    assert a.At(6) == b.At(6) && a.At(7) == b.At(7) && a.At(8) == b.At(8);
  }

  /** A node whose populations are rho times weight times bracket has density rho and
      momentum (rho u, rho v). */
  lemma BracketedMoments(rho: real, u: real, v: real, uu: real, vv: real, uv: real)
    ensures var e := BracketCell(rho, u, v, uu, vv, uv);
            Density(e) == rho && MomentumX(e) == rho * u && MomentumY(e) == rho * v
  {
    var t0, t1, t2 := Weight(0) * Bracket(0, u, v, uu, vv, uv), Weight(1) * Bracket(1, u, v, uu, vv, uv), Weight(2) * Bracket(2, u, v, uu, vv, uv);
    var t3, t4, t5 := Weight(3) * Bracket(3, u, v, uu, vv, uv), Weight(4) * Bracket(4, u, v, uu, vv, uv), Weight(5) * Bracket(5, u, v, uu, vv, uv);
    var t6, t7, t8 := Weight(6) * Bracket(6, u, v, uu, vv, uv), Weight(7) * Bracket(7, u, v, uu, vv, uv), Weight(8) * Bracket(8, u, v, uu, vv, uv);
    WeightedBrackets(u, v, uu, vv, uv);
    assert t0 + t1 + t2 + t3 + t4 + t5 + t6 + t7 + t8 == 1.0;
    assert 0.0 + t1 + 0.0 + -t3 + 0.0 + t5 + -t6 + -t7 + t8 == u;
    assert 0.0 + 0.0 + t2 + 0.0 + -t4 + t5 + t6 + -t7 + -t8 == v;
    SumOfScaled(rho, t0, t1, t2, t3, t4, t5, t6, t7, t8);
    SumOfScaled(rho, 0.0, t1, 0.0, -t3, 0.0, t5, -t6, -t7, t8);
    SumOfScaled(rho, 0.0, 0.0, t2, 0.0, -t4, t5, t6, -t7, -t8);
  }

  /** BGK relaxation of one population toward its equilibrium, f (1 - omega) + omega feq
      (python_dim.py:289): the departure from equilibrium is scaled by 1 - omega, so the
      equilibrium is a fixed point. */
  function Relax(x: real, e: real, omega: real): (r: real)
    ensures r - e == (1.0 - omega) * (x - e)
    ensures x == e ==> r == e
  {
    x * (1.0 - omega) + omega * e
  }

  function Abs(x: real): (r: real)
    ensures r >= 0.0 && (r == x || r == -x)
  {
    if x < 0.0 then -x else x
  }

  /** For 0 < omega < 2 relaxation strictly shrinks every departure from equilibrium. */
  lemma RelaxContracts(x: real, e: real, omega: real)
    requires 0.0 < omega < 2.0
    requires x != e
    ensures Abs(Relax(x, e, omega) - e) < Abs(x - e)
  {
    var d := x - e;
    var g := 1.0 - omega;
    assert Relax(x, e, omega) - e == g * d;
    ShrinkFactor(g, d);
  }

  /** A factor strictly between -1 and 1 strictly shrinks the magnitude of a nonzero value. */
  lemma ShrinkFactor(g: real, d: real)
    requires -1.0 < g < 1.0 && d != 0.0
    ensures Abs(g * d) < Abs(d)
  {
    if d > 0.0 {
      assert (1.0 - g) * d > 0.0 && (1.0 - g) * d == d - g * d;
      assert (1.0 + g) * d > 0.0 && (1.0 + g) * d == d + g * d;
    } else {
      assert (1.0 - g) * -d > 0.0 && (1.0 - g) * -d == g * d - d;
      assert (1.0 + g) * -d > 0.0 && (1.0 + g) * -d == -d - g * d;
    }
  }

  /** Relaxation of a whole node, population by population. */
  function RelaxCell(c: Cell, e: Cell, omega: real): (r: Cell)
    ensures forall k :: 0 <= k < NumJumpers ==> r.At(k) == Relax(c.At(k), e.At(k), omega)
  {
    Cell(Relax(c.f0, e.f0, omega), Relax(c.f1, e.f1, omega), Relax(c.f2, e.f2, omega),
         Relax(c.f3, e.f3, omega), Relax(c.f4, e.f4, omega), Relax(c.f5, e.f5, omega),
         Relax(c.f6, e.f6, omega), Relax(c.f7, e.f7, omega), Relax(c.f8, e.f8, omega))
  }

  /** Relaxing toward a target with the same density keeps the density. */
  lemma RelaxKeepsDensity(c: Cell, e: Cell, omega: real)
    requires Density(e) == Density(c)
    ensures Density(RelaxCell(c, e, omega)) == Density(c)
  {
    SumOfScaled(omega, c.f0, c.f1, c.f2, c.f3, c.f4, c.f5, c.f6, c.f7, c.f8);
    SumOfScaled(omega, e.f0, e.f1, e.f2, e.f3, e.f4, e.f5, e.f6, e.f7, e.f8);
    assert omega * Density(c) == omega * Density(e);
  }

  /** Relaxing toward a target with the same x momentum keeps the x momentum. */
  lemma RelaxKeepsMomentumX(c: Cell, e: Cell, omega: real)
    requires MomentumX(e) == MomentumX(c)
    ensures MomentumX(RelaxCell(c, e, omega)) == MomentumX(c)
  {
    SumOfScaled(omega, 0.0, c.f1, 0.0, -c.f3, 0.0, c.f5, -c.f6, -c.f7, c.f8);
    SumOfScaled(omega, 0.0, e.f1, 0.0, -e.f3, 0.0, e.f5, -e.f6, -e.f7, e.f8);
    assert omega * MomentumX(c) == omega * MomentumX(e);
  }

  /** Relaxing toward a target with the same y momentum keeps the y momentum. */
  lemma RelaxKeepsMomentumY(c: Cell, e: Cell, omega: real)
    requires MomentumY(e) == MomentumY(c)
    ensures MomentumY(RelaxCell(c, e, omega)) == MomentumY(c)
  {
    SumOfScaled(omega, 0.0, 0.0, c.f2, 0.0, -c.f4, c.f5, c.f6, -c.f7, -c.f8);
    SumOfScaled(omega, 0.0, 0.0, e.f2, 0.0, -e.f4, e.f5, e.f6, -e.f7, -e.f8);
    assert omega * MomentumY(c) == omega * MomentumY(e);
  }

  /** At a node whose density rho and velocity (u, v) are its own moments (rho = Σf and
      rho (u, v) = (jx, jy)), relaxing towards the equilibrium of those fields conserves mass
      and momentum. */
  lemma CollisionConserves(c: Cell, rho: real, u: real, v: real, omega: real, r: Cell)
    requires rho == Density(c)
    requires MomentumX(c) == MomentumOf(rho, u) && MomentumY(c) == MomentumOf(rho, v)
    requires r == RelaxCell(c, EquilibriumCell(rho, u, v), omega)
    ensures Density(r) == rho && MomentumX(r) == MomentumOf(rho, u) && MomentumY(r) == MomentumOf(rho, v)
  {
    var e := EquilibriumCell(rho, u, v);
    EquilibriumMoments(rho, u, v);
    RelaxKeepsDensity(c, e, omega);
    RelaxKeepsMomentumX(c, e, omega);
    RelaxKeepsMomentumY(c, e, omega);
  }
}
