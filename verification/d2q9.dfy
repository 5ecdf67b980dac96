/** The D2Q9 lattice descriptor: nine discrete velocities, their weights and the
    squared lattice sound speed, plus the nine populations of one lattice node and
    their density and momentum moments. */
module D2Q9 {

  /** Squared lattice sound speed cs² = (1/√3)² = 1/3 (computed in floating point by the source). */
  const Cs2: real := 1.0 / 3.0

  /** Weight of the rest population, of the four axis populations and of the four diagonal ones. */
  const W0: real := 4.0 / 9.0
  const W1: real := 1.0 / 9.0
  const W2: real := 1.0 / 36.0

  /** Number of populations per node. */
  const NumJumpers: nat := 9

  function Weight(k: int): real
    requires 0 <= k < NumJumpers
  {
    if k == 0 then W0 else if k <= 4 then W1 else W2
  }

  /** x component of the velocity of direction k. */
  function Cx(k: int): int
    requires 0 <= k < NumJumpers
  {
    match k
    case 1 => 1
    case 5 => 1
    case 8 => 1
    case 3 => -1
    case 6 => -1
    case 7 => -1
    case _ => 0
  }

  /** y component of the velocity of direction k. */
  function Cy(k: int): int
    requires 0 <= k < NumJumpers
  {
    match k
    case 2 => 1
    case 5 => 1
    case 6 => 1
    case 4 => -1
    case 7 => -1
    case 8 => -1
    case _ => 0
  }

  /** The direction a population is reflected into by bounce-back: 1<->3, 2<->4, 5<->7, 6<->8. */
  function Opposite(k: int): (o: int)
    requires 0 <= k < NumJumpers
    ensures 0 <= o < NumJumpers
    ensures Cx(o) == -Cx(k) && Cy(o) == -Cy(k)
    ensures Weight(o) == Weight(k)
  {
    match k
    case 1 => 3
    case 2 => 4
    case 3 => 1
    case 4 => 2
    case 5 => 7
    case 6 => 8
    case 7 => 5
    case 8 => 6
    case _ => 0
  }

  /** The populations f[0..8] of one node, i.e. the column f[:, x, y] of the population array. */
  datatype Cell = Cell(f0: real, f1: real, f2: real, f3: real, f4: real,
                       f5: real, f6: real, f7: real, f8: real)
  {
    /** Population of direction k. */
    function At(k: int): real
      requires 0 <= k < NumJumpers
    {
      match k
      case 0 => f0
      case 1 => f1
      case 2 => f2
      case 3 => f3
      case 4 => f4
      case 5 => f5
      case 6 => f6
      case 7 => f7
      case _ => f8
    }
  }

  /** Density: the sum of the nine populations. */
  function Density(c: Cell): real
  {
    c.f0 + c.f1 + c.f2 + c.f3 + c.f4 + c.f5 + c.f6 + c.f7 + c.f8
  }

  /** x momentum as the source writes it, f1 - f3 + f5 - f6 - f7 + f8. */
  function MomentumX(c: Cell): real
  {
    c.f1 - c.f3 + c.f5 - c.f6 - c.f7 + c.f8
  }

  /** y momentum as the source writes it, f5 + f2 + f6 - f7 - f4 - f8. */
  function MomentumY(c: Cell): real
  {
    c.f5 + c.f2 + c.f6 - c.f7 - c.f4 - c.f8
  }

  /** Momentum density along one axis of a node of density rho moving at velocity w. */
  function MomentumOf(rho: real, w: real): real
  {
    rho * w
  }

  /** The hand-expanded moments are the sums over the descriptor's table: density the plain sum,
      momentum the sums weighted by the velocity components. */
  lemma MomentsAreTableSums(c: Cell)
    ensures Density(c) == c.At(0) + c.At(1) + c.At(2) + c.At(3) + c.At(4)
                          + c.At(5) + c.At(6) + c.At(7) + c.At(8)
    ensures MomentumX(c) == (Cx(0) as real) * c.At(0) + (Cx(1) as real) * c.At(1) + (Cx(2) as real) * c.At(2)
                            + (Cx(3) as real) * c.At(3) + (Cx(4) as real) * c.At(4) + (Cx(5) as real) * c.At(5)
                            + (Cx(6) as real) * c.At(6) + (Cx(7) as real) * c.At(7) + (Cx(8) as real) * c.At(8)
    ensures MomentumY(c) == (Cy(0) as real) * c.At(0) + (Cy(1) as real) * c.At(1) + (Cy(2) as real) * c.At(2)
                            + (Cy(3) as real) * c.At(3) + (Cy(4) as real) * c.At(4) + (Cy(5) as real) * c.At(5)
                            + (Cy(6) as real) * c.At(6) + (Cy(7) as real) * c.At(7) + (Cy(8) as real) * c.At(8)
  {
  }

  /** x^e for an integer velocity component. */
  function Power(x: int, e: nat): real
  {
    if e == 0 then 1.0 else (x as real) * Power(x, e - 1)
  }

  /** The moment sum over the first n directions of the weight table,
      w_0 cx_0^a cy_0^b + ... + w_(n-1) cx_(n-1)^a cy_(n-1)^b. */
  function WeightMoment(n: nat, a: nat, b: nat): real
    requires n <= NumJumpers
  {
    if n == 0 then 0.0 else WeightMoment(n - 1, a, b) + Weight(n - 1) * Power(Cx(n - 1), a) * Power(Cy(n - 1), b)
  }

  /** The weights sum to one over the nine directions of the table and are symmetric under
      reflection. */
  lemma WeightsNormalised()
    ensures WeightMoment(NumJumpers, 0, 0) == 1.0
    ensures forall k :: 0 <= k < NumJumpers ==> Weight(Opposite(k)) == Weight(k)
  {
  }

  /** The first moments of the weights vanish: the lattice carries no net velocity. */
  lemma FirstMoments()
    ensures WeightMoment(NumJumpers, 1, 0) == 0.0 && WeightMoment(NumJumpers, 0, 1) == 0.0
  {
  }

  /** The second moment is cs² along each axis. */
  lemma SecondMoments()
    ensures WeightMoment(NumJumpers, 2, 0) == Cs2 && WeightMoment(NumJumpers, 0, 2) == Cs2
  {
  }

  /** The second moment has no cross term. */
  lemma MixedSecondMoment()
    ensures WeightMoment(NumJumpers, 1, 1) == 0.0
  {
  }

  /** The third moments along each axis vanish. */
  lemma ThirdMoments()
    ensures WeightMoment(NumJumpers, 3, 0) == 0.0 && WeightMoment(NumJumpers, 0, 3) == 0.0
  {
  }

  /** The mixed third moments vanish. */
  lemma MixedThirdMoments()
    ensures WeightMoment(NumJumpers, 2, 1) == 0.0 && WeightMoment(NumJumpers, 1, 2) == 0.0
  {
  }

  /** The fourth moment along each axis is 3 cs⁴. */
  lemma FourthMomentX()
    ensures WeightMoment(NumJumpers, 4, 0) == 3.0 * Cs2 * Cs2
  {
  }

  lemma FourthMomentY()
    ensures WeightMoment(NumJumpers, 0, 4) == 3.0 * Cs2 * Cs2
  {
  }

  /** The mixed fourth moment is cs⁴: with FourthMomentX and FourthMomentY, the isotropy the second-order
      equilibrium relies on. */
  lemma MixedFourthMoment()
    ensures WeightMoment(NumJumpers, 2, 2) == Cs2 * Cs2
  {
  }

  /** Why a simulation refuses to start: an unstable relaxation frequency, a relaxation frequency
      whose defining fraction has a zero denominator (numpy makes it infinite, which fails the
      same stability check), or a zero work-group size on an axis whose global size is a Python
      int, which makes the integer remainder raise. */
  datatype ConfigError = UnstableRelaxation(omega: real) | DivergentRelaxation | ZeroLocalSize(axis: nat)

  datatype Result<T> = Ok(value: T) | Err(error: ConfigError)

  /** BGK is unstable for omega >= 2; construction fails fast for such a value. */
  predicate StableRelaxation(omega: real)
  {
    omega < 2.0
  }
}
