/** The integer bookkeeping of the OpenCL Poisson solver (LB_D2Q9/poisson/solver.py): rounding the
    global work size up to a multiple of the work-group size, the relaxation frequency check, and
    the iteration counter that run and update_source maintain. The kernels themselves, and the
    reductions behind the convergence test, run on the device; the test is a parameter here. */
module Poisson {
  import opened D2Q9

  /** A multiple of b leaves no remainder. */
  lemma MultipleHasNoRemainder(k: int, b: int)
    requires b != 0
    ensures (k * b) % b == 0
  {
    var m := k * b;
    var e := k - m / b;
    assert m == (m / b) * b + m % b;
    assert m % b == e * b;
  }

  /** Python's integer remainder: it takes the sign of the divisor, where Dafny's is never
      negative. */
  function PyMod(a: int, b: int): (r: int)
    requires b != 0
    ensures b > 0 ==> 0 <= r < b
    ensures b < 0 ==> b < r <= 0
    ensures (a - r) % b == 0
    ensures r == 0 <==> a % b == 0
  {
    var q := a / b;
    assert a - a % b == q * b;
    assert a - (a % b + b) == (q - 1) * b;
    MultipleHasNoRemainder(q, b);
    MultipleHasNoRemainder(q - 1, b);
    if b > 0 || a % b == 0 then a % b else a % b + b
  }

  /** The value get_divisible_global produces for one axis (solver.py:49-53). For a positive
      work-group size it is the first multiple of it at or above the global size; a global size
      that is already a multiple comes back unchanged. */
  function RoundUp(globalSize: int, localSize: int): (r: int)
    requires localSize != 0
    ensures r % localSize == 0
    ensures localSize > 0 ==> globalSize <= r < globalSize + localSize
    ensures localSize < 0 ==> globalSize + localSize < r <= globalSize
    ensures globalSize % localSize == 0 ==> r == globalSize
  {
    var remainder := PyMod(globalSize, localSize);
    var q := (globalSize - remainder) / localSize;
    assert globalSize - remainder == q * localSize;
    assert globalSize + localSize - remainder == (q + 1) * localSize;
    MultipleHasNoRemainder(q + 1, localSize);
    if remainder == 0 then globalSize else globalSize + localSize - remainder
  }

  /** Two multiples of a positive l closer than l apart are ordered as their factors. */
  lemma MultiplesApart(p: int, q: int, l: int)
    requires l > 0 && p * l < q * l + l
    ensures p * l <= q * l
  {
    MulMonotone(q + 1, p, l);
    assert (q + 1) * l == q * l + l;
    MulMonotone(p, q, l);
  }

  lemma MulMonotone(a: int, b: int, l: int)
    requires l >= 0
    ensures a <= b ==> a * l <= b * l
  {
  }

  /** No smaller multiple of the work-group size covers the global size: RoundUp is the least. */
  lemma RoundUpIsLeast(globalSize: int, localSize: int, m: int)
    requires localSize > 0 && globalSize <= m && m % localSize == 0
    ensures RoundUp(globalSize, localSize) <= m
  {
    var r := RoundUp(globalSize, localSize);
    var p, q := r / localSize, m / localSize;
    assert r == p * localSize;
    assert m == q * localSize;
    MultiplesApart(p, q, localSize);
  }

  /** A global size along one axis: a Python int, or a numpy int32 scalar as __init__ makes nx and
      ny (solver.py:66-67). Their remainders differ only for a zero divisor, where Python raises
      ZeroDivisionError and numpy returns 0 with a warning. */
  datatype Extent = PyInt(size: int) | NpInt32(size: int)

  /** The number of axis pairs zip forms. */
  function Zipped<T>(globalSize: seq<T>, localSize: seq<int>): (n: nat)
    ensures n <= |globalSize| && n <= |localSize|
    ensures n == |globalSize| || n == |localSize|
  {
    if |globalSize| <= |localSize| then |globalSize| else |localSize|
  }

  /** Whether the remainder on axis a raises: a zero work-group size against a Python int. */
  predicate Raises(globalSize: seq<Extent>, localSize: seq<int>, a: int)
    requires 0 <= a < Zipped(globalSize, localSize)
  {
    localSize[a] == 0 && globalSize[a].PyInt?
  }

  /** get_divisible_global (solver.py:37-54): one entry per zipped axis, in axis order, each
      rounded up to its work-group size. A zero work-group size leaves a numpy global size as it
      is, since numpy's remainder by zero is 0, and makes the remainder of a Python int raise;
      the first such axis is reported. */
  method DivisibleGlobal(globalSize: seq<Extent>, localSize: seq<int>) returns (r: Result<seq<int>>)
    ensures r.Err? <==> exists a :: 0 <= a < Zipped(globalSize, localSize) && Raises(globalSize, localSize, a)
    ensures r.Err? ==>
      r.error.ZeroLocalSize? && r.error.axis < Zipped(globalSize, localSize) &&
      Raises(globalSize, localSize, r.error.axis) &&
      forall b :: 0 <= b < r.error.axis ==> !Raises(globalSize, localSize, b)
    ensures r.Ok? ==>
      |r.value| == Zipped(globalSize, localSize) &&
      forall a :: 0 <= a < |r.value| ==>
        r.value[a] == if localSize[a] == 0 then globalSize[a].size else RoundUp(globalSize[a].size, localSize[a])
  {
    var newSize: seq<int> := [];
    var n := Zipped(globalSize, localSize);
    var a := 0;
    while a < n
      invariant 0 <= a <= n && |newSize| == a
      invariant forall b :: 0 <= b < a ==> !Raises(globalSize, localSize, b)
      invariant forall b :: 0 <= b < a ==>
        newSize[b] == if localSize[b] == 0 then globalSize[b].size else RoundUp(globalSize[b].size, localSize[b])
    {
      var curGlobal, curLocal := globalSize[a], localSize[a];
      if curLocal == 0 && curGlobal.PyInt? {
        assert Raises(globalSize, localSize, a);
        return Err(ZeroLocalSize(a));
      }
      var remainder := if curLocal == 0 then 0 else PyMod(curGlobal.size, curLocal);
      if remainder == 0 {
        newSize := newSize + [curGlobal.size];
      } else {
        newSize := newSize + [curGlobal.size + curLocal - remainder];
      }
      a := a + 1;
    }
    return Ok(newSize);
  }

  /** The relaxation frequency set_D_and_omega derives from the lattice diffusivity D
      (solver.py:147), with cs^2 = 1/3 exact. A positive diffusivity always passes the omega < 2
      check of solver.py:150; a small negative one always fails it. */
  function DiffusionRelaxation(lbD: real): (omega: real)
    requires 0.5 + lbD / Cs2 != 0.0
    ensures lbD > 0.0 ==> 0.0 < omega && StableRelaxation(omega)
    ensures -Cs2 / 2.0 < lbD <= 0.0 ==> !StableRelaxation(omega)
  {
    var denominator := 0.5 + lbD / Cs2;
    assert lbD > 0.0 ==> denominator > 0.5;
    assert -Cs2 / 2.0 < lbD <= 0.0 ==> 0.0 < denominator <= 0.5;
    1.0 / denominator
  }

  /** Whether run stops after the step that brings the counter to `count`: the convergence test
      is skipped when the counter is 1 (solver.py:348) and stops the loop when it passes
      (solver.py:354-358). */
  predicate Stops(count: nat, converged: nat -> bool)
  {
    count != 1 && converged(count)
  }

  /** The number of steps run(n) performs when the counter starts at `start`: it runs until the
      first count in start + 1 .. start + n at which it stops, or all n steps. */
  function StepsTaken(start: nat, n: nat, converged: nat -> bool): (s: nat)
    ensures s <= n && (n > 0 ==> s >= 1)
    ensures forall c :: start < c < start + s ==> !Stops(c, converged)
    ensures s < n ==> Stops(start + s, converged)
    decreases n
  {
    if n == 0 then 0
    else if Stops(start + 1, converged) then 1
    else 1 + StepsTaken(start + 1, n - 1, converged)
  }

  /** Without a passing test anywhere in the range, run performs every one of the n steps. */
  lemma NoConvergenceRunsAll(start: nat, n: nat, converged: nat -> bool)
    requires forall c :: start < c <= start + n ==> !Stops(c, converged)
    ensures StepsTaken(start, n, converged) == n
  {
  }

  /** The test's answer when the counter is 1 never matters. */
  lemma {:induction false} FirstTestIgnored(start: nat, n: nat, c1: nat -> bool, c2: nat -> bool)
    requires forall c: nat :: c != 1 ==> c1(c) == c2(c)
    ensures StepsTaken(start, n, c1) == StepsTaken(start, n, c2)
    decreases n
  {
    if n > 0 {
      assert Stops(start + 1, c1) == Stops(start + 1, c2);
      FirstTestIgnored(start + 1, n - 1, c1, c2);
    }
  }

  /** Right after a reset the first step is never tested, so run(n) with n >= 2 performs at least
      two steps, even if the test would pass at once. The counter is 0 after the constructor and
      after UpdateSource, and PoissonSolver.Run adds StepsTaken of it. */
  lemma AfterResetTwoSteps(n: nat, converged: nat -> bool)
    requires n >= 2
    ensures StepsTaken(0, n, converged) >= 2
  {
  }

  /** Every source value multiplied by factor (solver.py:157-158). */
  function Scaled(sources: seq<real>, factor: real): (r: seq<real>)
    ensures |r| == |sources| && forall i :: 0 <= i < |r| ==> r[i] == sources[i] * factor
  {
    seq(|sources|, i requires 0 <= i < |sources| => sources[i] * factor)
  }

  /** The solver's host-side state: the work sizes, the relaxation constants, the sources and the
      iteration counter. The device fields and kernels are not part of this model. */
  class PoissonSolver {
    const nx: int
    const ny: int
    const lbD: real
    const deltaT: real
    const omega: real
    const twoDGlobal: seq<int>
    const threeDGlobal: seq<int>
    var inputSources: seq<real>
    var scaledSources: seq<real>
    var numIterations: nat

    /** The scaled sources are always the input sources times lb_D delta_t, and omega passed the
        stability check. */
    ghost predicate Valid()
      reads this
    {
      StableRelaxation(omega) && scaledSources == Scaled(inputSources, lbD * deltaT)
    }

    /** __init__ after its device setup (solver.py:62-141): init_hydro installs the sources through
        update_source and the counter ends at 0. */
    constructor (nx: int, ny: int, sources: seq<real>, lbD: real, deltaT: real, omega: real,
                 twoDGlobal: seq<int>, threeDGlobal: seq<int>)
      requires StableRelaxation(omega)
      ensures Valid()
      ensures this.nx == nx && this.ny == ny && this.lbD == lbD && this.deltaT == deltaT
      ensures this.omega == omega && this.twoDGlobal == twoDGlobal && this.threeDGlobal == threeDGlobal
      ensures inputSources == sources && scaledSources == Scaled(sources, lbD * deltaT)
      ensures numIterations == 0
    {
      this.nx, this.ny := nx, ny;
      this.lbD, this.deltaT, this.omega := lbD, deltaT, omega;
      this.twoDGlobal, this.threeDGlobal := twoDGlobal, threeDGlobal;
      new;
      UpdateSource(sources);
      numIterations := 0;
    }

    /** update_source (solver.py:152-161): installs a new source, scales it by lb_D delta_t and
        restarts the counter, keeping the density. */
    method UpdateSource(newSource: seq<real>)
      modifies this
      ensures Valid() == StableRelaxation(omega)
      ensures inputSources == newSource && scaledSources == Scaled(newSource, lbD * deltaT)
      ensures numIterations == 0
    {
      inputSources := newSource;
      scaledSources := Scaled(inputSources, lbD * deltaT);
      numIterations := 0;
    }

    /** run (solver.py:324-358): each completed step adds one to the counter; from the second
        count on, a passing convergence test ends the loop. converged(c) stands for the test
        after the step that brings the counter to c. */
    method Run(n: nat, converged: nat -> bool)
      requires Valid()
      modifies this
      ensures Valid()
      ensures numIterations == old(numIterations) + StepsTaken(old(numIterations), n, converged)
      ensures inputSources == old(inputSources) && scaledSources == old(scaledSources)
    {
      ghost var start := numIterations;
      var curIteration := 0;
      while curIteration < n
        invariant 0 <= curIteration <= n
        invariant numIterations == start + curIteration
        invariant StepsTaken(start, n, converged) == curIteration + StepsTaken(numIterations, n - curIteration, converged)
        invariant inputSources == old(inputSources) && scaledSources == old(scaledSources)
      {
        numIterations := numIterations + 1;
        if numIterations != 1 && converged(numIterations) {
          break;
        }
        curIteration := curIteration + 1;
      }
    }

    /** __init__'s checks in their order: the omega that set_D_and_omega derives from lb_D
        (solver.py:146-150) first, then the two work-size roundings (solver.py:94-95). nx and ny
        are numpy int32 scalars, so only a zero work-group size on the third axis of the 3-d
        work size, whose global size is the Python int 9, can fail. */
    static method Create(nx: int, ny: int, sources: seq<real>, lbD: real, deltaT: real,
                         twoDLocal: seq<int>, threeDLocal: seq<int>) returns (r: Result<PoissonSolver>)
      ensures 0.5 + lbD / Cs2 == 0.0 ==> r == Err(DivergentRelaxation)
      ensures 0.5 + lbD / Cs2 != 0.0 && !StableRelaxation(DiffusionRelaxation(lbD)) ==>
        r == Err(UnstableRelaxation(DiffusionRelaxation(lbD)))
      ensures 0.5 + lbD / Cs2 != 0.0 && StableRelaxation(DiffusionRelaxation(lbD)) ==>
        (r.Err? <==> 2 < |threeDLocal| && threeDLocal[2] == 0)
      ensures 0.5 + lbD / Cs2 != 0.0 && StableRelaxation(DiffusionRelaxation(lbD)) && r.Err? ==>
        r.error == ZeroLocalSize(2)
      ensures r.Ok? ==>
        fresh(r.value) && r.value.Valid() && r.value.numIterations == 0 && r.value.inputSources == sources &&
        r.value.omega == DiffusionRelaxation(lbD) &&
        r.value.nx == nx && r.value.ny == ny && r.value.lbD == lbD && r.value.deltaT == deltaT &&
        r.value.scaledSources == Scaled(sources, lbD * deltaT) &&
        |r.value.twoDGlobal| == Zipped([nx, ny], twoDLocal) &&
        (forall a :: 0 <= a < |r.value.twoDGlobal| ==>
          r.value.twoDGlobal[a] == if twoDLocal[a] == 0 then [nx, ny][a] else RoundUp([nx, ny][a], twoDLocal[a])) &&
        |r.value.threeDGlobal| == Zipped([nx, ny, NumJumpers], threeDLocal) &&
        (forall a :: 0 <= a < |r.value.threeDGlobal| ==>
          r.value.threeDGlobal[a] ==
            if threeDLocal[a] == 0 then [nx, ny, NumJumpers][a] else RoundUp([nx, ny, NumJumpers][a], threeDLocal[a]))
    {
      if 0.5 + lbD / Cs2 == 0.0 {
        return Err(DivergentRelaxation);
      }
      var omega := DiffusionRelaxation(lbD);
      if !StableRelaxation(omega) {
        return Err(UnstableRelaxation(omega));
      }
      var twoD, threeD := [NpInt32(nx), NpInt32(ny)], [NpInt32(nx), NpInt32(ny), PyInt(NumJumpers)];
      var two := DivisibleGlobal(twoD, twoDLocal);
      assert forall a :: 0 <= a < Zipped(twoD, twoDLocal) ==> !Raises(twoD, twoDLocal, a);
      assert two.Ok?;
      var three := DivisibleGlobal(threeD, threeDLocal);
      assert forall a :: 0 <= a < Zipped(threeD, threeDLocal) ==>
        (Raises(threeD, threeDLocal, a) <==> a == 2 && threeDLocal[2] == 0);
      assert Zipped(threeD, threeDLocal) > 2 <==> 2 < |threeDLocal|;
      if three.Err? {
        return Err(three.error);
      }
      if 2 < |threeDLocal| {
        assert !Raises(threeD, threeDLocal, 2);
      }
      var solver := new PoissonSolver(nx, ny, sources, lbD, deltaT, omega, two.value, three.value);
      r := Ok(solver);
    }
  }
}
