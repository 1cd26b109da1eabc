/**
 * Configuration and driver of a Type-1 Mamdani fuzzy system that turns a
 * CPU usage and a memory usage (both on [0,10]) into a priority on [0,10].
 *
 * The fuzzy engine itself (trapezoid degrees, min-combination of the
 * antecedents, height and centroid defuzzification) is not part of this
 * model: it is the function `evaluate`, given to the system when it is
 * built, from the current CPU and memory inputs and a defuzzification
 * method id (0 = height, 1 = centroid) to the crisp priority.
 */
module FuzzyPriority {

  datatype Option<T> = None | Some(value: T)

  /** A closed interval, the universe of discourse of a variable. */
  datatype Tuple = Tuple(left: real, right: real)
  {
    function Size(): real
    {
      right - left
    }

    predicate Contains(x: real)
    {
      left <= x <= right
    }
  }

  /** The four breakpoints of a trapezoidal membership function. */
  datatype Trapezoid = Trapezoid(a: real, b: real, c: real, d: real)
  {
    predicate WellFormed()
    {
      a <= b <= c <= d
    }
  }

  /** The linguistic levels of the CPU and memory inputs. */
  datatype Level = Low | Reasonable | High

  /** The linguistic levels of the priority output. */
  datatype PriorityLevel = LowPriority | NormalPriority | HighPriority

  /** "If cpu is `cpu` and memory is `memory` then priority is `consequent`". */
  datatype Rule = Rule(cpu: Level, memory: Level, consequent: PriorityLevel)

  /** The rule-base evaluation: (cpu input, memory input, method id) to the crisp priority. */
  type Engine = (real, real, nat) -> real

  /** One evaluation of the rule base: the inputs it saw and the method id. */
  datatype Evaluation = Evaluation(cpu: real, memory: real, methodId: nat)

  const HeightMethod: nat := 0
  const CentroidMethod: nat := 1

  /** The universe of discourse shared by both inputs and the output. */
  function UnitDomain(): (d: Tuple)
    ensures d.left == 0.0 && d.Size() == 10.0
  {
    Tuple(0.0, 10.0)
  }

  // ---------------------------------------------------------------------
  // Membership-function parameters
  // ---------------------------------------------------------------------

  function CpuMF(l: Level): (t: Trapezoid)
    ensures t.WellFormed()
  {
    match l
    case Low => Trapezoid(-3.74, -0.476, 0.5, 3.0)
    case Reasonable => Trapezoid(2.0, 4.0, 6.0, 8.0)
    case High => Trapezoid(7.0, 8.0, 10.0, 10.0)
  }

  function MemoryMF(l: Level): (t: Trapezoid)
    ensures t.WellFormed()
  {
    match l
    case Low => Trapezoid(-3.74, -0.476, 0.5, 3.0)
    case Reasonable => Trapezoid(2.0, 4.0, 6.0, 8.0)
    case High => Trapezoid(7.0, 8.0, 10.0, 10.0)
  }

  function PriorityMF(p: PriorityLevel): (t: Trapezoid)
    ensures t.WellFormed()
  {
    match p
    case LowPriority => Trapezoid(-1.36, -0.0428, 0.4, 4.5)
    case NormalPriority => Trapezoid(1.0, 4.6, 5.4, 9.0)
    case HighPriority => Trapezoid(5.5, 9.6, 10.0, 10.0)
  }

  /** The CPU and memory partitions are the same three trapezoids. */
  lemma CpuAndMemoryPartitionsAgree(l: Level)
    ensures CpuMF(l) == MemoryMF(l)
  {
  }

  /**
   * On the input domain the three input sets overlap pairwise: every point
   * of [0,10] lies inside the support of some set, so no input is left
   * uncovered.
   */
  lemma InputPartitionCoversDomain(x: real)
    requires UnitDomain().Contains(x)
    ensures exists l :: CpuMF(l).a < x < CpuMF(l).d || CpuMF(l).b <= x <= CpuMF(l).c
  {
    if x < 3.0 {
      assert CpuMF(Low).a < x < CpuMF(Low).d;
    } else if x < 8.0 {
      assert CpuMF(Reasonable).a < x < CpuMF(Reasonable).d;
    } else {
      assert CpuMF(High).b <= x <= CpuMF(High).c;
    }
  }

  // ---------------------------------------------------------------------
  // Rule table
  // ---------------------------------------------------------------------

  /** The nine rules, in the order they are added to the rule base. */
  function Rules(): (rs: seq<Rule>)
    ensures |rs| == 9
  {
    [ Rule(Low, Low, HighPriority),
      Rule(Low, Reasonable, LowPriority),
      Rule(Low, High, LowPriority),
      Rule(Reasonable, Low, HighPriority),
      Rule(Reasonable, Reasonable, NormalPriority),
      Rule(Reasonable, High, LowPriority),
      Rule(High, Low, HighPriority),
      Rule(High, Reasonable, NormalPriority),
      Rule(High, High, LowPriority) ]
  }

  /** Number of rules of `rs` from position `i` on whose antecedents are exactly (`c`, `m`). */
  function MatchCount(rs: seq<Rule>, i: nat, c: Level, m: Level): (n: nat)
    ensures n <= |rs| - i || i >= |rs|
    decreases |rs| - i
  {
    if i >= |rs| then 0
    else (if rs[i].cpu == c && rs[i].memory == m then 1 else 0) + MatchCount(rs, i + 1, c, m)
  }

  /** The consequent of the first rule of `rs` from position `i` on for (`c`, `m`), if any. */
  function Lookup(rs: seq<Rule>, i: nat, c: Level, m: Level): (p: Option<PriorityLevel>)
    ensures p.None? <==> MatchCount(rs, i, c, m) == 0
    decreases |rs| - i
  {
    if i >= |rs| then None
    else if rs[i].cpu == c && rs[i].memory == m then Some(rs[i].consequent)
    else Lookup(rs, i + 1, c, m)
  }

  /**
   * The table read by memory level: low memory gives high priority, high
   * memory low priority, and reasonable memory gives low priority for low
   * CPU and normal priority otherwise.
   */
  function TablePriority(c: Level, m: Level): PriorityLevel
  {
    match m
    case Low => HighPriority
    case High => LowPriority
    case Reasonable => if c == Low then LowPriority else NormalPriority
  }

  /**
   * Every (cpu level, memory level) pair is covered by exactly one rule,
   * so the rule base is a total function, and that function is
   * `TablePriority`.
   */
  lemma RuleTableIsTotal(c: Level, m: Level)
    ensures MatchCount(Rules(), 0, c, m) == 1
  {
  }

  lemma RuleTableIsTablePriority(c: Level, m: Level)
    ensures Lookup(Rules(), 0, c, m) == Some(TablePriority(c, m))
  {
  }

  /** Low memory yields high priority and high memory low priority, whatever the CPU level. */
  lemma MemoryDecidesExtremes(c: Level)
    ensures Lookup(Rules(), 0, c, Low) == Some(HighPriority)
    ensures Lookup(Rules(), 0, c, High) == Some(LowPriority)
  {
    RuleTableIsTablePriority(c, Low);
    RuleTableIsTablePriority(c, High);
  }

  // ---------------------------------------------------------------------
  // The 21 x 21 input sweep
  // ---------------------------------------------------------------------

  /** Row `i` of the sweep: cpu = i * 0.5 against memory = j * 0.5 for j = 0..20. */
  function SweepRow(i: nat): (row: seq<Evaluation>)
    ensures |row| == 21
  {
    seq(21, j requires 0 <= j => Evaluation(i as real * 0.5, j as real * 0.5, HeightMethod))
  }

  /** The first `i` rows of the sweep. */
  function SweepUpTo(i: nat): (s: seq<Evaluation>)
    ensures |s| == 21 * i
  {
    if i == 0 then [] else SweepUpTo(i - 1) + SweepRow(i - 1)
  }

  /** The evaluations the constructor performs. */
  function Sweep(): (s: seq<Evaluation>)
    ensures |s| == 441
  {
    SweepUpTo(21)
  }

  /** Position of the pair (i, j) in the sweep. */
  function GridIndex(i: nat, j: nat): nat
  {
    21 * i + j
  }

  lemma {:induction false} SweepUpToShape(n: nat)
    ensures |SweepUpTo(n)| == 21 * n
    ensures forall i, j :: 0 <= i < n && 0 <= j < 21 ==>
      SweepUpTo(n)[GridIndex(i, j)] == Evaluation(i as real * 0.5, j as real * 0.5, HeightMethod)
  {
    if n > 0 {
      SweepUpToShape(n - 1);
      forall i, j | 0 <= i < n && 0 <= j < 21
        ensures SweepUpTo(n)[GridIndex(i, j)] == Evaluation(i as real * 0.5, j as real * 0.5, HeightMethod)
      {
        if i < n - 1 {
          assert GridIndex(i, j) < 21 * (n - 1);
        } else {
          assert GridIndex(i, j) == 21 * (n - 1) + j;
        }
      }
    }
  }

  /**
   * The sweep evaluates exactly 441 inputs, the grid point (i * 0.5, j * 0.5)
   * at position 21 * i + j, each with the height method.
   */
  lemma SweepIsTheGrid()
    ensures |Sweep()| == 441
    ensures forall i, j :: 0 <= i < 21 && 0 <= j < 21 ==>
      Sweep()[GridIndex(i, j)] == Evaluation(i as real * 0.5, j as real * 0.5, HeightMethod)
  {
    SweepUpToShape(21);
  }

  /** Distinct grid points are distinct evaluations: no pair is evaluated twice. */
  lemma SweepPointsDistinct(i1: nat, j1: nat, i2: nat, j2: nat)
    requires i1 < 21 && j1 < 21 && i2 < 21 && j2 < 21
    requires i1 != i2 || j1 != j2
    ensures GridIndex(i1, j1) != GridIndex(i2, j2)
    ensures Sweep()[GridIndex(i1, j1)] != Sweep()[GridIndex(i2, j2)]
  {
    SweepIsTheGrid();
  }

  lemma {:induction false} SweepUpToInDomain(n: nat)
    requires n <= 21
    ensures forall k :: 0 <= k < |SweepUpTo(n)| ==>
      UnitDomain().Contains(SweepUpTo(n)[k].cpu) && UnitDomain().Contains(SweepUpTo(n)[k].memory)
  {
    if n > 0 {
      SweepUpToInDomain(n - 1);
    }
  }

  /** Every swept input lies in [0,10], and both endpoints are reached. */
  lemma SweepStaysInDomain()
    ensures forall k :: 0 <= k < |Sweep()| ==>
      UnitDomain().Contains(Sweep()[k].cpu) && UnitDomain().Contains(Sweep()[k].memory)
  {
    SweepUpToInDomain(21);
  }

  lemma {:induction false} SweepUpToEnds(n: nat)
    requires n > 0
    ensures SweepUpTo(n)[0] == Evaluation(0.0, 0.0, HeightMethod)
    ensures SweepUpTo(n)[21 * n - 1] == Evaluation((n - 1) as real * 0.5, 10.0, HeightMethod)
  {
    if n > 1 {
      SweepUpToEnds(n - 1);
    }
  }

  /** The sweep starts at (0, 0) and ends at (10, 10). */
  lemma SweepReachesBothEndpoints()
    ensures Sweep()[0] == Evaluation(0.0, 0.0, HeightMethod)
    ensures Sweep()[440] == Evaluation(10.0, 10.0, HeightMethod)
  {
    SweepUpToEnds(21);
  }

  // ---------------------------------------------------------------------
  // Control surface
  // ---------------------------------------------------------------------

  /** The k-th x sample: k times the step size / (n - 1). */
  function SurfacePoint(d: Tuple, n: nat, k: nat): real
    requires n >= 2
  {
    k as real * (d.Size() / (n as real - 1.0))
  }

  lemma ScaleBelow(a: real, b: real, step: real)
    requires 0.0 <= a <= b && step >= 0.0
    ensures 0.0 <= a * step <= b * step
  {
    assert b * step - a * step == (b - a) * step;
  }

  /** `xs` holds the control-surface x samples for domain `d`. */
  ghost predicate AxisSamples(xs: seq<real>, d: Tuple)
  {
    |xs| >= 2 && forall k :: 0 <= k < |xs| ==> xs[k] == SurfacePoint(d, |xs|, k)
  }

  lemma SurfacePointBounds(d: Tuple, n: nat, k: nat)
    requires n >= 2 && k < n && d.Size() >= 0.0
    ensures 0.0 <= SurfacePoint(d, n, k) <= SurfacePoint(d, n, n - 1) == d.Size()
  {
    var step := d.Size() / (n as real - 1.0);
    var last := n as real - 1.0;
    assert last * step == d.Size();
    ScaleBelow(k as real, last, step);
  }

  /** The x samples start at 0, end at the domain size and stay between the two. */
  lemma AxisSamplesSpanDomain(xs: seq<real>, d: Tuple, k: nat)
    requires AxisSamples(xs, d) && d.Size() >= 0.0 && k < |xs|
    ensures xs[0] == 0.0 && xs[|xs| - 1] == d.Size()
    ensures 0.0 <= xs[k] <= d.Size()
  {
    SurfacePointBounds(d, |xs|, k);
    assert xs[k] == SurfacePoint(d, |xs|, k);
    assert xs[|xs| - 1] == SurfacePoint(d, |xs|, |xs| - 1);
  }

  /** One column of the surface: `count` evaluations at cpu = `x`. */
  function SurfaceColumn(x: real, count: nat, mem: real, methodId: nat): (col: seq<Evaluation>)
    ensures |col| == count
  {
    seq(count, k requires 0 <= k => Evaluation(x, mem, methodId))
  }

  /** The evaluations of the surface loop: for each x sample, one per y sample. */
  function SurfaceEvaluations(xs: seq<real>, count: nat, mem: real, methodId: nat): seq<Evaluation>
  {
    if xs == [] then []
    else SurfaceEvaluations(xs[..|xs| - 1], count, mem, methodId) + SurfaceColumn(xs[|xs| - 1], count, mem, methodId)
  }

  lemma SurfaceEvaluationsSnoc(xs: seq<real>, x: real, count: nat, mem: real, methodId: nat)
    ensures SurfaceEvaluations(xs + [x], count, mem, methodId)
         == SurfaceEvaluations(xs, count, mem, methodId) + SurfaceColumn(x, count, mem, methodId)
  {
    assert (xs + [x])[..|xs|] == xs;
  }

  /** The surface loop evaluates the rule base once per cell. */
  lemma {:induction false} SurfaceEvaluationsCount(xs: seq<real>, count: nat, mem: real, methodId: nat)
    ensures |SurfaceEvaluations(xs, count, mem, methodId)| == |xs| * count
  {
    if xs != [] {
      SurfaceEvaluationsCount(xs[..|xs| - 1], count, mem, methodId);
      assert |xs| * count == (|xs| - 1) * count + count;
    }
  }

  class Input {
    const name: string
    const domain: Tuple
    /** The current crisp value; None until it is first set. */
    var input: Option<real>

    constructor (name: string, domain: Tuple)
      ensures this.name == name && this.domain == domain && input.None?
    {
      this.name := name;
      this.domain := domain;
      input := None;
    }

    method SetInput(x: real)
      modifies this
      ensures input == Some(x)
    {
      input := Some(x);
    }
  }

  class Output {
    const name: string
    const domain: Tuple
    var discretisationLevel: nat

    constructor (name: string, domain: Tuple)
      ensures this.name == name && this.domain == domain && discretisationLevel == 100
    {
      this.name := name;
      this.domain := domain;
      discretisationLevel := 100;
    }

    method SetDiscretisationLevel(level: nat)
      modifies this
      ensures discretisationLevel == level
    {
      discretisationLevel := level;
    }
  }

  class SimpleT1FLS {
    const cpu: Input
    const memory: Input
    const priority: Output
    const rulebase: seq<Rule>
    /** The rule base's evaluation (`T1_Rulebase.evaluate(method).get(priority)`). */
    const evaluate: Engine
    /** Every evaluation of the rule base so far, in order. */
    ghost var evaluations: seq<Evaluation>

    ghost predicate Valid()
      reads this, cpu, memory
    {
      cpu != memory && cpu.input.Some? && memory.input.Some?
    }

    /**
     * Sets up the domains, sets and rules, then evaluates the priority at
     * every point of the 21 x 21 grid with the height method.
     */
    constructor (evaluate: Engine)
      ensures Valid() && fresh(cpu) && fresh(memory) && fresh(priority)
      ensures cpu.domain == UnitDomain() && memory.domain == UnitDomain() && priority.domain == UnitDomain()
      ensures rulebase == Rules() && priority.discretisationLevel == 100
      ensures this.evaluate == evaluate
      ensures evaluations == Sweep()
      ensures cpu.input == Some(10.0) && memory.input == Some(10.0)
    {
      cpu := new Input("Cpu usage", UnitDomain());
      memory := new Input("Memory usage", UnitDomain());
      priority := new Output("Priority", UnitDomain());
      rulebase := Rules();
      this.evaluate := evaluate;
      evaluations := [];
      new;
      priority.SetDiscretisationLevel(100);
      var i := 0;
      while i <= 20
        invariant 0 <= i <= 21
        invariant evaluations == SweepUpTo(i)
        invariant i > 0 ==> cpu.input == Some((i - 1) as real * 0.5) && memory.input == Some(10.0)
        invariant priority.discretisationLevel == 100
      {
        SweepRowAt(i);
        i := i + 1;
      }
    }

    /**
     * The inner loop of the constructor: row `i` of the sweep, the memory
     * input running over 0, 0.5, ..., 10 with the cpu input held at i * 0.5.
     */
    method SweepRowAt(i: nat)
      requires cpu != memory
      modifies cpu, memory, this`evaluations
      ensures cpu.input == Some(i as real * 0.5) && memory.input == Some(10.0)
      ensures evaluations == old(evaluations) + SweepRow(i)
    {
      var j := 0;
      ghost var before := evaluations;
      while j <= 20
        invariant 0 <= j <= 21
        invariant evaluations == before + SweepRow(i)[..j]
        invariant j > 0 ==> cpu.input == Some(i as real * 0.5) && memory.input == Some((j - 1) as real * 0.5)
      {
        var cpuInput := i as real * 0.5;
        var memoryInput := j as real * 0.5;
        var _ := GetPriority(cpuInput, memoryInput);
        assert SweepRow(i)[..j + 1] == SweepRow(i)[..j] + [Evaluation(cpuInput, memoryInput, HeightMethod)];
        j := j + 1;
      }
      assert SweepRow(i)[..21] == SweepRow(i);
    }

    /**
     * `rulebase.evaluate(method).get(priority)` on the current inputs; the
     * call is recorded in `evaluations`.
     */
    method Evaluate(methodId: nat) returns (r: real)
      requires cpu.input.Some? && memory.input.Some?
      modifies this`evaluations
      ensures r == evaluate(cpu.input.value, memory.input.value, methodId)
      ensures evaluations == old(evaluations) + [Evaluation(cpu.input.value, memory.input.value, methodId)]
    {
      evaluations := evaluations + [Evaluation(cpu.input.value, memory.input.value, methodId)];
      r := evaluate(cpu.input.value, memory.input.value, methodId);
    }

    /**
     * Overwrites both inputs, then evaluates with height defuzzification:
     * the result depends on the two arguments alone, so equal arguments
     * give equal results.
     */
    method GetPriority(cpuUsage: real, memUsage: real) returns (r: real)
      requires cpu != memory
      modifies cpu, memory, this`evaluations
      ensures Valid()
      ensures cpu.input == Some(cpuUsage) && memory.input == Some(memUsage)
      ensures r == evaluate(cpuUsage, memUsage, HeightMethod)
      ensures evaluations == old(evaluations) + [Evaluation(cpuUsage, memUsage, HeightMethod)]
    {
      cpu.SetInput(cpuUsage);
      memory.SetInput(memUsage);
      r := Evaluate(HeightMethod);
    }

    /**
     * The inner loop of the control surface: every cell of column `column`
     * of `z` receives the evaluation on the current inputs, with the
     * centroid method exactly when it is asked for.
     */
    method FillColumn(useCentroidDefuzzification: bool, z: array2<real>, column: nat)
      requires cpu.input.Some? && memory.input.Some?
      requires column < z.Length1
      modifies z, this`evaluations
      ensures forall cy, cx :: 0 <= cy < z.Length0 && 0 <= cx < z.Length1 ==>
        z[cy, cx] == if cx == column
                     then evaluate(cpu.input.value, memory.input.value,
                                   if useCentroidDefuzzification then CentroidMethod else HeightMethod)
                     else old(z[cy, cx])
      ensures evaluations == old(evaluations) + SurfaceColumn(cpu.input.value, z.Length0, memory.input.value,
                              if useCentroidDefuzzification then CentroidMethod else HeightMethod)
    {
      ghost var methodId := if useCentroidDefuzzification then CentroidMethod else HeightMethod;
      ghost var cell := Evaluation(cpu.input.value, memory.input.value, methodId);
      var currentY := 0;
      while currentY < z.Length0
        modifies z, this`evaluations
        invariant 0 <= currentY <= z.Length0
        invariant forall cy, cx :: 0 <= cy < z.Length0 && 0 <= cx < z.Length1 ==>
          z[cy, cx] == if cx == column && cy < currentY then evaluate(cell.cpu, cell.memory, methodId) else old(z[cy, cx])
        invariant evaluations == old(evaluations) + SurfaceColumn(cell.cpu, currentY, cell.memory, methodId)
      {
        var output;
        if useCentroidDefuzzification {
          output := Evaluate(CentroidMethod);
        } else {
          output := Evaluate(HeightMethod);
        }
        z[currentY, column] := output;
        assert SurfaceColumn(cell.cpu, currentY + 1, cell.memory, methodId)
            == SurfaceColumn(cell.cpu, currentY, cell.memory, methodId) + [cell];
        currentY := currentY + 1;
      }
    }

    /**
     * The outer evaluation loop of the control surface: for each x sample
     * in turn, set the CPU input to it and fill its column of `z`.
     */
    method FillSurface(useCentroidDefuzzification: bool, x: array<real>, z: array2<real>)
      requires cpu != memory && cpu.input.Some? && memory.input.Some?
      requires z.Length1 == x.Length
      modifies cpu, z, this`evaluations
      ensures cpu.input.Some? && memory.input == old(memory.input)
      ensures cpu.input == if x.Length == 0 then old(cpu.input) else Some(x[x.Length - 1])
      ensures forall cy, cx :: 0 <= cy < z.Length0 && 0 <= cx < x.Length ==>
        z[cy, cx] == evaluate(x[cx], memory.input.value,
                              if useCentroidDefuzzification then CentroidMethod else HeightMethod)
      ensures evaluations == old(evaluations) + SurfaceEvaluations(x[..], z.Length0, memory.input.value,
                              if useCentroidDefuzzification then CentroidMethod else HeightMethod)
    {
      ghost var methodId := if useCentroidDefuzzification then CentroidMethod else HeightMethod;
      ghost var mem := memory.input.value;
      ghost var before := evaluations;
      ghost var xs := x[..];
      var currentX := 0;
      while currentX < x.Length
        modifies cpu, z, this`evaluations
        invariant 0 <= currentX <= x.Length
        invariant cpu.input == if currentX == 0 then old(cpu.input) else Some(x[currentX - 1])
        invariant forall cy, cx :: 0 <= cy < z.Length0 && 0 <= cx < currentX ==>
          z[cy, cx] == evaluate(x[cx], mem, methodId)
        invariant evaluations == before + SurfaceEvaluations(xs[..currentX], z.Length0, mem, methodId)
      {
        cpu.SetInput(x[currentX]);
        FillColumn(useCentroidDefuzzification, z, currentX);
        assert xs[..currentX + 1] == xs[..currentX] + [xs[currentX]];
        SurfaceEvaluationsSnoc(xs[..currentX], xs[currentX], z.Length0, mem, methodId);
        currentX := currentX + 1;
      }
      assert xs[..x.Length] == xs;
      assert evaluations == before + SurfaceEvaluations(xs, z.Length0, mem, methodId);
      assert xs == x[..];
      assert mem == memory.input.value;
    }

    /**
     * Fills the control-surface arrays: x[k] = k * size / (n - 1), every
     * y[k] is 0 (its increment is never changed from 0), and every cell
     * z[cy, cx] holds the evaluation at cpu = x[cx] with the memory input
     * left as it was, using the centroid method exactly when it is asked for.
     */
    method PlotControlSurface(useCentroidDefuzzification: bool, input1Discs: nat, input2Discs: nat)
      returns (x: array<real>, y: array<real>, z: array2<real>)
      requires Valid()
      requires input1Discs != 1
      modifies cpu, this`evaluations
      ensures Valid()
      ensures fresh(x) && fresh(y) && fresh(z)
      ensures x.Length == input1Discs && y.Length == input2Discs
      ensures z.Length0 == input2Discs && z.Length1 == input1Discs
      ensures input1Discs > 0 ==> AxisSamples(x[..], cpu.domain)
      ensures forall k :: 0 <= k < input2Discs ==> y[k] == 0.0
      ensures forall cy, cx :: 0 <= cy < input2Discs && 0 <= cx < input1Discs ==>
        z[cy, cx] == evaluate(x[cx], memory.input.value,
                              if useCentroidDefuzzification then CentroidMethod else HeightMethod)
      ensures memory.input == old(memory.input)
      ensures cpu.input == if input1Discs == 0 then old(cpu.input) else Some(x[input1Discs - 1])
      ensures evaluations == old(evaluations) + SurfaceEvaluations(x[..], input2Discs, memory.input.value,
                              if useCentroidDefuzzification then CentroidMethod else HeightMethod)
    {
      x := new real[input1Discs];
      y := new real[input2Discs];
      z := new real[input2Discs, input1Discs];
      var incrY := 0.0;
      var incrX := cpu.domain.Size() / (input1Discs as real - 1.0);

      var currentX := 0;
      while currentX < input1Discs
        modifies x
        invariant 0 <= currentX <= input1Discs
        invariant forall k :: 0 <= k < currentX ==> x[k] == SurfacePoint(cpu.domain, input1Discs, k)
      {
        x[currentX] := currentX as real * incrX;
        currentX := currentX + 1;
      }
      var currentY := 0;
      while currentY < input2Discs
        modifies y
        invariant 0 <= currentY <= input2Discs
        invariant forall k :: 0 <= k < currentY ==> y[k] == 0.0
      {
        y[currentY] := currentY as real * incrY;
        currentY := currentY + 1;
      }

      assert input1Discs > 0 ==> AxisSamples(x[..], cpu.domain);
      FillSurface(useCentroidDefuzzification, x, z);
    }
  }
}
