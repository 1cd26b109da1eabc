# Cloud_Sim_TCC core in Dafny

A model of three small pieces of a CloudSim experiment:

- **CompactAllocation** (`compact_allocation.dfy`) models the round-robin ("compact") VM allocation policy.
  - The policy keeps a table from VM uid to host, and a circular host list with a cursor.
  - Allocating a VM that is not yet placed tries the host under the cursor. After each refusal it advances the cursor and tries again, for at most `size + 2` attempts.
  - Deallocation removes the table entry and reports the host to destroy the VM on.
  - The host's admission test `Host.vmCreate` is an oracle `accepts(uid, host)`.
  - The policy's behaviour is stated against a pure first-fit specification (`Placement`, `Attempts`, `Pos`). Lemmas show that an accepting host is always found, and that a failure means no host accepts.
- **FuzzyPriority** (`fuzzy_priority.dfy`) models the configuration and driver of the Type-1 fuzzy system that maps (CPU usage, memory usage) to a priority.
  - The configuration: the [0,10] domains, the nine trapezoid parameter sets and the nine-rule table.
  - The driver: the 21 x 21 input sweep of the constructor, `getPriority`, and the array-filling loops of `plotControlSurface`.
  - The rule-base evaluation is an uninterpreted function `evaluate(cpu, memory, methodId)` fixed at construction. Method 0 is height defuzzification and method 1 is centroid.
  - Every evaluation is recorded in a ghost log, so the order and number of evaluations can be stated.
- **StaticThreshold** (`static_threshold.dfy`) models the static-threshold over-utilisation test of the power-aware migration policy.
  - It sums the VMs' requested MIPS and RAM and divides by the host's capacity.
  - It compares the CPU ratio with a configurable threshold; the memory ratio plays no part.

Numbers are Dafny `real`s, not IEEE doubles.

## Model

| member | source | states |
|---|---|---|
| CompactAllocation.Placement | cloudsim-3.0.3/My_Codes/compacta/CompactVmAllocationPolicy.java:35-42 | The attempt at which round-robin placement succeeds is an accepting attempt, no earlier attempt accepts, and it is at most size + 1; None means none of the size + 2 attempts accepts |
| CompactAllocation.Attempts | cloudsim-3.0.3/My_Codes/compacta/CompactVmAllocationPolicy.java:37-41 | The hosts offered by the first `count` attempts: exactly `count` of them, the t-th being the host under the cursor after t advances |
| CompactAllocation.PosWithinLap | cloudsim-3.0.3/My_Codes/compacta/CompactVmAllocationPolicy.java:38-41 | Within one lap, k advances of the cursor put it on start + k taken round the end of the list |
| CompactAllocation.EveryHostOffered | cloudsim-3.0.3/My_Codes/compacta/CompactVmAllocationPolicy.java:38-41 | From any starting cursor, every host of a non-empty list is under the cursor after fewer than size advances |
| CompactAllocation.AcceptingHostIsFound | cloudsim-3.0.3/My_Codes/compacta/CompactVmAllocationPolicy.java:37-44 | If some host of a non-empty list accepts the VM, placement succeeds, and it succeeds on an accepting host |
| CompactAllocation.FirstHostAcceptsKeepsCursor | cloudsim-3.0.3/My_Codes/compacta/CompactVmAllocationPolicy.java:37-41 | If the host under the cursor accepts, placement succeeds at the first attempt and the cursor stays where it was |
| CompactAllocation.LastAttemptAdvancesOnce | cloudsim-3.0.3/My_Codes/compacta/CompactVmAllocationPolicy.java:38-42 | After the size + 1 advances of a failed allocation, the cursor is one host further on than where it started |
| CompactAllocation.FailedAllocationMeansNoHostAccepts | cloudsim-3.0.3/My_Codes/compacta/CompactVmAllocationPolicy.java:37-44 | A failed placement on a non-empty list means no host of the list accepts the VM |
| CompactAllocation.CircularHostList.constructor | cloudsim-3.0.3/My_Codes/compacta/CompactVmAllocationPolicy.java:27 | The host list holds the given hosts with the cursor on the first |
| CompactAllocation.CircularHostList.Actual | cloudsim-3.0.3/My_Codes/compacta/CompactVmAllocationPolicy.java:37 | The current host is the host under the cursor, None for an empty list |
| CompactAllocation.CircularHostList.IncIni | cloudsim-3.0.3/My_Codes/compacta/CompactVmAllocationPolicy.java:39 | Advancing moves the cursor to the next host, wrapping from the last to the first, and keeps it in range |
| CompactAllocation.CompactVmAllocationPolicy.constructor | cloudsim-3.0.3/My_Codes/compacta/CompactVmAllocationPolicy.java:21-28 | A new policy has an empty table and a fresh host list over the given hosts, with the cursor on the first |
| CompactAllocation.CompactVmAllocationPolicy.AllocateHostForVmOn | cloudsim-3.0.3/My_Codes/compacta/CompactVmAllocationPolicy.java:48-59 | Succeeds iff the host is not null and accepts the VM; on success the table gains exactly uid to host, otherwise it is unchanged |
| CompactAllocation.CompactVmAllocationPolicy.AllocateHostForVm | cloudsim-3.0.3/My_Codes/compacta/CompactVmAllocationPolicy.java:31-45 | A VM already placed gives true with no host tried and table and cursor unchanged. Otherwise the result, the hosts offered in order, the final cursor and the new table are those of first-fit `Placement`, with at most size + 2 attempts |
| CompactAllocation.CompactVmAllocationPolicy.OfferHostsInTurn | cloudsim-3.0.3/My_Codes/compacta/CompactVmAllocationPolicy.java:35-42 | The retry loop ends after the first acceptance or after size + 2 attempts. The cursor then sits on the last host offered, and the table records the VM exactly when placement succeeded |
| CompactAllocation.CompactVmAllocationPolicy.DeallocateHostForVm | cloudsim-3.0.3/My_Codes/compacta/CompactVmAllocationPolicy.java:67-73 | Removes only the VM's entry. The VM is destroyed on the host it was on, and only when it had an entry. Afterwards the lookup gives None |
| CompactAllocation.CompactVmAllocationPolicy.GetHost | cloudsim-3.0.3/My_Codes/compacta/CompactVmAllocationPolicy.java:76-78 | Gives the table's host for the VM's uid, and None exactly when the uid is absent |
| CompactAllocation.CompactVmAllocationPolicy.GetHostById | cloudsim-3.0.3/My_Codes/compacta/CompactVmAllocationPolicy.java:81-83 | Lookup by (vmId, userId) equals the lookup of the VM with those ids |
| CompactAllocation.CompactVmAllocationPolicy.OptimizeAllocation | cloudsim-3.0.3/My_Codes/compacta/CompactVmAllocationPolicy.java:62-64 | Never proposes migrations (null) |
| FuzzyPriority.UnitDomain | juzzy/src/examples/SimpleT1FLS.java:38-40 | The shared domain starts at 0 and has size 10, i.e. [0,10] |
| FuzzyPriority.CpuMF | juzzy/src/examples/SimpleT1FLS.java:45-50 | Each CPU trapezoid has non-decreasing breakpoints a <= b <= c <= d |
| FuzzyPriority.MemoryMF | juzzy/src/examples/SimpleT1FLS.java:58-63 | Each memory trapezoid has non-decreasing breakpoints |
| FuzzyPriority.PriorityMF | juzzy/src/examples/SimpleT1FLS.java:73-78 | Each priority trapezoid has non-decreasing breakpoints |
| FuzzyPriority.CpuAndMemoryPartitionsAgree | juzzy/src/examples/SimpleT1FLS.java:45-63 | The CPU and memory partitions use identical parameters, level by level |
| FuzzyPriority.InputPartitionCoversDomain | juzzy/src/examples/SimpleT1FLS.java:45-50 | Every point of [0,10] lies in the support or core of some input set |
| FuzzyPriority.Rules | juzzy/src/examples/SimpleT1FLS.java:85-94 | The rule base holds nine rules |
| FuzzyPriority.Lookup | juzzy/src/examples/SimpleT1FLS.java:86-94 | A rule for a (cpu, memory) pair is found exactly when at least one rule has those antecedents |
| FuzzyPriority.RuleTableIsTotal | juzzy/src/examples/SimpleT1FLS.java:85-94 | Every (cpu level, memory level) pair is covered by exactly one rule |
| FuzzyPriority.RuleTableIsTablePriority | juzzy/src/examples/SimpleT1FLS.java:86-94 | The rule for every pair has the consequent given by the independent memory-first table `TablePriority` |
| FuzzyPriority.MemoryDecidesExtremes | juzzy/src/examples/SimpleT1FLS.java:86-94 | Low memory gives high priority and high memory gives low priority, whatever the CPU level |
| FuzzyPriority.SweepUpTo | juzzy/src/examples/SimpleT1FLS.java:101-107 | The first i rows of the sweep hold 21 * i evaluations |
| FuzzyPriority.Sweep | juzzy/src/examples/SimpleT1FLS.java:101-107 | The sweep holds 441 evaluations |
| FuzzyPriority.SweepUpToShape | juzzy/src/examples/SimpleT1FLS.java:101-107 | Position 21 * i + j of the first n rows holds the grid point (i * 0.5, j * 0.5) with the height method |
| FuzzyPriority.SweepIsTheGrid | juzzy/src/examples/SimpleT1FLS.java:101-107 | The sweep is exactly the 441 grid points (i * 0.5, j * 0.5), i, j in 0..20, in row order, each with the height method |
| FuzzyPriority.SweepPointsDistinct | juzzy/src/examples/SimpleT1FLS.java:101-107 | Distinct grid positions hold distinct evaluations, so no pair is evaluated twice |
| FuzzyPriority.SweepUpToInDomain | juzzy/src/examples/SimpleT1FLS.java:101-107 | Every input of the first n <= 21 rows lies in [0,10] |
| FuzzyPriority.SweepStaysInDomain | juzzy/src/examples/SimpleT1FLS.java:101-107 | Every swept CPU and memory input lies in [0,10] |
| FuzzyPriority.SweepUpToEnds | juzzy/src/examples/SimpleT1FLS.java:101-107 | The first n rows start at (0, 0) and end at ((n - 1) * 0.5, 10) |
| FuzzyPriority.SweepReachesBothEndpoints | juzzy/src/examples/SimpleT1FLS.java:101-107 | The sweep starts at (0, 0) and ends at (10, 10) |
| FuzzyPriority.SurfacePointBounds | juzzy/src/examples/SimpleT1FLS.java:165-171 | Every x sample lies between 0 and the last sample, which equals the domain size |
| FuzzyPriority.AxisSamplesSpanDomain | juzzy/src/examples/SimpleT1FLS.java:165-171 | The x samples start at 0, end at the domain size (10) and stay between the two |
| FuzzyPriority.SurfaceColumn | juzzy/src/examples/SimpleT1FLS.java:180-187 | One column of the surface makes one evaluation per y sample |
| FuzzyPriority.SurfaceEvaluationsSnoc | juzzy/src/examples/SimpleT1FLS.java:177-188 | The evaluations for one more x sample are those before, followed by that sample's column |
| FuzzyPriority.SurfaceEvaluationsCount | juzzy/src/examples/SimpleT1FLS.java:177-188 | The surface loop evaluates the rule base exactly once per cell, |x| * |y| times |
| FuzzyPriority.Input.constructor | juzzy/src/examples/SimpleT1FLS.java:38-39 | An input keeps its name and domain and has no value yet |
| FuzzyPriority.Input.SetInput | juzzy/src/examples/SimpleT1FLS.java:134-135 | Setting an input makes it hold that value |
| FuzzyPriority.Output.constructor | juzzy/src/examples/SimpleT1FLS.java:40 | An output keeps its name and domain, with discretisation level 100 |
| FuzzyPriority.Output.SetDiscretisationLevel | juzzy/src/examples/SimpleT1FLS.java:97 | Setting the discretisation level makes the output hold that level |
| FuzzyPriority.SimpleT1FLS.constructor | juzzy/src/examples/SimpleT1FLS.java:35-107 | Builds the three [0,10] variables and the nine rules, and sets discretisation 100. It then evaluates exactly `Sweep()`, leaving both inputs at 10 |
| FuzzyPriority.SimpleT1FLS.SweepRowAt | juzzy/src/examples/SimpleT1FLS.java:102-106 | The inner sweep loop appends row i of the grid to the evaluations and leaves cpu = i * 0.5, memory = 10 |
| FuzzyPriority.SimpleT1FLS.Evaluate | juzzy/src/examples/SimpleT1FLS.java:145 | The rule base is evaluated on the current inputs with the given method, and the call is recorded |
| FuzzyPriority.SimpleT1FLS.GetPriority | juzzy/src/examples/SimpleT1FLS.java:131-146 | Overwrites both inputs, then gives `evaluate(cpu, mem, 0)`, a function of the arguments alone, so equal arguments give equal results. Exactly one height evaluation is recorded |
| FuzzyPriority.SimpleT1FLS.FillColumn | juzzy/src/examples/SimpleT1FLS.java:180-187 | Every cell of one column receives the evaluation on the current inputs, with method 1 iff centroid is requested. Every other cell is unchanged |
| FuzzyPriority.SimpleT1FLS.FillSurface | juzzy/src/examples/SimpleT1FLS.java:177-188 | Cell z[y][x] holds the evaluation at cpu = x[x], with the memory input unchanged and method 1 iff centroid is requested. The evaluations are made column by column |
| FuzzyPriority.SimpleT1FLS.PlotControlSurface | juzzy/src/examples/SimpleT1FLS.java:158-188 | x[k] = k * size / (n - 1) (so x runs from 0 to 10), every y[k] is 0, and every z cell is as in `FillSurface`. The rule base is evaluated once per cell, in column order |
| StaticThreshold.TotalRequestedMips | cloudsim-3.0.3/My_Codes/fuzzyAllocation/MyPowerVmAllocationPolicyMigrationStaticThreshold.java:66-71 | The sum of non-negative requested MIPS is non-negative |
| StaticThreshold.TotalRequestedRam | cloudsim-3.0.3/My_Codes/fuzzyAllocation/MyPowerVmAllocationPolicyMigrationStaticThreshold.java:67-71 | The sum of non-negative requested RAM is non-negative |
| StaticThreshold.EmptyHostNotOverUtilized | cloudsim-3.0.3/My_Codes/fuzzyAllocation/MyPowerVmAllocationPolicyMigrationStaticThreshold.java:66-80 | A host without VMs is not over-utilised for a threshold >= 0 |
| StaticThreshold.OverUtilizedAntiMonotone | cloudsim-3.0.3/My_Codes/fuzzyAllocation/MyPowerVmAllocationPolicyMigrationStaticThreshold.java:80 | Raising the threshold never turns false into true |
| StaticThreshold.NegativeThresholdAlwaysOverUtilized | cloudsim-3.0.3/My_Codes/fuzzyAllocation/MyPowerVmAllocationPolicyMigrationStaticThreshold.java:72-80 | With non-negative demands, every host is over-utilised for a negative threshold |
| StaticThreshold.SameMipsSameTotal | cloudsim-3.0.3/My_Codes/fuzzyAllocation/MyPowerVmAllocationPolicyMigrationStaticThreshold.java:68-71 | VM lists that agree on each VM's requested MIPS have the same MIPS total, whatever their RAM |
| StaticThreshold.MemoryHasNoInfluence | cloudsim-3.0.3/My_Codes/fuzzyAllocation/MyPowerVmAllocationPolicyMigrationStaticThreshold.java:74-80 | Hosts that agree on total MIPS and per-VM MIPS get the same verdict, whatever their RAM and the VMs' RAM |
| StaticThreshold.StaticThresholdPolicy.constructor | cloudsim-3.0.3/My_Codes/fuzzyAllocation/MyPowerVmAllocationPolicyMigrationStaticThreshold.java:38-55 | The argument replaces the default threshold of 9, and the history starts empty |
| StaticThreshold.StaticThresholdPolicy.SetUtilizationThreshold | cloudsim-3.0.3/My_Codes/fuzzyAllocation/MyPowerVmAllocationPolicyMigrationStaticThreshold.java:91-93 | The threshold becomes the argument, and nothing else changes |
| StaticThreshold.StaticThresholdPolicy.GetUtilizationThreshold | cloudsim-3.0.3/My_Codes/fuzzyAllocation/MyPowerVmAllocationPolicyMigrationStaticThreshold.java:100-102 | Returns the last threshold set |
| StaticThreshold.StaticThresholdPolicy.IsHostOverUtilized | cloudsim-3.0.3/My_Codes/fuzzyAllocation/MyPowerVmAllocationPolicyMigrationStaticThreshold.java:64-81 | Appends one history entry carrying the current threshold. True iff (sum of requested MIPS) / host total MIPS > threshold |

## Left out

- The fuzzy engine (trapezoid membership degrees, rule firing, min-combination, height and centroid defuzzification) lives in juzzy classes that are not part of this model. The rule-base evaluation is the uninterpreted function `evaluate`.
- Plotting (`plotMFs`, the `JMathPlotter` calls in `plotControlSurface`) and printing the rule base are console or UI output and are left out.
- MyRunner.java, MyPlanetLabRunner.java and MyConstants.java are experiment bootstrapping and static configuration, with no logic of the core.
- `Host.vmCreate` is the oracle `accepts`. It is assumed to give the same answer for the same VM and host during one allocation, so the admission side effects on the host are not modelled.
- `Host.vmDestroy` is the returned host. `Log.formatLine` and `CloudSim.clock` are logging and are left out.
- CircularHostList is not part of this model. It is taken to be a fixed sequence of hosts with a cursor that `inc_Ini` advances to the next host, wrapping at the end, and whose current host is null for an empty list.
- Vm uids are the pair (userId, vmId) rather than CloudSim's formatted string. Distinct pairs are taken to give distinct uids.
- The superclass state of both allocation policies (the host list kept by `VmAllocationPolicy`, the migration machinery of `PowerVmAllocationPolicyMigrationAbstract`) is not modelled. `addHistoryEntry` is a ghost log of (host id, threshold) entries.
- juzzy's `Input` checks of a value against its domain and its initial value are not part of this model. An input holds None until it is first set.
- Arithmetic is on exact reals, not IEEE doubles, so rounding in `i * 0.5`, in `size / (n - 1)` and in the utilisation ratios is not modelled.
- FuzzyPriority.SimpleT1FLS.PlotControlSurface: requires `input1Discs != 1`. With one sample the Java divides by zero and fills x with NaN, which reals cannot express. Array sizes are `nat`, so a negative size (an exception in Java) is excluded by the type.
- StaticThreshold.StaticThresholdPolicy.IsHostOverUtilized: requires a positive host total MIPS and RAM. With zero the Java ratios are Infinity or NaN, which reals cannot express.
- CompactAllocation.CompactVmAllocationPolicy.OptimizeAllocation: the Java `null` result is None.
