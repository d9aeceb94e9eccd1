# Solar panel, capacitor and load simulator — a Dafny model

The repository simulates a solar panel that feeds a capacitor, which in turn feeds a
load (a bitcoin-mining ASIC). This project models its three core pieces and proves
properties of them.

- **`panel.dfy`, module `PanelModel`.** The panel of `panel.py`.
  - Construction computes the exponent `eta` of the Pindado et al. current-voltage curve.
  - `panel_output` is that two-branch curve: the first formula strictly below Vmp, the second from Vmp on. It is scaled by irradiance/1000 and clamped at zero.
  - `get_irradiance` is a stub that answers full sun.
  - Dafny has no real exponentiation, so every member takes the power function `pow` (x ** a) as a parameter. The lemmas assume only three laws of it (`PowLaws`):
    - 0 ** a = 0 for a > 0;
    - 1 ** a = 1;
    - x ** a > 1 for x > 1 and a > 0.
  - `PowLawsSatisfiable` shows the three laws are consistent.
- **`sim.dfy`, module `Simulation`.** The harness of `sim.py`:
  - `get_irr_at_time`, a filter-then-argmax over the irradiance log;
  - the stepped irradiance profile of `stress_test`;
  - `stress_test` itself. It is modelled as methods that fill the output arrays in place. A pure reference, `Run` (a trace of `Step` results), states what each slot holds. The time axis is `numpy.arange`.
  - The voltage solver loop is modelled as written.
  - The load that `stress_test` drives is an abstract `Load` record, because the loaded `dynamicLoad.py` does not have the operations `stress_test` calls (see "Left out").
- **`dynamic_load.dfy`, module `DynamicLoadModel`.** The class `dynamicLoad` as a Dafny class with the same twelve fields.
  - The constructor initialises them.
  - `GetPower` computes the capacitor current and a panel power estimate, discards both, and returns 15.
- **`wrappers.dfy`.** The `Option` type, used where the source raises an exception instead of returning.

Each stress-test step works as follows:
1. The slot before is overwritten with the panel power at its stored voltage, under this step's irradiance.
2. The voltage solver runs.
3. The panel power at the solver's voltage is stored.
4. If the voltage is at or below `minVoltage`, the load is browned out and the voltage is clamped to `minVoltage`.
5. `get_power` runs at the clamped voltage.
6. The state label is turned into a code.

`StressTest` proves that the arrays hold exactly this, slot by slot. `RunSolvedVoltages` proves the brownout and clamp facts for every step of the run.

Three places where the code does not do what its own comments or evident purpose suggest. The model follows the code in each:

- **The voltage solver (sim.py:113-137).** The comment at sim.py:117 says the end current `i1` is to be refined as the loop runs, which is a fixed-point iteration that re-evaluates `i1` on every pass. In the code, `i1` is computed once, at sim.py:117, before the loop. Every iterate is therefore the same trapezoid step. The loop accepts it on the first pass when it lies within 1e-5 of the Euler estimate, and on the second pass otherwise. `SolveVoltage` models this loop and proves it ends (a ghost pass counter bounds it to two passes). `SolvedVoltage` is the voltage it accepts.
- **The capacitor current (dynamicLoad.py:24).** The current of a capacitor of C farads (the unit named at dynamicLoad.py:16) is C·ΔV/dt. The code computes ΔV/(C·dt). `CapAmps` follows the code.
- **The load.** The comment at dynamicLoad.py:14 names the states 'curtailed' and 'curtailing', and sim.py calls `brownout()` and reads states 'booting' and 'crashed', so a run/curtail/boot/brownout controller is evidently intended. `dynamicLoad.py` has only the constructor and a `get_power` that returns 15. `DynamicLoad` models what is there.

## Model

| member | source | states |
|---|---|---|
| PanelModel.MakePanel | panel.py:2-11 | No panel (the constructor raises) exactly when Imp, Isc − Imp or Voc is zero. Otherwise the arguments are stored, with eta = (Isc/Imp)(Isc/(Isc−Imp))((Voc−Vmp)/Voc). A panel with 0 < Imp < Isc and 0 < Vmp < Voc always constructs, well formed and with eta > 0 |
| PanelModel.EtaPositive | panel.py:11 | eta is strictly positive whenever 0 < Imp < Isc and 0 < Vmp < Voc |
| PanelModel.FullSunCurrent | panel.py:20-23 | Branch choice: the first formula for PV < Vmp, the second for PV ≥ Vmp, Vmp included |
| PanelModel.PanelOutput | panel.py:13-32 | The current is never negative. It equals (IR/1000)·(full-sun current) when that is not negative, and 0 otherwise |
| PanelModel.GetIrradiance | panel.py:34-40 | Returns 1000 for every voltage and current |
| PanelModel.IrradianceScaling | panel.py:27-28 | For IR ≥ 0 the output is IR/1000 times the full-sun output. IR = 0 gives 0 at every voltage |
| PanelModel.IrradianceMonotone | panel.py:27-32 | At a fixed voltage the output does not decrease as the irradiance grows |
| PanelModel.ShortCircuitCurrent | panel.py:20-28 | At 0 V the full-sun current is Isc, and the output is Isc·IR/1000 for every IR ≥ 0 |
| PanelModel.BranchesMeetAtMpp | panel.py:20-23 | Both branches give Imp at Vmp, so the curve is continuous there |
| PanelModel.MaxPowerPointCurrent | panel.py:22-28 | At exactly Vmp the second branch is taken. The output is Imp·IR/1000 for IR ≥ 0 |
| PanelModel.BeyondOpenCircuitNegative | panel.py:22-23 | Above Voc the unclamped full-sun current is negative |
| PanelModel.OpenCircuitOutput | panel.py:22-32 | The output is 0 at Voc for every irradiance. Above Voc it is 0 for every IR ≥ 0, clamped from negative |
| PanelModel.SmallPanelAtMpp | sim.py:172 | The panel the script builds (21.6 V, 18 V, 220.32 A, 201.6 A) constructs, and gives 201.6 A at 18 V in full sun |
| Simulation.ClosestIndex | sim.py:68 | No index exactly when every row is after the target. Otherwise the index of a row at or before the target that no such row is later than, the first of tied rows |
| Simulation.LatestUnique | sim.py:68 | At most one row meets that description, so the pick is determined |
| Simulation.GetIrrAtTime | sim.py:54-71 | No result (the source raises) exactly when every row is after the target. Otherwise the state of the latest row at or before the target, taking the earliest of tied rows |
| Simulation.StressIrradiance | sim.py:86-93 | lowIRR exactly when segmentTime < t ≤ 2·segmentTime, and highIRR otherwise |
| Simulation.ArangeLength | sim.py:76 | The length of arange(0, stop, step): it reaches stop/step, and one point fewer would not |
| Simulation.Arange | sim.py:76 | A fresh array of ArangeLength points holding k·step at index k |
| Simulation.ParseMode | sim.py:149-153 | A recognised label gives the mode of that name. No mode means no mode has that name |
| Simulation.StateCode | sim.py:149-153 | running→3, curtailing→2, booting→1, curtailed→0, crashed→−5. Any other label leaves the slot's prior value |
| Simulation.ModeCodeInjective | sim.py:149-153 | Distinct modes are written as distinct codes |
| Simulation.UnknownStateReadsAsBooting | sim.py:149-153 | An unrecognised label leaves the 1 from ones_like, which is the code of booting |
| Simulation.SolveVoltage | sim.py:109-137 | The loop terminates. The accepted voltage is within 1e-5 of the previous iterate, which is either itself or the Euler estimate. The accepted voltage is the trapezoid step v0 + ((i0+i1)/2 − P/v0)/C·dt, with i1 taken at the Euler estimate |
| Simulation.DarkStepDischarges | sim.py:109-130 | With no irradiance the solver's voltage is v0 − P/v0/C·dt. It is below v0 for a positive load, voltage, capacitor and step |
| Simulation.Step | sim.py:96-153 | The stored voltage is never below minVoltage. Brownout happens exactly when the solver's voltage is at or below minVoltage, and is applied before get_power, which sees the clamped voltage. The slot before gets the power at its own voltage under this step's irradiance |
| Simulation.Run | sim.py:86-153 | The trace has one entry per step after slot 0 |
| Simulation.RunStepsAgree | sim.py:86-153 | Entry j of every run is the Step from entry j − 1 (or from the load's start) at time point j + 1 |
| Simulation.RunSolvedVoltages | sim.py:145-148 | In every run with a nonzero start voltage and a positive minVoltage, each step starts from a nonzero voltage, and its solver voltage is SolvedVoltage. It browns out exactly when that voltage is ≤ minVoltage. The stored voltage is then minVoltage, and otherwise the solver voltage, above minVoltage |
| Simulation.AdvanceStep | sim.py:96-153 | One pass of the for loop writes slots i − 1 and i as Step says, and no other slot |
| Simulation.StressStart | sim.py:76-84 | Four fresh, distinct arrays of len(time) points, every slot from 1 on holding the 1 of ones_like. Slot 0 holds lastPanelVoltage, the panel power under highIRR, lastPower and code 3 |
| Simulation.StressStep | sim.py:86-153 | One pass of the loop keeps every slot filled up to i + 1 and extends the run by one step |
| Simulation.StressLoop | sim.py:86-158 | After the for loop every slot is filled as the run says |
| Simulation.StressTest | sim.py:75-159 | All five arrays have len(arange(0, 3·segmentTime, dt)) points, with time[k] = k·dt. Slot 0 holds the start values, and slot k ≥ 1 the k-th step of Run, never below minVoltage and with its state code. Each panel-power slot but the last is the power the next step wrote there, and the last is the power at the solver's voltage |
| DynamicLoadModel.DynamicLoad.constructor | dynamicLoad.py:7-19 | The arguments are stored unchanged. state = "running", curtailTime = 0, and target = lastPower = maxPower |
| DynamicLoadModel.DynamicLoad.CapAmps | dynamicLoad.py:24 | The capacitor current times capacitorSize·dt is the capacitor's voltage change |
| DynamicLoadModel.DynamicLoad.PanelPowerEstimate | dynamicLoad.py:27 | (estimate − lastPower)·2·capacitorSize·dt is the change of the squared capacitor voltage |
| DynamicLoadModel.DynamicLoad.GetPower | dynamicLoad.py:21-29 | No result exactly when capacitorSize·dt is zero (the division raises), and otherwise 15. It modifies no field |
| DynamicLoadModel.DynamicLoad.CapAmpsSign | dynamicLoad.py:22-24 | For positive capacitorSize·dt, the current is positive, zero or negative exactly when the capacitor charged, held or discharged |
| DynamicLoadModel.DynamicLoad.PanelPowerEstimateTracksCharge | dynamicLoad.py:26-27 | A held voltage estimates the last power. A rising non-negative voltage estimates more than the last power |

## Left out

- Reading and normalising the CSV log (sim.py:19-51) is pandas I/O. The log reaches `GetIrrAtTime` as a sequence of `Sample` rows. Row positions stand for the pandas index labels, which is the default RangeIndex of `read_csv`. NaN states produced by `to_numeric(errors='coerce')` are not modelled.
- The charts and the Dash dashboard, including the curve-sampling loop (sim.py:179-185 and what follows sim.py:204), are user interface.
- The module-level script (sim.py:172-204) only builds the objects and calls `stress_test`. Its panel constants appear in `SmallPanelAtMpp`. The diagnostic `print` at sim.py:85 is output only.
- The intermediates of `stress_test` that no output depends on are not computed: deltaWatts, energyChange, dV, dI, p0, p1, avgV, avgP and dE.
- Real exponentiation is the parameter `pow`, constrained only by `PowLaws`.
  - A negative base with a fractional exponent has no real power. Inside `stress_test` the voltages are numpy float64 values, so `**` at panel.py:21 gives NaN there and `amps < 0` at panel.py:29 is false, so the NaN is returned. The model lets `pow` return a real there.
  - Simulation.SolveVoltage: ends on every input, but in the source a start voltage below zero, or an Euler estimate below zero (a heavy drain on a small capacitor), makes `i0` or `i1` NaN at sim.py:116-117. `NEWv1` is then NaN, the test at sim.py:131 is never true, and the `while(True)` at sim.py:123-137 never exits. `RunnableFrom` admits a negative start voltage, so `StressTest` does not capture this hang.
- Floating point is not modelled: all arithmetic is on exact reals, and there is no rounding, inf or NaN.
  - numpy turns a division by a zero voltage or a zero capacitor size into inf or NaN instead of raising. `StressTest` therefore requires a nonzero start voltage, a positive minVoltage and a nonzero capacitor size (`RunnableFrom`).
- PanelModel.PanelOutput: requires a well-formed panel (0 < Imp < Isc, 0 < Vmp < Voc, eta as constructed). This is the invariant a datasheet panel has; the source does not enforce it, and for many panels outside it (such as Isc = 1, Imp = 2, Vmp = 1, Voc = 2 at PV = 0.5, which gives 5.0 at panel.py:21) returns a value without error. The model does not cover those panels.
- Simulation.StressTest: requires dt ≠ 0 and at least one time point, because with step 0 `arange` fails and on an empty axis `voltage[0] = …` raises.
- Simulation.StressTest: the arrays are real-valued. In the source each takes its type from `np.arange(0, 3*segmentTime, dt)` (sim.py:76-80). With integer `dt` and `segmentTime` that is an int64 array, and so are the four `ones_like` arrays. Every store at sim.py:81, 98, 109, 132, 134 and 147 then truncates toward zero. With `minVoltage` = 11.5, a solved 11.7 is stored as 11, and a brownout stores 11. The stored voltage is then below minVoltage, which the model's voltage floor does not capture; the model holds only for float time axes.
- The load driven by `stress_test` is the abstract record `Load`, because the shipped `dynamicLoad.py` does not fit the calls sim.py makes:
  - sim.py:177 passes `minVoltage`, `bootDelay` and `targetDecrement`, which the constructor does not accept;
  - sim.py:146 calls a `brownout()` that does not exist;
  - sim.py:148 calls `get_power(voltage, dt, panel)` against the parameters `(panelVoltage, capacitorVoltage, dt)`.

  `Load` holds `minVoltage`, `capacitorSize`, `brownout` and `getPower`. Neither operation is invented; each is a function parameter. Both map the load's whole state, a `LoadView<H>`, to its next state. That state is the three fields the harness reads (state label, `lastPower`, `lastPanelVoltage`) plus a `rest` of any type `H`, which holds whatever else the load keeps: a power target, a curtail timer, the last capacitor voltage. The panel argument of `get_power` is folded into `getPower`. `minVoltage` and `capacitorSize` are kept in `Load`, not in the per-step `LoadView`, so the model assumes `brownout()` and `get_power()` never change them. The source does not promise this: it re-reads `Bitaxe.minVoltage` right after `Bitaxe.brownout()` (sim.py:146-147), and `Bitaxe.capacitorSize` on every step (sim.py:109, 130).
- The load object is passed from step to step as a value (`LoadView<H>`), so aliasing of the mutated `Bitaxe` object is not modelled: `brownout` and `getPower` are pure in the load's state, and nothing else can change that state between steps.
- The voltage solver enters the run through the parameter `solve`, which `SolvesFor` ties to `SolvedVoltage` for every nonzero start voltage, and which `SolverOf` builds.
  - `AdvanceStep` runs the solver loop itself (`SolveVoltage`) on every step.
- DynamicLoadModel.DynamicLoad.GetPower: the discarded intermediates are computed through `CapAmps` and `PanelPowerEstimate`. That GetPower writes no field follows from its having no `modifies` clause, not from an `ensures`.
