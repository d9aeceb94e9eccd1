/** The simulation harness of sim.py: the lookup of a logged irradiance sample, the
    stepped irradiance profile of the stress test, and the time-stepped integrator that
    couples the panel and the load through the capacitor and fills the output arrays. */
module Simulation {
  import opened Wrappers
  import opened PanelModel

  // ---------------------------------------------------------------------------
  // get_irr_at_time
  // ---------------------------------------------------------------------------

  /** One row of the processed irradiance log: seconds since the first timestamp, and
      the irradiance, already scaled to 0..1000. Rows are indexed by position. */
  datatype Sample = Sample(timeDelta: real, state: real)

  /** Among the first n rows, row k is at or before `target`, no row at or before
      `target` is later than it, and every earlier row at or before `target` is
      strictly earlier (the first of tied rows is the one taken). */
  ghost predicate LatestAtOrBefore(rows: seq<Sample>, n: nat, target: real, k: int)
    requires n <= |rows|
  {
    0 <= k < n && rows[k].timeDelta <= target &&
    (forall j :: 0 <= j < n && rows[j].timeDelta <= target ==> rows[j].timeDelta <= rows[k].timeDelta) &&
    (forall j :: 0 <= j < k && rows[j].timeDelta <= target ==> rows[j].timeDelta < rows[k].timeDelta)
  }

  /** The position of the row that the filter-then-argmax picks among the first n rows;
      None when no such row is at or before `target`. */
  function ClosestIndex(rows: seq<Sample>, n: nat, target: real): (r: Option<nat>)
    requires n <= |rows|
    ensures r.None? <==> (forall j :: 0 <= j < n ==> rows[j].timeDelta > target)
    ensures r.Some? ==> LatestAtOrBefore(rows, n, target, r.value)
  {
    if n == 0 then None
    else
      var prev := ClosestIndex(rows, n - 1, target);
      if rows[n - 1].timeDelta <= target && (prev.None? || rows[prev.value].timeDelta < rows[n - 1].timeDelta)
      then Some(n - 1)
      else prev
  }

  /** The picked row is the only one meeting the specification. */
  lemma LatestUnique(rows: seq<Sample>, n: nat, target: real, k1: int, k2: int)
    requires n <= |rows|
    requires LatestAtOrBefore(rows, n, target, k1) && LatestAtOrBefore(rows, n, target, k2)
    ensures k1 == k2
  {
  }

  /** get_irr_at_time: the irradiance of the latest row at or before `target` (the
      earliest of tied rows); None where the source raises because no row qualifies. */
  function GetIrrAtTime(rows: seq<Sample>, target: real): (r: Option<real>)
    ensures r.None? <==> (forall j :: 0 <= j < |rows| ==> rows[j].timeDelta > target)
    ensures r.Some? ==> exists k :: LatestAtOrBefore(rows, |rows|, target, k) && r.value == rows[k].state
  {
    match ClosestIndex(rows, |rows|, target)
    case None => None
    case Some(k) => Some(rows[k].state)
  }

  // ---------------------------------------------------------------------------
  // The stress-test irradiance profile and the time axis
  // ---------------------------------------------------------------------------

  /** The stepped profile of stress_test: low irradiance exactly on the middle segment
      (segmentTime, 2*segmentTime], high irradiance everywhere else. */
  function StressIrradiance(t: real, segmentTime: real, highIRR: real, lowIRR: real): (irr: real)
    ensures segmentTime < t <= 2.0 * segmentTime ==> irr == lowIRR
    ensures !(segmentTime < t <= 2.0 * segmentTime) ==> irr == highIRR
  {
    if t <= segmentTime then highIRR
    else if t <= segmentTime * 2.0 then lowIRR
    else highIRR
  }

  /** The smallest integer not below x. */
  function Ceil(x: real): (c: int)
    ensures c as real >= x && (c - 1) as real < x
  {
    if x.Floor as real == x then x.Floor else x.Floor + 1
  }

  /** The number of points 0, step, 2*step, ... that numpy's arange(0, stop, step) yields:
      the least count n such that n*step reaches `stop`, counted in steps. */
  function ArangeLength(stop: real, step: real): (n: nat)
    requires step != 0.0
    ensures n as real >= stop / step
    ensures n > 0 ==> (n - 1) as real < stop / step
  {
    var q := stop / step;
    if q <= 0.0 then 0 else Ceil(q)
  }

  /** numpy's arange(0, stop, step): the array 0, step, 2*step, ... of ArangeLength points. */
  method Arange(stop: real, step: real) returns (a: array<real>)
    requires step != 0.0
    ensures fresh(a) && a.Length == ArangeLength(stop, step)
    ensures forall k :: 0 <= k < a.Length ==> a[k] == k as real * step
  {
    a := new real[ArangeLength(stop, step)](k => k as real * step);
  }

  // ---------------------------------------------------------------------------
  // Load states and their codes in the ASICState array
  // ---------------------------------------------------------------------------

  /** The state labels the stress test recognises. */
  datatype Mode = Running | Curtailing | Booting | Curtailed | Crashed

  function ModeName(m: Mode): string {
    match m
    case Running => "running"
    case Curtailing => "curtailing"
    case Booting => "booting"
    case Curtailed => "curtailed"
    case Crashed => "crashed"
  }

  /** The mode a state label names, if any. */
  function ParseMode(s: string): (m: Option<Mode>)
    ensures m.Some? ==> ModeName(m.value) == s
    ensures m.None? ==> forall x: Mode :: ModeName(x) != s
  {
    if s == "running" then Some(Running)
    else if s == "curtailing" then Some(Curtailing)
    else if s == "booting" then Some(Booting)
    else if s == "curtailed" then Some(Curtailed)
    else if s == "crashed" then Some(Crashed)
    else None
  }

  /** The code written to ASICState for each mode. */
  function ModeCode(m: Mode): real {
    match m
    case Running => 3.0
    case Curtailing => 2.0
    case Booting => 1.0
    case Curtailed => 0.0
    case Crashed => -5.0
  }

  /** Distinct modes get distinct codes. */
  lemma ModeCodeInjective(a: Mode, b: Mode)
    ensures ModeCode(a) == ModeCode(b) <==> a == b
  {
  }

  /** The value of ASICState[i] after the five label checks, when it held `initial`
      before them: a recognised label gives its mode's code, any other label leaves
      `initial` in place. */
  function StateCode(state: string, initial: real): (code: real)
    ensures forall m: Mode :: ModeName(m) == state ==> code == ModeCode(m)
    ensures (forall m: Mode :: ModeName(m) != state) ==> code == initial
  {
    match ParseMode(state)
    case Some(m) => ModeCode(m)
    case None => initial
  }

  /** An unrecognised label reads in the array as booting does (both leave 1). */
  lemma UnknownStateReadsAsBooting(state: string)
    requires forall m: Mode :: ModeName(m) != state
    ensures StateCode(state, 1.0) == StateCode("booting", 1.0) == 1.0
  {
    assert ModeName(Booting) == "booting";
  }

  // ---------------------------------------------------------------------------
  // The load as the stress test drives it
  // ---------------------------------------------------------------------------

  /** The load object's state between steps: the three fields stress_test reads (its
      state label, the power it drew last and the panel voltage it saw last) and `rest`,
      whatever else the load keeps (a power target, a curtail timer, the last capacitor
      voltage), of a type the load chooses. */
  datatype LoadView<H> = LoadView(state: string, lastPower: real, lastPanelVoltage: real, rest: H)

  /** The load object of stress_test: its brownout threshold, its capacitor size, and
      its two operations, brownout() and get_power(voltage, dt, panel), which return the
      load's next view (and, for get_power, the power it will draw). */
  datatype Load<!H> = Load(
    minVoltage: real,
    capacitorSize: real,
    brownout: LoadView<H> -> LoadView<H>,
    getPower: (LoadView<H>, real, real) -> (LoadView<H>, real))

  /** The panel as the harness drives it: the current solarPanel.panel_output gives at a
      voltage under an irradiance. */
  type Curve = (real, real) -> real

  /** The curve of a well-formed panel of the panel model, which is what stress_test is given. */
  function PanelCurve(p: Panel, pow: PowFn): (out: Curve)
    requires WellFormed(p)
    ensures forall pv: real, ir: real :: out(pv, ir) == PanelOutput(p, pow, pv, ir)
  {
    (pv: real, ir: real) => PanelOutput(p, pow, pv, ir)
  }

  // ---------------------------------------------------------------------------
  // The voltage solver of one step
  // ---------------------------------------------------------------------------

  /** The tolerance at which the solver accepts an iterate. */
  const Tolerance: real := 0.00001

  function Abs(x: real): real {
    if x < 0.0 then -x else x
  }

  /** The first estimate of the new capacitor voltage: the panel current at the start of
      the step, held over the whole step, less the load current, charges the capacitor. */
  function EulerEstimate(v0: real, i0: real, power: real, c: real, dt: real): real
    requires v0 != 0.0 && c != 0.0
  {
    v0 + (i0 - power / v0) / c * dt
  }

  /** An iterate of the solver: the mean of the start and end panel currents, less the
      load current, charges the capacitor over the step. */
  function TrapezoidEstimate(v0: real, i0: real, i1: real, power: real, c: real, dt: real): real
    requires v0 != 0.0 && c != 0.0
  {
    v0 + ((i0 + i1) / 2.0 - power / v0) / c * dt
  }

  /** The voltage the solver accepts: one trapezoid step whose end current is the panel's
      current at the first estimate. */
  function SolvedVoltage(panelOutput: Curve, v0: real, power: real, irr: real, c: real, dt: real): real
    requires v0 != 0.0 && c != 0.0
  {
    var i0 := panelOutput(v0, irr);
    var i1 := panelOutput(EulerEstimate(v0, i0, power, c, dt), irr);
    TrapezoidEstimate(v0, i0, i1, power, c, dt)
  }

  /** The refinement loop of one step, from the voltage v0 and the load power `power` of
      the step before. It accepts an iterate within Tolerance of the previous one. The end
      current i1 is evaluated once, before the loop, so every iterate is the same trapezoid
      step: the loop ends on its first pass or on its second. */
  method SolveVoltage(panelOutput: Curve, v0: real, power: real, irr: real, c: real, dt: real)
    returns (v: real, previous: real)
    requires v0 != 0.0 && c != 0.0
    ensures Abs(v - previous) < Tolerance
    ensures v == SolvedVoltage(panelOutput, v0, power, irr, c, dt)
    ensures previous == v || previous == EulerEstimate(v0, panelOutput(v0, irr), power, c, dt)
  {
    var i0 := panelOutput(v0, irr);
    var v1 := EulerEstimate(v0, i0, power, c, dt);
    var i1 := panelOutput(v1, irr);
    ghost var passes: nat := 0;
    while true
      invariant passes <= 1
      invariant passes == 0 ==> v1 == EulerEstimate(v0, i0, power, c, dt)
      invariant passes == 1 ==> v1 == TrapezoidEstimate(v0, i0, i1, power, c, dt)
      invariant i1 == panelOutput(EulerEstimate(v0, i0, power, c, dt), irr)
      decreases 2 - passes
    {
      var newV1 := TrapezoidEstimate(v0, i0, i1, power, c, dt);
      if Abs(newV1 - v1) < Tolerance {
        v, previous := newV1, v1;
        return;
      }
      v1 := newV1;
      passes := passes + 1;
    }
  }

  /** Without light the panel delivers nothing, so the solver's voltage is the start
      voltage less the load's drain alone, and a positive load drains the capacitor. */
  lemma DarkStepDischarges(p: Panel, pow: PowFn, v0: real, power: real, c: real, dt: real)
    requires WellFormed(p) && v0 != 0.0 && c != 0.0
    ensures SolvedVoltage(PanelCurve(p, pow), v0, power, 0.0, c, dt) == v0 - power / v0 / c * dt
    ensures v0 > 0.0 && power > 0.0 && c > 0.0 && dt > 0.0 ==> SolvedVoltage(PanelCurve(p, pow), v0, power, 0.0, c, dt) < v0
  {
    var out := PanelCurve(p, pow);
    IrradianceScaling(p, pow, v0, 0.0);
    var i0 := out(v0, 0.0);
    assert i0 == 0.0;
    var e := EulerEstimate(v0, i0, power, c, dt);
    IrradianceScaling(p, pow, e, 0.0);
    assert out(e, 0.0) == 0.0;
    DrainOnly(v0, power, c, dt);
    if v0 > 0.0 && power > 0.0 && c > 0.0 && dt > 0.0 {
      DrainPositive(v0, power, c, dt);
    }
  }

  /** The trapezoid step with no panel current at either end is the load's drain alone. */
  lemma DrainOnly(v0: real, power: real, c: real, dt: real)
    requires v0 != 0.0 && c != 0.0
    ensures TrapezoidEstimate(v0, 0.0, 0.0, power, c, dt) == v0 - power / v0 / c * dt
  {
    assert (0.0 + 0.0) / 2.0 - power / v0 == -(power / v0);
  }

  lemma DrainPositive(v0: real, power: real, c: real, dt: real)
    requires v0 > 0.0 && power > 0.0 && c > 0.0 && dt > 0.0
    ensures power / v0 / c * dt > 0.0
  {
  }

  /** A solver of one step, as a function of the start voltage, the load power and the
      irradiance. */
  type Solver = (real, real, real) -> real

  /** `solve` gives the voltage SolveVoltage accepts for the curve, the capacitor size c
      and the time step dt, from every start voltage SolveVoltage accepts. */
  ghost predicate SolvesFor(solve: Solver, panelOutput: Curve, c: real, dt: real) {
    c != 0.0 &&
    forall v0: real, power: real, irr: real {:trigger SolvedVoltage(panelOutput, v0, power, irr, c, dt)} ::
      v0 != 0.0 ==> solve(v0, power, irr) == SolvedVoltage(panelOutput, v0, power, irr, c, dt)
  }

  /** The solver of the curve: every curve and nonzero capacitor size has one. */
  function SolverOf(panelOutput: Curve, c: real, dt: real): (solve: Solver)
    requires c != 0.0
    ensures SolvesFor(solve, panelOutput, c, dt)
  {
    (v0: real, power: real, irr: real) =>
      if v0 != 0.0 then SolvedVoltage(panelOutput, v0, power, irr, c, dt) else v0
  }

  // ---------------------------------------------------------------------------
  // One step of the stress test, and the whole run
  // ---------------------------------------------------------------------------

  /** What one step produces: the panel power written over the slot before (at that
      slot's stored voltage, under this step's irradiance), the solver's voltage, whether
      it browned out, the voltage stored, the panel power stored at the solver's voltage,
      the load power drawn and the load's next view. */
  datatype StepResult<H> = StepResult(
    previousPanelPower: real, solved: real, brownout: bool, voltage: real, panelPower: real,
    asicPower: real, load: LoadView<H>)

  /** One step, from the stored voltage v0 and load power `power` of the step before and
      the load's view `view`, with the solver `solve`. The stored voltage never falls
      below minVoltage; brownout() is applied to the load exactly when the solver's
      voltage is at or below minVoltage, and before get_power, which sees the clamped
      voltage. */
  function Step<H>(solve: Solver, panelOutput: Curve, ld: Load<H>, view: LoadView<H>,
                v0: real, power: real, irr: real, dt: real): (r: StepResult<H>)
    ensures r.previousPanelPower == panelOutput(v0, irr) * v0
    ensures r.solved == solve(v0, power, irr)
    ensures r.brownout <==> r.solved <= ld.minVoltage
    ensures r.voltage >= ld.minVoltage
    ensures r.voltage == if r.brownout then ld.minVoltage else r.solved
    ensures r.panelPower == panelOutput(r.solved, irr) * r.solved
    ensures (r.load, r.asicPower) == ld.getPower(if r.brownout then ld.brownout(view) else view, r.voltage, dt)
  {
    var solved := solve(v0, power, irr);
    var down := solved <= ld.minVoltage;
    var v := if down then ld.minVoltage else solved;
    var next := ld.getPower(if down then ld.brownout(view) else view, v, dt);
    StepResult(panelOutput(v0, irr) * v0, solved, down, v, panelOutput(solved, irr) * solved, next.1, next.0)
  }

  /** What the step after index j of a trace starts from: the load's view, the stored
      voltage and the load power of the slot before it. */
  datatype Before<H> = Before(view: LoadView<H>, voltage: real, power: real)

  function BeforeStep<H>(t: seq<StepResult<H>>, j: nat, start: LoadView<H>): Before<H>
    requires j <= |t|
  {
    if j == 0 then Before(start, start.lastPanelVoltage, start.lastPower)
    else Before(t[j - 1].load, t[j - 1].voltage, t[j - 1].asicPower)
  }

  /** The first `steps` steps of the stress test over the time axis `times`: step j + 1
      runs at time times[j + 1] from what step j left (or from the load's starting view),
      under the stepped profile. */
  ghost function Run<H>(solve: Solver, panelOutput: Curve, ld: Load<H>, start: LoadView<H>, dt: real,
                     times: seq<real>, segmentTime: real, highIRR: real, lowIRR: real, steps: nat)
    : (t: seq<StepResult<H>>)
    requires steps < |times|
    ensures |t| == steps
    decreases steps
  {
    if steps == 0 then []
    else
      var prior := Run(solve, panelOutput, ld, start, dt, times, segmentTime, highIRR, lowIRR, steps - 1);
      var b := BeforeStep(prior, steps - 1, start);
      prior + [Step(solve, panelOutput, ld, b.view, b.voltage, b.power,
                    StressIrradiance(times[steps], segmentTime, highIRR, lowIRR), dt)]
  }

  /** A run of steps + 1 steps is the run of `steps` steps and one more Step. */
  lemma RunExtends<H>(solve: Solver, panelOutput: Curve, ld: Load<H>, start: LoadView<H>, dt: real,
                   times: seq<real>, segmentTime: real, highIRR: real, lowIRR: real, steps: nat)
    requires steps + 1 < |times|
    ensures var t := Run(solve, panelOutput, ld, start, dt, times, segmentTime, highIRR, lowIRR, steps);
            var b := BeforeStep(t, steps, start);
            Run(solve, panelOutput, ld, start, dt, times, segmentTime, highIRR, lowIRR, steps + 1)
              == t + [Step(solve, panelOutput, ld, b.view, b.voltage, b.power,
                           StressIrradiance(times[steps + 1], segmentTime, highIRR, lowIRR), dt)]
  {
  }

  /** Every entry j of a run is the Step taken from entry j - 1 (or from the load's
      starting view), at time times[j + 1]. */
  lemma {:induction false} RunStepsAgree<H>(solve: Solver, panelOutput: Curve, ld: Load<H>, start: LoadView<H>, dt: real,
                                         times: seq<real>, segmentTime: real, highIRR: real, lowIRR: real,
                                         steps: nat, j: nat)
    requires j < steps < |times|
    ensures var t := Run(solve, panelOutput, ld, start, dt, times, segmentTime, highIRR, lowIRR, steps);
            var b := BeforeStep(t, j, start);
            t[j] == Step(solve, panelOutput, ld, b.view, b.voltage, b.power,
                         StressIrradiance(times[j + 1], segmentTime, highIRR, lowIRR), dt)
    decreases steps
  {
    var t := Run(solve, panelOutput, ld, start, dt, times, segmentTime, highIRR, lowIRR, steps);
    var prior := Run(solve, panelOutput, ld, start, dt, times, segmentTime, highIRR, lowIRR, steps - 1);
    assert t[..steps - 1] == prior;
    assert BeforeStep(t, j, start) == BeforeStep(prior, j, start);
    if j < steps - 1 {
      RunStepsAgree(solve, panelOutput, ld, start, dt, times, segmentTime, highIRR, lowIRR, steps - 1, j);
      assert t[j] == prior[j];
    }
  }

  /** In a run whose solver is SolveVoltage's and whose start voltage and minVoltage are
      positive, every step starts from a nonzero voltage and its solver's voltage is
      SolvedVoltage of it; the step browns the load out exactly when that voltage is at
      or below minVoltage, and the stored voltage is then exactly minVoltage, and otherwise
      the solver's voltage, above minVoltage. */
  lemma {:induction false} RunSolvedVoltages<H>(solve: Solver, panelOutput: Curve, ld: Load<H>, start: LoadView<H>, dt: real,
                                             times: seq<real>, segmentTime: real, highIRR: real, lowIRR: real,
                                             steps: nat, j: nat)
    requires RunnableFrom(ld, start) && SolvesFor(solve, panelOutput, ld.capacitorSize, dt)
    requires j < steps < |times|
    ensures var t := Run(solve, panelOutput, ld, start, dt, times, segmentTime, highIRR, lowIRR, steps);
            var b := BeforeStep(t, j, start);
            b.voltage != 0.0 &&
            t[j].solved == SolvedVoltage(panelOutput, b.voltage, b.power,
                                         StressIrradiance(times[j + 1], segmentTime, highIRR, lowIRR),
                                         ld.capacitorSize, dt) &&
            (t[j].brownout <==> t[j].solved <= ld.minVoltage) &&
            (t[j].brownout ==> t[j].voltage == ld.minVoltage) &&
            (!t[j].brownout ==> t[j].voltage == t[j].solved > ld.minVoltage)
  {
    var t := Run(solve, panelOutput, ld, start, dt, times, segmentTime, highIRR, lowIRR, steps);
    var b := BeforeStep(t, j, start);
    RunStepsAgree(solve, panelOutput, ld, start, dt, times, segmentTime, highIRR, lowIRR, steps, j);
    if j > 0 {
      RunStepsAgree(solve, panelOutput, ld, start, dt, times, segmentTime, highIRR, lowIRR, steps, j - 1);
      assert b.voltage >= ld.minVoltage;
    }
    var irr := StressIrradiance(times[j + 1], segmentTime, highIRR, lowIRR);
    assert t[j].solved == solve(b.voltage, b.power, irr);
    assert SolvedVoltage(panelOutput, b.voltage, b.power, irr, ld.capacitorSize, dt) == solve(b.voltage, b.power, irr);
  }

  /** The conditions on the stress test's inputs under which every step is defined. */
  predicate RunnableFrom<H>(ld: Load<H>, start: LoadView<H>) {
    start.lastPanelVoltage != 0.0 && ld.minVoltage > 0.0 && ld.capacitorSize != 0.0
  }

  /** The body of stress_test's loop for slot i: the panel power of slot i - 1 under this
      step's irradiance, the solver, the panel power at the solver's voltage, the
      brownout check and get_power, and the state code of the load's new label. */
  method AdvanceStep<H>(solve: Solver, panelOutput: Curve, ld: Load<H>, load: LoadView<H>, irr: real, dt: real,
                     voltage: array<real>, panelPower: array<real>, asicPower: array<real>, asicState: array<real>,
                     i: nat)
    returns (next: LoadView<H>, ghost r: StepResult<H>)
    requires SolvesFor(solve, panelOutput, ld.capacitorSize, dt)
    requires 1 <= i < voltage.Length == panelPower.Length == asicPower.Length == asicState.Length
    requires voltage != panelPower && voltage != asicPower && voltage != asicState
    requires panelPower != asicPower && panelPower != asicState && asicPower != asicState
    requires voltage[i - 1] != 0.0
    modifies voltage, panelPower, asicPower, asicState
    ensures r == Step(solve, panelOutput, ld, load, old(voltage[i - 1]), old(asicPower[i - 1]), irr, dt)
    ensures next == r.load
    ensures voltage[i] == r.voltage && asicPower[i] == r.asicPower
    ensures asicState[i] == StateCode(r.load.state, old(asicState[i]))
    ensures panelPower[i - 1] == r.previousPanelPower
    ensures panelPower[i] == r.panelPower
    ensures forall k :: 0 <= k < voltage.Length && k != i ==>
              voltage[k] == old(voltage[k]) && asicPower[k] == old(asicPower[k]) && asicState[k] == old(asicState[k])
    ensures forall k :: 0 <= k < panelPower.Length && k != i - 1 && k != i ==> panelPower[k] == old(panelPower[k])
  {
    var panelAmps := panelOutput(voltage[i - 1], irr);
    panelPower[i - 1] := panelAmps * voltage[i - 1];
    var v, _ := SolveVoltage(panelOutput, voltage[i - 1], asicPower[i - 1], irr, ld.capacitorSize, dt);
    r := Step(solve, panelOutput, ld, load, voltage[i - 1], asicPower[i - 1], irr, dt);
    voltage[i] := v;
    panelPower[i] := panelOutput(voltage[i], irr) * voltage[i];
    assert panelPower[i] == r.panelPower;
    assert panelPower[i - 1] == r.previousPanelPower;
    next := load;
    if voltage[i] <= ld.minVoltage {
      next := ld.brownout(next);
      voltage[i] := ld.minVoltage;
    }
    var drawn := ld.getPower(next, voltage[i], dt);
    next := drawn.0;
    asicPower[i] := drawn.1;
    asicState[i] := StateCode(next.state, asicState[i]);
  }

  /** The arrays of stress_test once slots 0 .. i - 1 are written: `trace` is the run of
      the first i - 1 steps and `load` the load's view after it; slot 0 holds the starting
      voltage and power and the running code, slot k >= 1 the k-th step; each slot before
      i - 1 holds the panel power the step after it wrote there, slot i - 1 the power at the
      solver's voltage (at slot 0, under highIRR); the slots from i on still hold 1. */
  ghost predicate Filled<H>(solve: Solver, panelOutput: Curve, ld: Load<H>, start: LoadView<H>, dt: real,
                         segmentTime: real, highIRR: real, lowIRR: real,
                         time: array<real>, voltage: array<real>, panelPower: array<real>,
                         asicPower: array<real>, asicState: array<real>,
                         load: LoadView<H>, trace: seq<StepResult<H>>, i: nat)
    reads time, voltage, panelPower, asicPower, asicState
  {
    var n := time.Length;
    1 <= i <= n &&
    voltage.Length == panelPower.Length == asicPower.Length == asicState.Length == n &&
    trace == Run(solve, panelOutput, ld, start, dt, time[..], segmentTime, highIRR, lowIRR, i - 1) &&
    BeforeStep(trace, i - 1, start) == Before(load, voltage[i - 1], asicPower[i - 1]) &&
    voltage[0] == start.lastPanelVoltage && asicPower[0] == start.lastPower && asicState[0] == 3.0 &&
    (forall k :: 1 <= k < i ==>
       voltage[k] == trace[k - 1].voltage && asicPower[k] == trace[k - 1].asicPower
       && asicState[k] == StateCode(trace[k - 1].load.state, 1.0)) &&
    (forall k :: 1 <= k < i ==> voltage[k] >= ld.minVoltage) &&
    (forall k :: i <= k < n ==> asicState[k] == 1.0) &&
    (forall k :: 0 <= k < i - 1 ==> panelPower[k] == trace[k].previousPanelPower) &&
    panelPower[i - 1] ==
      if i == 1 then start.lastPanelVoltage * panelOutput(start.lastPanelVoltage, highIRR)
      else trace[i - 2].panelPower
  }

  /** One pass of stress_test's loop, at slot i: it writes slots i - 1 and i and takes
      the run one step further. */
  method StressStep<H>(solve: Solver, panelOutput: Curve, ld: Load<H>, start: LoadView<H>, dt: real,
                    segmentTime: real, highIRR: real, lowIRR: real,
                    time: array<real>, voltage: array<real>, panelPower: array<real>,
                    asicPower: array<real>, asicState: array<real>,
                    load: LoadView<H>, ghost trace: seq<StepResult<H>>, i: nat)
    returns (next: LoadView<H>, ghost trace': seq<StepResult<H>>)
    requires SolvesFor(solve, panelOutput, ld.capacitorSize, dt) && ld.minVoltage > 0.0
    requires voltage != panelPower && voltage != asicPower && voltage != asicState
    requires panelPower != asicPower && panelPower != asicState && asicPower != asicState
    requires time != voltage && time != panelPower && time != asicPower && time != asicState
    requires start.lastPanelVoltage != 0.0
    requires Filled(solve, panelOutput, ld, start, dt, segmentTime, highIRR, lowIRR,
                    time, voltage, panelPower, asicPower, asicState, load, trace, i)
    requires i < time.Length
    modifies voltage, panelPower, asicPower, asicState
    ensures Filled(solve, panelOutput, ld, start, dt, segmentTime, highIRR, lowIRR,
                   time, voltage, panelPower, asicPower, asicState, next, trace', i + 1)
  {
    var irr := StressIrradiance(time[i], segmentTime, highIRR, lowIRR);
    ghost var r;
    RunExtends(solve, panelOutput, ld, start, dt, time[..], segmentTime, highIRR, lowIRR, i - 1);
    next, r := AdvanceStep(solve, panelOutput, ld, load, irr, dt, voltage, panelPower, asicPower, asicState, i);
    trace' := trace + [r];
    forall k | 0 <= k < i
      ensures panelPower[k] == trace'[k].previousPanelPower
    {
      if k < i - 1 {
        assert trace'[k] == trace[k];
      }
    }
  }

  /** The arrays of stress_test before its loop: all ones, then the load's starting
      voltage and power, the panel power at that voltage under highIRR and the running
      code in slot 0. */
  method StressStart<H>(solve: Solver, panelOutput: Curve, ld: Load<H>, start: LoadView<H>, dt: real,
                     segmentTime: real, highIRR: real, lowIRR: real, time: array<real>)
    returns (voltage: array<real>, panelPower: array<real>, asicPower: array<real>, asicState: array<real>)
    requires time.Length >= 1
    ensures fresh(voltage) && fresh(panelPower) && fresh(asicPower) && fresh(asicState)
    ensures voltage != panelPower && voltage != asicPower && voltage != asicState
    ensures panelPower != asicPower && panelPower != asicState && asicPower != asicState
    ensures voltage.Length == panelPower.Length == asicPower.Length == asicState.Length == time.Length
    ensures forall k :: 1 <= k < time.Length ==>
              voltage[k] == 1.0 && panelPower[k] == 1.0 && asicPower[k] == 1.0 && asicState[k] == 1.0
    ensures Filled(solve, panelOutput, ld, start, dt, segmentTime, highIRR, lowIRR,
                   time, voltage, panelPower, asicPower, asicState, start, [], 1)
  {
    var n := time.Length;
    voltage := new real[n](_ => 1.0);
    panelPower := new real[n](_ => 1.0);
    asicPower := new real[n](_ => 1.0);
    asicState := new real[n](_ => 1.0);
    voltage[0] := start.lastPanelVoltage;
    panelPower[0] := voltage[0] * panelOutput(voltage[0], highIRR);
    asicPower[0] := start.lastPower;
    asicState[0] := 3.0;
  }

  /** The loop of stress_test: slots 1 .. n - 1 in turn, from the arrays StressStart
      leaves; at its end all slots are written. */
  method StressLoop<H>(solve: Solver, panelOutput: Curve, ld: Load<H>, start: LoadView<H>, dt: real,
                    segmentTime: real, highIRR: real, lowIRR: real,
                    time: array<real>, voltage: array<real>, panelPower: array<real>,
                    asicPower: array<real>, asicState: array<real>)
    returns (load: LoadView<H>, ghost trace: seq<StepResult<H>>)
    requires SolvesFor(solve, panelOutput, ld.capacitorSize, dt) && ld.minVoltage > 0.0
    requires voltage != panelPower && voltage != asicPower && voltage != asicState
    requires panelPower != asicPower && panelPower != asicState && asicPower != asicState
    requires time != voltage && time != panelPower && time != asicPower && time != asicState
    requires start.lastPanelVoltage != 0.0
    requires Filled(solve, panelOutput, ld, start, dt, segmentTime, highIRR, lowIRR,
                    time, voltage, panelPower, asicPower, asicState, start, [], 1)
    modifies voltage, panelPower, asicPower, asicState
    ensures Filled(solve, panelOutput, ld, start, dt, segmentTime, highIRR, lowIRR,
                   time, voltage, panelPower, asicPower, asicState, load, trace, time.Length)
  {
    load := start;
    trace := [];
    var i := 1;
    while i < time.Length
      invariant Filled(solve, panelOutput, ld, start, dt, segmentTime, highIRR, lowIRR,
                       time, voltage, panelPower, asicPower, asicState, load, trace, i)
    {
      load, trace := StressStep(solve, panelOutput, ld, start, dt, segmentTime, highIRR, lowIRR,
                                time, voltage, panelPower, asicPower, asicState, load, trace, i);
      i := i + 1;
    }
  }

  /** stress_test: fills the voltage, panel power, load power and load state arrays over
      the time axis arange(0, 3*segmentTime, dt). Slot 0 holds the load's starting
      voltage and power and the running code; slot k >= 1 holds the k-th step of Run,
      never below minVoltage, with the load's state code. Each panel-power slot but the
      last is overwritten by the following step with the power at the stored (clamped)
      voltage under that step's irradiance; the last keeps the power at the solver's
      voltage. `trace` is the run, and `finalLoad` the load's view at the end. `solve`
      is SolveVoltage's solver, as SolverOf gives it. */
  method StressTest<H>(solve: Solver, panelOutput: Curve, ld: Load<H>, start: LoadView<H>,
                    dt: real, highIRR: real, lowIRR: real, segmentTime: real)
    returns (time: array<real>, voltage: array<real>, panelPower: array<real>,
             asicPower: array<real>, asicState: array<real>, finalLoad: LoadView<H>, ghost trace: seq<StepResult<H>>)
    requires RunnableFrom(ld, start) && SolvesFor(solve, panelOutput, ld.capacitorSize, dt)
    requires dt != 0.0 && ArangeLength(3.0 * segmentTime, dt) >= 1
    ensures fresh(time) && fresh(voltage) && fresh(panelPower) && fresh(asicPower) && fresh(asicState)
    ensures time.Length == ArangeLength(3.0 * segmentTime, dt)
    ensures voltage.Length == panelPower.Length == asicPower.Length == asicState.Length == time.Length
    ensures forall k :: 0 <= k < time.Length ==> time[k] == k as real * dt
    ensures trace == Run(solve, panelOutput, ld, start, dt, time[..], segmentTime, highIRR, lowIRR, time.Length - 1)
    ensures voltage[0] == start.lastPanelVoltage && asicPower[0] == start.lastPower && asicState[0] == 3.0
    ensures forall k :: 1 <= k < voltage.Length ==>
              voltage[k] == trace[k - 1].voltage && asicPower[k] == trace[k - 1].asicPower
              && asicState[k] == StateCode(trace[k - 1].load.state, 1.0)
    ensures forall k :: 1 <= k < voltage.Length ==> voltage[k] >= ld.minVoltage
    ensures forall k :: 0 <= k < panelPower.Length - 1 ==> panelPower[k] == trace[k].previousPanelPower
    ensures panelPower[panelPower.Length - 1] ==
              if panelPower.Length == 1 then start.lastPanelVoltage * panelOutput(start.lastPanelVoltage, highIRR)
              else trace[panelPower.Length - 2].panelPower
    ensures finalLoad == BeforeStep(trace, |trace|, start).view
  {
    var n := ArangeLength(3.0 * segmentTime, dt);
    time := Arange(3.0 * segmentTime, dt);
    voltage, panelPower, asicPower, asicState :=
      StressStart(solve, panelOutput, ld, start, dt, segmentTime, highIRR, lowIRR, time);
    finalLoad, trace := StressLoop(solve, panelOutput, ld, start, dt, segmentTime, highIRR, lowIRR,
                                   time, voltage, panelPower, asicPower, asicState);
  }
}
